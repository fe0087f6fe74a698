/** Bit helpers (src/util.rs). */
module Util {
  import opened Results

  /** Whether bit `n` of `input` is 1; bit positions 8 and above are an error.
      The source's `&u8` parameter is taken by value here. */
  function GetBitAt(input: bv8, n: bv8): (r: Result<bool>)
    ensures r.Err? <==> n >= 8
    ensures r.Err? ==> r.error == BitPositionTooHigh(n)
    ensures r.Ok? ==> (r.value <==> (input >> n) & 1 == 1)
  {
    if n < 8 then Ok(input & (1 << n) != 0)
    else Err(BitPositionTooHigh(n))
  }

  /** Bit 7 is the sign bit: it is set exactly for the values 0x80..0xFF. */
  lemma GetBitSevenIsSign(x: bv8)
    ensures GetBitAt(x, 7) == Ok(x >= 0x80)
  {
  }

  /** Bit 6 is the bit the 0x40 mask selects. */
  lemma GetBitSixIsMask(x: bv8)
    ensures GetBitAt(x, 6) == Ok(x & 0x40 != 0)
  {
  }
}

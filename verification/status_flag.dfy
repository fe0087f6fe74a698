/** The status byte and its named flags (src/cpu/status_flag.rs, and the flag
    helpers of src/cpu.rs). A flag is a view of one bit of the byte. */
module StatusFlags {
  import opened Results
  import Util

  datatype StatusFlag = Carry | Zero | Overflow | Negative

  /** Bit position of each flag: 0, 1, 6 and 7. */
  function Position(flag: StatusFlag): (n: bv8)
    ensures n < 8
  {
    match flag
    case Carry => 0
    case Zero => 1
    case Overflow => 6
    case Negative => 7
  }

  /** The mask of each flag. Each has exactly one bit set, the flag's own
      position, and none lies in bits 2 to 5. */
  function Mask(flag: StatusFlag): (m: bv8)
    ensures m == 1 << Position(flag)
    ensures m != 0 && m & (m - 1) == 0
    ensures m & 0x3C == 0
  {
    match flag
    case Carry => 0x01
    case Zero => 0x02
    case Overflow => 0x40
    case Negative => 0x80
  }

  /** Bits 2 to 5 of the status byte, which no flag names. */
  const UNNAMED_BITS: bv8 := 0x3C

  /** The four masks are pairwise disjoint. */
  lemma MasksDisjoint(f: StatusFlag, g: StatusFlag)
    ensures f != g <==> Mask(f) & Mask(g) == 0
  {
  }

  /** The masks are exactly the 6502 values (src/cpu/status_flag.rs:2-5). */
  lemma MaskValues()
    ensures Mask(Carry) == 0x01 && Mask(Zero) == 0x02
    ensures Mask(Overflow) == 0x40 && Mask(Negative) == 0x80
  {
  }

  /** `is_flag_set`. */
  predicate IsFlagSet(status: bv8, flag: StatusFlag)
  {
    status & Mask(flag) != 0
  }

  /** A flag is set exactly when the status bit at its position is 1. */
  lemma IsFlagSetReadsPosition(status: bv8, flag: StatusFlag)
    ensures Util.GetBitAt(status, Position(flag)) == Ok(IsFlagSet(status, flag))
  {
  }

  /** `s` and `t` agree on every bit outside `flag`. */
  predicate SameOutside(s: bv8, t: bv8, flag: StatusFlag)
  {
    s & !Mask(flag) == t & !Mask(flag)
  }

  /** `set_status_bit`: the flag becomes set; nothing else changes. */
  function SetStatusBit(status: bv8, flag: StatusFlag): (r: bv8)
    ensures IsFlagSet(r, flag)
    ensures SameOutside(r, status, flag)
  {
    status | Mask(flag)
  }

  /** `unset_status_bit`: the flag becomes clear; nothing else changes. */
  function UnsetStatusBit(status: bv8, flag: StatusFlag): (r: bv8)
    ensures !IsFlagSet(r, flag)
    ensures SameOutside(r, status, flag)
  {
    status & !Mask(flag)
  }

  /** `update_flag`: the flag takes the value `shouldSet`; nothing else changes. */
  function UpdateFlag(status: bv8, flag: StatusFlag, shouldSet: bool): (r: bv8)
    ensures IsFlagSet(r, flag) == shouldSet
    ensures SameOutside(r, status, flag)
  {
    if shouldSet then SetStatusBit(status, flag) else UnsetStatusBit(status, flag)
  }

  /** `update_carry_flag`: Carry takes the value `shouldSet`; nothing else changes. */
  function UpdateCarryFlag(status: bv8, shouldSet: bool): (r: bv8)
    ensures IsFlagSet(r, Carry) == shouldSet
    ensures SameOutside(r, status, Carry)
  {
    if shouldSet then SetStatusBit(status, Carry) else UnsetStatusBit(status, Carry)
  }

  /** `update_zero_flag`: Zero is set exactly when `result` is zero. */
  function UpdateZeroFlag(status: bv8, result: bv8): (r: bv8)
    ensures IsFlagSet(r, Zero) <==> result == 0
    ensures SameOutside(r, status, Zero)
  {
    if result == 0 then SetStatusBit(status, Zero) else UnsetStatusBit(status, Zero)
  }

  /** Outcome of `update_zero_and_negative_flags(result)` on `s`, stated
      flag by flag: Zero iff the result is 0, Negative iff the result is
      0x80 or more, every other bit (Carry, Overflow, bits 2-5) as before. */
  predicate ZeroNegativeFrom(s: bv8, t: bv8, result: bv8)
  {
    && (IsFlagSet(t, Zero) <==> result == 0)
    && (IsFlagSet(t, Negative) <==> result >= 0x80)
    && t & 0x7D == s & 0x7D
  }

  /** `update_zero_and_negative_flags`. */
  function UpdateZeroAndNegativeFlags(status: bv8, result: bv8): (r: bv8)
    ensures ZeroNegativeFrom(status, r, result)
  {
    var s := UpdateZeroFlag(status, result);
    if result & 0x80 != 0 then SetStatusBit(s, Negative)
    else UnsetStatusBit(s, Negative)
  }

  /** Carry and Overflow survive `update_zero_and_negative_flags`. */
  lemma ZeroNegativeKeepsCarryAndOverflow(s: bv8, t: bv8, result: bv8)
    requires ZeroNegativeFrom(s, t, result)
    ensures IsFlagSet(t, Carry) == IsFlagSet(s, Carry)
    ensures IsFlagSet(t, Overflow) == IsFlagSet(s, Overflow)
  {
  }

  /** Updating one flag never changes another. */
  lemma OtherFlagsUnaffected(status: bv8, f: StatusFlag, g: StatusFlag, b: bool)
    requires f != g
    ensures IsFlagSet(UpdateFlag(status, f, b), g) == IsFlagSet(status, g)
  {
  }

  /** Updates of two different flags commute, so the order in which a handler
      applies them does not matter. */
  lemma UpdatesCommute(status: bv8, f: StatusFlag, b: bool, g: StatusFlag, c: bool)
    requires f != g
    ensures UpdateFlag(UpdateFlag(status, f, b), g, c)
         == UpdateFlag(UpdateFlag(status, g, c), f, b)
  {
    match f
    case Carry =>
    case Zero =>
    case Overflow =>
    case Negative =>
  }

  /** Updating a flag twice with the same value is updating it once; and a
      later update overrides an earlier one. */
  lemma UpdateIdempotent(status: bv8, f: StatusFlag, b: bool, c: bool)
    ensures UpdateFlag(UpdateFlag(status, f, b), f, c) == UpdateFlag(status, f, c)
  {
  }

  /** No helper ever touches bits 2 to 5. */
  lemma UnnamedBitsUntouched(status: bv8, f: StatusFlag, b: bool, v: bv8)
    ensures SetStatusBit(status, f) & UNNAMED_BITS == status & UNNAMED_BITS
    ensures UnsetStatusBit(status, f) & UNNAMED_BITS == status & UNNAMED_BITS
    ensures UpdateFlag(status, f, b) & UNNAMED_BITS == status & UNNAMED_BITS
    ensures UpdateZeroAndNegativeFlags(status, v) & UNNAMED_BITS == status & UNNAMED_BITS
  {
  }
}

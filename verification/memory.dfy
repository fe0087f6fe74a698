/** The CPU's flat memory and its byte and little-endian word accessors
    (`mem_read`, `mem_write`, `mem_read_u16`, `mem_write_u16` in src/cpu.rs).
    Bytes are `bv8`; 16-bit quantities (addresses, the program counter) are
    integers in [0, 0x10000), with any wrap-around written out. */
module Memory {
  import opened Results

  /** A `u16`. */
  type Word = w: int | 0 <= w < 0x10000

  /** The memory array has 0xFFFF bytes, so address 0xFFFF is outside it. */
  const MEM_SIZE: nat := 0xFFFF

  type Memory = m: seq<bv8> | |m| == MEM_SIZE witness seq(MEM_SIZE, _ => 0 as bv8)

  /** The byte with value `v`, counted up from zero one step at a time. */
  function ByteOfValue(v: nat): (b: bv8)
    requires v < 256
    ensures b as int == v
  {
    if v == 0 then 0 else ByteOfValue(v - 1) + 1
  }

  /** Converting a number below 256 to a byte keeps its value. */
  lemma ByteOfInt(v: int)
    requires 0 <= v < 256
    ensures (v as bv8) as int == v
  {
    assert ByteOfValue(v) == v as bv8;
  }

  /** Two bytes with the same numeric value are the same byte. */
  lemma ByteValueInjective(v: bv8, w: bv8)
    requires v as int == w as int
    ensures v == w
  {
  }

  /** The word whose low byte is `lo` and high byte is `hi`
      (`u16::from_le_bytes([lo, hi])`). */
  function LittleEndian(lo: bv8, hi: bv8): Word
  {
    lo as int + 256 * hi as int
  }

  /** `(data & 0xff) as u8`. */
  function LowByte(data: Word): (b: bv8)
    ensures b as int == data % 256
  {
    ByteOfInt(data % 256);
    (data % 256) as bv8
  }

  /** `(data >> 8) as u8`. */
  function HighByte(data: Word): (b: bv8)
    ensures b as int == data / 256
  {
    ByteOfInt(data / 256);
    (data / 256) as bv8
  }

  /** Splitting a word and joining the halves gives the word back. */
  lemma JoinSplit(data: Word)
    ensures LittleEndian(LowByte(data), HighByte(data)) == data
  {
  }

  /** The low byte of a joined word is the remainder by 256, the high byte
      the quotient. */
  lemma JoinDivMod(lo: bv8, hi: bv8)
    ensures LittleEndian(lo, hi) % 256 == lo as int
    ensures LittleEndian(lo, hi) / 256 == hi as int
  {
  }

  /** Joining two bytes and splitting the word gives the bytes back. */
  lemma SplitJoin(lo: bv8, hi: bv8)
    ensures LowByte(LittleEndian(lo, hi)) == lo && HighByte(LittleEndian(lo, hi)) == hi
  {
    var w := LittleEndian(lo, hi);
    JoinDivMod(lo, hi);
    ByteValueInjective(LowByte(w), lo);
    ByteValueInjective(HighByte(w), hi);
  }

  /** `mem_read`: indexing past the array is an error. */
  function MemRead(mem: Memory, addr: Word): (r: Result<bv8>)
    ensures r.Ok? <==> addr < MEM_SIZE
    ensures r.Ok? ==> r.value == mem[addr]
    ensures r.Err? ==> r.error == AddressOutOfRange(addr)
  {
    if addr < MEM_SIZE then Ok(mem[addr]) else Err(AddressOutOfRange(addr))
  }

  /** `mem_write`: one byte changes, or the index is out of range. */
  function MemWrite(mem: Memory, addr: Word, data: bv8): (r: Result<Memory>)
    ensures r.Ok? <==> addr < MEM_SIZE
    ensures r.Ok? ==> r.value[addr] == data
    ensures r.Ok? ==> forall i :: 0 <= i < MEM_SIZE && i != addr ==> r.value[i] == mem[i]
    ensures r.Err? ==> r.error == AddressOutOfRange(addr)
  {
    if addr < MEM_SIZE then Ok(mem[addr := data]) else Err(AddressOutOfRange(addr))
  }

  /** `mem_read_u16`: the low byte at `pos`, the high byte at `pos + 1`. The
      source's `pos + 1` is not wrapped; it is only reached once `pos` has
      been read, so `pos < 0xFFFF` there and the sum fits. */
  function MemReadU16(mem: Memory, pos: Word): (r: Result<Word>)
    ensures r.Ok? <==> pos + 1 < MEM_SIZE
    ensures r.Ok? ==> r.value == mem[pos] as int + 256 * mem[pos + 1] as int
    ensures r.Err? ==> r.error == AddressOutOfRange(if pos < MEM_SIZE then pos + 1 else pos)
  {
    var lo :- MemRead(mem, pos);
    var hi :- MemRead(mem, pos + 1);
    Ok(LittleEndian(lo, hi))
  }

  /** `mem_write_u16`: the low byte to `pos`, the high byte to `pos + 1`,
      nothing else changes. */
  function MemWriteU16(mem: Memory, pos: Word, data: Word): (r: Result<Memory>)
    ensures r.Ok? <==> pos + 1 < MEM_SIZE
    ensures r.Ok? ==> r.value[pos] as int == data % 256
    ensures r.Ok? ==> r.value[pos + 1] as int == data / 256
    ensures r.Ok? ==> forall i :: 0 <= i < MEM_SIZE && i != pos && i != pos + 1 ==> r.value[i] == mem[i]
  {
    var mem' :- MemWrite(mem, pos, LowByte(data));
    MemWrite(mem', pos + 1, HighByte(data))
  }

  /** A word written is the word read back. */
  lemma WriteThenReadU16(mem: Memory, pos: Word, data: Word)
    requires MemWriteU16(mem, pos, data).Ok?
    ensures MemReadU16(MemWriteU16(mem, pos, data).value, pos) == Ok(data)
  {
  }

  /** Writing back the word just read changes nothing. */
  lemma ReadThenWriteU16(mem: Memory, pos: Word)
    requires MemReadU16(mem, pos).Ok?
    ensures MemWriteU16(mem, pos, MemReadU16(mem, pos).value) == Ok(mem)
  {
    var lo, hi := mem[pos], mem[pos + 1];
    SplitJoin(lo, hi);
    var m' := MemWriteU16(mem, pos, LittleEndian(lo, hi)).value;
    assert m'[pos] == lo && m'[pos + 1] == hi;
    assert m' == mem;
  }
}

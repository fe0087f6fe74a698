/** The addressing resolver: `get_operand_address` and `get_operand_value`
    (src/cpu.rs). It only reads the CPU state. */
module Addressing {
  import opened AddressingModes
  import opened Results
  import opened Memory
  import opened Cpu

  /** `r` is `sum` reduced into [0, modulus) by at most one wrap: the result
      of a wrapping (never trapping, never saturating) addition. */
  predicate WrapsTo(r: int, sum: int, modulus: int)
  {
    0 <= r < modulus && (r == sum || r == sum - modulus)
  }

  /** `u8::wrapping_add`, on byte values. */
  function WrappingAdd8(a: int, b: int): (r: int)
    requires 0 <= a < 0x100 && 0 <= b < 0x100
    ensures WrapsTo(r, a + b, 0x100)
  {
    var sum := a + b;
    if sum < 0x100 then sum else sum - 0x100
  }

  /** The wrapping byte addition is addition modulo 256. */
  lemma WrappingAdd8Mod(a: int, b: int)
    requires 0 <= a < 0x100 && 0 <= b < 0x100
    ensures WrappingAdd8(a, b) == (a + b) % 0x100
  {
  }

  /** `u16::wrapping_add` of a word and a byte value. */
  function WrappingAdd16(w: Word, b: bv8): (r: Word)
    ensures WrapsTo(r, w + b as int, 0x10000)
  {
    var sum := w + b as int;
    if sum < 0x10000 then sum else sum - 0x10000
  }

  /** How many operand bytes, starting at the program counter, the resolver
      reads for each mode. */
  function OperandBytesRead(mode: AddressingMode): nat
  {
    match mode
    case Implicit | Accumulator | Immediate | Relative => 0
    case ZeroPage | ZeroPageX | ZeroPageY | IndirectX | IndirectY => 1
    case Absolute | AbsoluteX | AbsoluteY => 2
  }

  /** The little-endian word held at zero-page `ptr` and `(ptr + 1) mod 256`:
      the pointer's high byte never leaves page zero. */
  function ZeroPageWord(mem: Memory, ptr: int): Word
    requires 0 <= ptr < 0x100
  {
    LittleEndian(mem[ptr], mem[if ptr == 0xFF then 0 else ptr + 1])
  }

  /** The word at `ptr` and at `ptr` plus one, wrapping in page zero, is
      the zero-page word at `ptr`. */
  lemma ZeroPageWordRead(mem: Memory, ptr: int)
    requires 0 <= ptr < 0x100
    ensures LittleEndian(mem[ptr], mem[WrappingAdd8(ptr, 1)]) == ZeroPageWord(mem, ptr)
  {
  }

  /** ZeroPageX / ZeroPageY: the byte at `pc` plus the index register,
      wrapping within page zero (base 0xFF with index 1 gives 0x00). */
  function ZeroPageIndexed(mem: Memory, pc: Word, index: bv8): (r: Result<Word>)
    ensures r.Ok? <==> pc < MEM_SIZE
    ensures r.Ok? ==> WrapsTo(r.value, mem[pc] as int + index as int, 0x100)
  {
    var pos :- MemRead(mem, pc);
    Ok(WrappingAdd8(pos as int, index as int))
  }

  /** AbsoluteX / AbsoluteY: the word at `pc` plus the index register,
      wrapping at 0x10000. */
  function AbsoluteIndexed(mem: Memory, pc: Word, index: bv8): (r: Result<Word>)
    ensures r.Ok? <==> pc + 1 < MEM_SIZE
    ensures r.Ok? ==> WrapsTo(r.value, LittleEndian(mem[pc], mem[pc + 1]) + index as int, 0x10000)
  {
    var base :- MemReadU16(mem, pc);
    Ok(WrappingAdd16(base, index))
  }

  /** IndirectX, "indexed indirect": X is added to the zero-page pointer at
      `pc` (wrapping in page zero) before the word is read through it. */
  function IndexedIndirect(mem: Memory, pc: Word, x: bv8): (r: Result<Word>)
    ensures r.Ok? <==> pc < MEM_SIZE
    ensures r.Ok? ==> r.value == ZeroPageWord(mem, (mem[pc] as int + x as int) % 0x100)
  {
    var base :- MemRead(mem, pc);
    var ptr := WrappingAdd8(base as int, x as int);
    WrappingAdd8Mod(base as int, x as int);
    var lo := MemRead(mem, ptr).value;
    var hi := MemRead(mem, WrappingAdd8(ptr, 1)).value;
    ZeroPageWordRead(mem, ptr);
    Ok(LittleEndian(lo, hi))
  }

  /** IndirectY, "indirect indexed": the word is read through the zero-page
      pointer at `pc`, then Y is added to it, wrapping at 0x10000. */
  function IndirectIndexed(mem: Memory, pc: Word, y: bv8): (r: Result<Word>)
    ensures r.Ok? <==> pc < MEM_SIZE
    ensures r.Ok? ==> WrapsTo(r.value, ZeroPageWord(mem, mem[pc] as int) + y as int, 0x10000)
  {
    var base :- MemRead(mem, pc);
    var lo := MemRead(mem, base as int).value;
    var hi := MemRead(mem, WrappingAdd8(base as int, 1)).value;
    ZeroPageWordRead(mem, base as int);
    Ok(WrappingAdd16(LittleEndian(lo, hi), y))
  }

  /** `get_operand_address`. Implicit and Accumulator have no address;
      Immediate and Relative resolve to the program counter itself; every
      other mode reads its operand bytes at the program counter, failing only
      when one of them lies past the end of memory. */
  function GetOperandAddress(c: CPU, mode: AddressingMode): (r: Result<Word>)
    ensures !HasAddress(mode) ==> r == Err(NoAddress(mode))
    ensures HasAddress(mode) ==> (r.Ok? <==> c.programCounter + OperandBytesRead(mode) <= MEM_SIZE)
    ensures r.Ok? && (mode.Immediate? || mode.Relative?) ==> r.value == c.programCounter
    ensures r.Ok? && mode.ZeroPage? ==> r.value == c.memory[c.programCounter] as int
    ensures r.Ok? && mode.Absolute? ==>
      r.value == LittleEndian(c.memory[c.programCounter], c.memory[c.programCounter + 1])
  {
    var pc := c.programCounter;
    match mode
    case Immediate | Relative => Ok(pc)
    case ZeroPage =>
      var pos :- MemRead(c.memory, pc);
      Ok(pos as int)
    case Absolute => MemReadU16(c.memory, pc)
    case ZeroPageX => ZeroPageIndexed(c.memory, pc, c.registerX)
    case ZeroPageY => ZeroPageIndexed(c.memory, pc, c.registerY)
    case AbsoluteX => AbsoluteIndexed(c.memory, pc, c.registerX)
    case AbsoluteY => AbsoluteIndexed(c.memory, pc, c.registerY)
    case IndirectX => IndexedIndirect(c.memory, pc, c.registerX)
    case IndirectY => IndirectIndexed(c.memory, pc, c.registerY)
    case Implicit | Accumulator => Err(NoAddress(mode))
  }

  /** `get_operand_value`: register A in Accumulator mode, otherwise the byte
      at the resolved address. */
  function GetOperandValue(c: CPU, mode: AddressingMode): (r: Result<bv8>)
    ensures mode == Accumulator ==> r == Ok(c.registerA)
    ensures mode == Implicit ==> r == Err(NoAddress(Implicit))
    ensures mode != Accumulator ==>
      (r.Ok? <==> GetOperandAddress(c, mode).Ok? && GetOperandAddress(c, mode).value < MEM_SIZE)
    ensures mode != Accumulator && r.Ok? ==> r.value == c.memory[GetOperandAddress(c, mode).value]
  {
    if mode.Accumulator? then Ok(c.registerA)
    else
      var addr :- GetOperandAddress(c, mode);
      MemRead(c.memory, addr)
  }

  /** An Immediate operand is the byte at the program counter. */
  lemma ImmediateReadsOperand(c: CPU)
    requires c.programCounter < MEM_SIZE
    ensures GetOperandValue(c, Immediate) == Ok(c.memory[c.programCounter])
  {
    assert GetOperandAddress(c, Immediate) == Ok(c.programCounter);
  }

  /** Immediate and Relative resolve identically, to the program counter. */
  lemma ImmediateIsRelative(c: CPU)
    ensures GetOperandAddress(c, Immediate) == GetOperandAddress(c, Relative) == Ok(c.programCounter)
    ensures GetOperandValue(c, Immediate) == GetOperandValue(c, Relative)
  {
  }

  /** Zero-page indexing never leaves page zero: base 0xFF with index 1 is
      0x00, not 0x0100. */
  lemma ZeroPageIndexWraps(c: CPU)
    requires c.programCounter < MEM_SIZE
    requires c.memory[c.programCounter] == 0xFF && c.registerX == 1 && c.registerY == 1
    ensures GetOperandAddress(c, ZeroPageX) == Ok(0x00)
    ensures GetOperandAddress(c, ZeroPageY) == Ok(0x00)
  {
  }

  /** Absolute indexing wraps at 0x10000: base 0xFFFF with index 1 is 0x0000. */
  lemma AbsoluteIndexWraps(c: CPU)
    requires c.programCounter + 1 < MEM_SIZE
    requires c.memory[c.programCounter] == 0xFF && c.memory[c.programCounter + 1] == 0xFF
    requires c.registerX == 1 && c.registerY == 1
    ensures GetOperandAddress(c, AbsoluteX) == Ok(0x0000)
    ensures GetOperandAddress(c, AbsoluteY) == Ok(0x0000)
  {
  }

  /** An index of zero reduces the indexed modes to their plain forms. */
  lemma ZeroIndexIsPlain(c: CPU)
    requires c.registerX == 0 && c.registerY == 0
    ensures GetOperandAddress(c, ZeroPageX) == GetOperandAddress(c, ZeroPage)
    ensures GetOperandAddress(c, ZeroPageY) == GetOperandAddress(c, ZeroPage)
    ensures GetOperandAddress(c, AbsoluteX) == GetOperandAddress(c, Absolute)
    ensures GetOperandAddress(c, AbsoluteY) == GetOperandAddress(c, Absolute)
  {
  }

  /** An index of zero makes the two indirect modes the same zero-page
      dereference. */
  lemma ZeroIndexIndirectAgree(c: CPU)
    requires c.registerX == 0 && c.registerY == 0
    ensures GetOperandAddress(c, IndirectX) == GetOperandAddress(c, IndirectY)
  {
  }

  /** The indexed-indirect example of the source's tests: pointer 0x10 plus
      X = 4 reaches the word 0x1234 stored at 0x14. */
  lemma IndexedIndirectExample(c: CPU)
    requires c.programCounter < MEM_SIZE && c.memory[c.programCounter] == 0x10
    requires c.registerX == 4 && c.memory[0x14] == 0x34 && c.memory[0x15] == 0x12
    ensures GetOperandAddress(c, IndirectX) == Ok(0x1234)
  {
  }

  /** The indirect-indexed example of the source's tests: the word 0x1234
      stored at pointer 0x10, plus Y = 4, is 0x1238. */
  lemma IndirectIndexedExample(c: CPU)
    requires c.programCounter < MEM_SIZE && c.memory[c.programCounter] == 0x10
    requires c.registerY == 4 && c.memory[0x10] == 0x34 && c.memory[0x11] == 0x12
    ensures GetOperandAddress(c, IndirectY) == Ok(0x1238)
  {
  }

  /** The resolver only reads: A and the status byte do not influence it. */
  lemma ResolverIgnoresAccumulatorAndStatus(c: CPU, a: bv8, status: bv8, mode: AddressingMode)
    ensures GetOperandAddress(c.(registerA := a, status := status), mode) == GetOperandAddress(c, mode)
    ensures mode != Accumulator ==>
      GetOperandValue(c.(registerA := a, status := status), mode) == GetOperandValue(c, mode)
  {
  }

  /** The status byte alone: what an instruction that updates flags before
      resolving its address again relies on. */
  lemma ResolverIgnoresStatus(c: CPU, status: bv8, mode: AddressingMode)
    ensures GetOperandAddress(c.(status := status), mode) == GetOperandAddress(c, mode)
  {
    ResolverIgnoresAccumulatorAndStatus(c, c.registerA, status, mode);
    assert c.(status := status) == c.(registerA := c.registerA, status := status);
  }
}

// The instruction handlers of the CPU: each one takes the machine state
// after the opcode byte has been fetched (the program counter points at the
// first operand byte) and returns the state after the instruction's effect,
// or the error the original panics with.
//
// Each handler that reads an operand comes in two layers: a function of the
// operand byte (or address) that carries what the instruction means, and a
// function of the addressing mode that reads the operand through the
// resolver and fails exactly when that read fails.

module Handlers {
  import opened AddressingModes
  import opened Results
  import opened StatusFlags
  import opened Memory
  import opened Cpu
  import opened Addressing
  import Util

  /** The three general-purpose registers. */
  datatype Register = A | X | Y

  function ReadRegister(c: CPU, reg: Register): bv8
  {
    match reg
    case A => c.registerA
    case X => c.registerX
    case Y => c.registerY
  }

  function WriteRegister(c: CPU, reg: Register, v: bv8): (r: CPU)
    ensures ReadRegister(r, reg) == v
    ensures forall other :: other != reg ==> ReadRegister(r, other) == ReadRegister(c, other)
    ensures r.status == c.status && r.programCounter == c.programCounter && r.memory == c.memory
  {
    match reg
    case A => c.(registerA := v)
    case X => c.(registerX := v)
    case Y => c.(registerY := v)
  }

  /** Everything of `r` except `reg` and the status byte equals `c`. */
  predicate OnlyRegisterAndStatus(c: CPU, r: CPU, reg: Register)
  {
    r == WriteRegister(c, reg, ReadRegister(r, reg)).(status := r.status)
  }

  /** `r` fails exactly when the operand read `s` fails, with its error. */
  predicate SameOutcome<T, U>(r: Result<T>, s: Result<U>)
  {
    match r
    case Ok(_) => s.Ok?
    case Err(e) => s == Err(e)
  }

  // ----- LDA, LDX, LDY -----

  /** Loading the byte `v` into `reg`: Zero and Negative follow `v`, nothing
      but `reg` and the status changes. */
  function LoadWith(c: CPU, reg: Register, v: bv8): (r: CPU)
    ensures ReadRegister(r, reg) == v
    ensures ZeroNegativeFrom(c.status, r.status, v)
    ensures OnlyRegisterAndStatus(c, r, reg)
  {
    WriteRegister(c, reg, v).(status := UpdateZeroAndNegativeFlags(c.status, v))
  }

  /** A load does not look at the program counter. */
  lemma LoadWithIgnoresPc(c: CPU, reg: Register, v: bv8, p: Word)
    ensures LoadWith(c.(programCounter := p), reg, v) == LoadWith(c, reg, v).(programCounter := p)
  {
  }

  /** LDA, LDX and LDY: read the operand and load it. */
  function LoadRegister(c: CPU, mode: AddressingMode, reg: Register): (r: Result<CPU>)
    ensures SameOutcome(r, GetOperandValue(c, mode))
    ensures r.Ok? ==> r.value == LoadWith(c, reg, GetOperandValue(c, mode).value)
  {
    var v := GetOperandValue(c, mode);
    if v.Err? then Err(v.error) else Ok(LoadWith(c, reg, v.value))
  }

  /** A load in Immediate mode takes the byte at the program counter. */
  lemma LoadImmediate(c: CPU, reg: Register)
    requires c.programCounter < MEM_SIZE
    ensures LoadRegister(c, Immediate, reg) == Ok(LoadWith(c, reg, c.memory[c.programCounter]))
  {
    ImmediateReadsOperand(c);
  }

  // ----- AND -----

  /** Bit `k` of `v` is one. */
  predicate BitSet(v: bv8, k: bv8)
    requires k < 8
  {
    (v >> k) & 1 == 1
  }

  /** A bitwise AND keeps exactly the bits both arguments have. */
  lemma AndKeepsCommonBits(a: bv8, m: bv8, k: bv8)
    requires k < 8
    ensures BitSet(a & m, k) <==> BitSet(a, k) && BitSet(m, k)
  {
  }

  /** AND of A with the byte `m`: A keeps exactly the bits it shares with
      `m`; Zero and Negative follow the new A. */
  function AndWith(c: CPU, m: bv8): (r: CPU)
    ensures forall k: bv8 :: k < 8 ==> (BitSet(r.registerA, k) <==> BitSet(c.registerA, k) && BitSet(m, k))
    ensures ZeroNegativeFrom(c.status, r.status, r.registerA)
    ensures OnlyRegisterAndStatus(c, r, A)
  {
    forall k: bv8 | k < 8
      ensures BitSet(c.registerA & m, k) <==> BitSet(c.registerA, k) && BitSet(m, k)
    {
      AndKeepsCommonBits(c.registerA, m, k);
    }
    c.(registerA := c.registerA & m, status := UpdateZeroAndNegativeFlags(c.status, c.registerA & m))
  }

  /** AND: read the operand and combine it with A. */
  function And(c: CPU, mode: AddressingMode): (r: Result<CPU>)
    ensures SameOutcome(r, GetOperandValue(c, mode))
    ensures r.Ok? ==> r.value == AndWith(c, GetOperandValue(c, mode).value)
  {
    var v := GetOperandValue(c, mode);
    if v.Err? then Err(v.error) else Ok(AndWith(c, v.value))
  }

  /** Applying AND twice with an operand that does not live in A leaves A as
      the first application left it. */
  lemma AndIsIdempotent(c: CPU, mode: AddressingMode)
    requires mode != Accumulator && And(c, mode).Ok?
    ensures And(And(c, mode).value, mode).Ok?
    ensures And(And(c, mode).value, mode).value.registerA == And(c, mode).value.registerA
  {
    var c1 := And(c, mode).value;
    ResolverIgnoresAccumulatorAndStatus(c, c1.registerA, c1.status, mode);
    assert c1 == c.(registerA := c1.registerA, status := c1.status);
  }

  // ----- TAX, INX -----

  /** TAX: copy A into X and set Zero and Negative from it. */
  function Tax(c: CPU): (r: CPU)
    ensures r.registerX == c.registerA
    ensures ZeroNegativeFrom(c.status, r.status, r.registerX)
    ensures OnlyRegisterAndStatus(c, r, X)
  {
    c.(registerX := c.registerA, status := UpdateZeroAndNegativeFlags(c.status, c.registerA))
  }

  /** TAX does not look at the program counter. */
  lemma TaxIgnoresPc(c: CPU, p: Word)
    ensures Tax(c.(programCounter := p)) == Tax(c).(programCounter := p)
  {
  }

  /** Updating Zero and Negative from the same value twice is the same as
      doing it once. */
  lemma ZeroNegativeTwice(status: bv8, v: bv8)
    ensures UpdateZeroAndNegativeFlags(UpdateZeroAndNegativeFlags(status, v), v) == UpdateZeroAndNegativeFlags(status, v)
  {
  }

  /** LDA of `v` followed by TAX leaves `v` in both A and X, with the status
      that loading `v` into X directly would give. */
  lemma LdaThenTax(c: CPU, v: bv8)
    ensures var r := Tax(LoadWith(c, A, v));
      && r.registerA == r.registerX == v
      && r.status == LoadWith(c, X, v).status
  {
    ZeroNegativeTwice(c.status, v);
  }

  /** INX does not look at the program counter. */
  lemma InxIgnoresPc(c: CPU, p: Word)
    ensures Inx(c.(programCounter := p)) == Inx(c).(programCounter := p)
  {
  }

  lemma ByteIncrement(x: bv8)
    ensures (x + 1) as int == (x as int + 1) % 256
  {
  }

  /** INX: X grows by one modulo 256, and Zero and Negative follow it. */
  function Inx(c: CPU): (r: CPU)
    ensures r.registerX as int == (c.registerX as int + 1) % 256
    ensures ZeroNegativeFrom(c.status, r.status, r.registerX)
    ensures OnlyRegisterAndStatus(c, r, X)
  {
    ByteIncrement(c.registerX);
    c.(registerX := c.registerX + 1, status := UpdateZeroAndNegativeFlags(c.status, c.registerX + 1))
  }

  /** INX at X = 0xFF wraps to zero and raises Zero, clearing Negative. */
  lemma InxWraps(c: CPU)
    requires c.registerX == 0xFF
    ensures Inx(c).registerX == 0
    ensures IsFlagSet(Inx(c).status, Zero) && !IsFlagSet(Inx(c).status, Negative)
  {
  }

  /** The X values INX sends to zero and to the negative half. */
  lemma InxFlags(c: CPU)
    ensures IsFlagSet(Inx(c).status, Zero) <==> c.registerX == 0xFF
    ensures IsFlagSet(Inx(c).status, Negative) <==> 0x7F <= c.registerX < 0xFF
  {
  }

  // ----- STA -----

  /** STA: write A to the operand's address; nothing else changes. */
  function Sta(c: CPU, mode: AddressingMode): (r: Result<CPU>)
    ensures r.Ok? <==> GetOperandAddress(c, mode).Ok? && GetOperandAddress(c, mode).value < MEM_SIZE
    ensures r.Err? && GetOperandAddress(c, mode).Err? ==> r.error == GetOperandAddress(c, mode).error
    ensures r.Err? && GetOperandAddress(c, mode).Ok? ==> r.error == AddressOutOfRange(GetOperandAddress(c, mode).value)
    ensures r.Ok? ==> r.value == c.(memory := r.value.memory)
    ensures r.Ok? ==> r.value.memory[GetOperandAddress(c, mode).value] == c.registerA
    ensures r.Ok? ==> forall i :: 0 <= i < MEM_SIZE && i != GetOperandAddress(c, mode).value ==>
      r.value.memory[i] == c.memory[i]
  {
    match GetOperandAddress(c, mode)
    case Err(e) => Err(e)
    case Ok(addr) =>
      match MemWrite(c.memory, addr, c.registerA)
      case Err(e) => Err(e)
      case Ok(mem) => Ok(c.(memory := mem))
  }

  /** STA followed by a load through the same mode reads back A, provided the
      store did not overwrite the bytes the address is computed from. */
  lemma StaThenLoad(c: CPU, mode: AddressingMode, reg: Register)
    requires Sta(c, mode).Ok?
    requires GetOperandAddress(Sta(c, mode).value, mode) == GetOperandAddress(c, mode)
    ensures LoadRegister(Sta(c, mode).value, mode, reg).Ok?
    ensures ReadRegister(LoadRegister(Sta(c, mode).value, mode, reg).value, reg) == c.registerA
  {
  }

  /** STA has no address in the modes without one. */
  lemma StaNeedsAddress(c: CPU)
    ensures Sta(c, Implicit) == Err(NoAddress(Implicit))
    ensures Sta(c, Accumulator) == Err(NoAddress(Accumulator))
  {
  }

  // ----- ASL -----

  /** The status after ASL of `operand` giving `result`: Carry is the bit
      shifted out, Zero and Negative follow the result, Overflow and the
      unnamed bits stay. */
  predicate AslStatus(before: bv8, after: bv8, operand: bv8, result: bv8)
  {
    && (IsFlagSet(after, Carry) <==> operand >= 0x80)
    && (IsFlagSet(after, Zero) <==> result == 0)
    && (IsFlagSet(after, Negative) <==> result >= 0x80)
    && after & 0x7C == before & 0x7C
  }

  /** ASL of `v` gives `result`: the carried-out bit followed by the result
      byte is twice `v`. */
  predicate AslResult(before: bv8, after: bv8, v: bv8, result: bv8)
  {
    && (if IsFlagSet(after, Carry) then 0x100 else 0) | result as bv16 == (v as bv16) << 1
    && AslStatus(before, after, v, result)
  }

  /** The status update ASL performs.  The carry is bit 7 of the operand,
      written as a comparison: `Util.GetBitSevenIsSign` shows it is the bit
      `get_bit_at(operand, 7)` reads. */
  function AslFlags(status: bv8, v: bv8): bv8
  {
    UpdateZeroAndNegativeFlags(UpdateCarryFlag(status, v >= 0x80), v << 1)
  }

  /** ASL's flags describe the shift of `v`: the carried-out bit and the
      result byte together are twice `v`. */
  lemma AslFlagsShift(status: bv8, v: bv8)
    ensures AslResult(status, AslFlags(status, v), v, v << 1)
  {
  }

  /** ASL on A leaves the shifted value in A; only A and the status change. */
  predicate AslInAccumulator(c: CPU, r: CPU)
  {
    && AslResult(c.status, r.status, c.registerA, r.registerA)
    && r.programCounter == c.programCounter && r.memory == c.memory
    && r.registerX == c.registerX && r.registerY == c.registerY
  }

  /** ASL on the byte at `addr` leaves the shifted value there; only that byte
      and the status change. */
  predicate AslInMemory(c: CPU, r: CPU, addr: Word)
    requires addr < MEM_SIZE
  {
    && AslResult(c.status, r.status, c.memory[addr], r.memory[addr])
    && r == c.(memory := c.memory[addr := r.memory[addr]], status := r.status)
  }

  /** ASL in Accumulator mode. */
  function AslOnAccumulator(c: CPU): CPU
  {
    c.(registerA := c.registerA << 1, status := AslFlags(c.status, c.registerA))
  }

  /** ASL in Accumulator mode shifts A and changes nothing but A and the status. */
  lemma AslOnAccumulatorShifts(c: CPU)
    ensures AslInAccumulator(c, AslOnAccumulator(c))
  {
    AslFlagsShift(c.status, c.registerA);
  }

  /** ASL of A does not look at the program counter. */
  lemma AslOnAccumulatorIgnoresPc(c: CPU, p: Word)
    ensures AslOnAccumulator(c.(programCounter := p)) == AslOnAccumulator(c).(programCounter := p)
  {
  }

  /** ASL of the byte at `addr`, written back to `addr`.  The original
      resolves the address a second time, after the status update; the
      status takes no part in resolving it (`Addressing.ResolverIgnoresStatus`),
      so that is the address resolved before. */
  function AslAt(c: CPU, addr: Word): CPU
    requires addr < MEM_SIZE
  {
    var v := c.memory[addr];
    c.(memory := c.memory[addr := v << 1], status := AslFlags(c.status, v))
  }

  /** ASL of the byte at `addr` shifts that byte and changes nothing but it
      and the status. */
  lemma AslAtShifts(c: CPU, addr: Word)
    requires addr < MEM_SIZE
    ensures AslInMemory(c, AslAt(c, addr), addr)
  {
    AslFlagsShift(c.status, c.memory[addr]);
  }

  /** ASL: read the operand, then shift A or the byte at its address. */
  function Asl(c: CPU, mode: AddressingMode): (r: Result<CPU>)
    ensures SameOutcome(r, GetOperandValue(c, mode))
    ensures r.Ok? && mode == Accumulator ==> r.value == AslOnAccumulator(c)
    ensures r.Ok? && mode != Accumulator ==> r.value == AslAt(c, GetOperandAddress(c, mode).value)
  {
    if mode.Accumulator? then Ok(AslOnAccumulator(c))
    else
      var addr :- GetOperandAddress(c, mode);
      if addr >= MEM_SIZE then Err(AddressOutOfRange(addr)) else Ok(AslAt(c, addr))
  }

  /** In Accumulator mode ASL cannot fail: it always shifts A. */
  lemma AslAccumulatorSucceeds(c: CPU)
    ensures Asl(c, Accumulator) == Ok(AslOnAccumulator(c))
  {
  }

  /** ASL of 0x80 in A leaves zero with Carry and Zero raised. */
  lemma AslShiftsOutTopBit(c: CPU)
    requires c.registerA == 0x80
    ensures Asl(c, Accumulator).Ok?
    ensures Asl(c, Accumulator).value.registerA == 0
    ensures IsFlagSet(Asl(c, Accumulator).value.status, Carry)
    ensures IsFlagSet(Asl(c, Accumulator).value.status, Zero)
  {
  }

  // ----- BIT -----

  /** The status after BIT: Zero says whether A and the operand share no bit,
      Overflow and Negative copy bits 6 and 7 of the operand, the rest stays. */
  predicate BitStatus(before: bv8, after: bv8, a: bv8, m: bv8)
  {
    && (IsFlagSet(after, Zero) <==> a & m == 0)
    && (IsFlagSet(after, Overflow) <==> m & 0x40 != 0)
    && (IsFlagSet(after, Negative) <==> m >= 0x80)
    && after & 0x3D == before & 0x3D
  }

  /** The status update BIT performs, reading bits 6 and 7 of the operand
      with `get_bit_at`. */
  function BitFlags(status: bv8, a: bv8, m: bv8): bv8
  {
    var s1 := UpdateZeroFlag(status, a & m);
    var s2 := UpdateFlag(s1, Overflow, Util.GetBitAt(m, 6).value);
    UpdateFlag(s2, Negative, Util.GetBitAt(m, 7).value)
  }

  /** Reading bits 6 and 7 with `get_bit_at` copies them into Overflow and
      Negative; Zero is set from A AND the operand; nothing else changes. */
  lemma BitFlagsStatus(status: bv8, a: bv8, m: bv8)
    ensures BitStatus(status, BitFlags(status, a, m), a, m)
  {
    Util.GetBitSixIsMask(m);
    Util.GetBitSevenIsSign(m);
  }

  /** BIT against the byte `m`: only the status changes. */
  function BitWith(c: CPU, m: bv8): (r: CPU)
    ensures r == c.(status := r.status)
    ensures BitStatus(c.status, r.status, c.registerA, m)
  {
    BitFlagsStatus(c.status, c.registerA, m);
    c.(status := BitFlags(c.status, c.registerA, m))
  }

  /** BIT: read the operand and test A against it. */
  function Bit(c: CPU, mode: AddressingMode): (r: Result<CPU>)
    ensures SameOutcome(r, GetOperandValue(c, mode))
    ensures r.Ok? ==> r.value == BitWith(c, GetOperandValue(c, mode).value)
  {
    var v := GetOperandValue(c, mode);
    if v.Err? then Err(v.error) else Ok(BitWith(c, v.value))
  }

  /** BIT with A = 0xFF raises Zero exactly for a zero operand. */
  lemma BitWithFullMask(c: CPU, m: bv8)
    requires c.registerA == 0xFF
    ensures IsFlagSet(BitWith(c, m).status, Zero) <==> m == 0
  {
  }

  // ----- BCC, BCS, BEQ -----

  /** Jump to the relative target: the operand byte at the program counter
      is handed to `offset` together with the program counter. */
  function Branch(c: CPU, offset: (Word, bv8) -> Word): (r: Result<CPU>)
    ensures r.Ok? <==> c.programCounter < MEM_SIZE
    ensures r.Err? ==> r.error == AddressOutOfRange(c.programCounter)
    ensures r.Ok? ==> r.value == c.(programCounter := offset(c.programCounter, c.memory[c.programCounter]))
  {
    match GetOperandValue(c, Relative)
    case Err(e) => Err(e)
    case Ok(operand) => Ok(c.(programCounter := offset(c.programCounter, operand)))
  }

  /** A conditional branch: taken exactly when `taken` holds; otherwise
      the machine is left as it is. */
  function BranchIf(c: CPU, offset: (Word, bv8) -> Word, taken: bool): (r: Result<CPU>)
    ensures !taken ==> r == Ok(c)
    ensures taken ==> r == Branch(c, offset)
    ensures r.Ok? ==> r.value == c.(programCounter := r.value.programCounter)
  {
    if taken then Branch(c, offset) else Ok(c)
  }

  /** BCC: branch when Carry is clear. */
  function Bcc(c: CPU, offset: (Word, bv8) -> Word): (r: Result<CPU>)
    ensures IsFlagSet(c.status, Carry) ==> r == Ok(c)
    ensures !IsFlagSet(c.status, Carry) ==> r == Branch(c, offset)
  {
    BranchIf(c, offset, !IsFlagSet(c.status, Carry))
  }

  /** BCS: branch when Carry is set. */
  function Bcs(c: CPU, offset: (Word, bv8) -> Word): (r: Result<CPU>)
    ensures !IsFlagSet(c.status, Carry) ==> r == Ok(c)
    ensures IsFlagSet(c.status, Carry) ==> r == Branch(c, offset)
  {
    BranchIf(c, offset, IsFlagSet(c.status, Carry))
  }

  /** BEQ: branch when Zero is set. */
  function Beq(c: CPU, offset: (Word, bv8) -> Word): (r: Result<CPU>)
    ensures !IsFlagSet(c.status, Zero) ==> r == Ok(c)
    ensures IsFlagSet(c.status, Zero) ==> r == Branch(c, offset)
  {
    BranchIf(c, offset, IsFlagSet(c.status, Zero))
  }

  /** BCC and BCS are complementary: in every state one of them leaves the
      machine untouched and the other one branches. */
  lemma BccBcsComplementary(c: CPU, offset: (Word, bv8) -> Word)
    ensures {Bcc(c, offset), Bcs(c, offset)} == {Ok(c), Branch(c, offset)}
  {
  }
}

// The fetch-decode-execute loop of `CPU::run`, split into a single step and
// a fuel-bounded run, and `load_and_run` on top of it.
//
// The step reads the opcode at the program counter, moves the program
// counter past it, looks the opcode up in an instruction table (a miss is
// an error), dispatches on the opcode, and finally skips the operand bytes
// unless the instruction moved the program counter itself.  The table is a
// parameter, so the step can be studied with the table the source declares
// and with one that also describes the opcodes the dispatch handles.

module Engine {
  import opened AddressingModes
  import opened Results
  import opened StatusFlags
  import opened Memory
  import opened Cpu
  import opened Instructions
  import opened InstructionSet
  import opened Handlers
  import Addressing

  /** `util::get_address_from_offset`: the branch target for a program
      counter (pointing at the offset byte) and the offset byte.  Its body is
      not part of this model, so every definition below takes it as a
      parameter. */
  type Offset = (Word, bv8) -> Word

  const BRK: bv8 := 0x00
  const BCC: bv8 := 0x90
  const BCS: bv8 := 0xB0
  const BEQ: bv8 := 0xF0
  /** The opcodes of the AND arm. */
  predicate IsAnd(op: bv8)
  {
    match op
    case 0x29 | 0x25 | 0x35 | 0x2D | 0x3D | 0x39 | 0x21 | 0x31 => true
    case _ => false
  }

  /** The opcodes of the ASL arm. */
  predicate IsAsl(op: bv8)
  {
    match op
    case 0x0A | 0x06 | 0x16 | 0x0E | 0x1E => true
    case _ => false
  }

  /** The opcodes of the BIT arm. */
  predicate IsBit(op: bv8)
  {
    op == 0x24 || op == 0x2C
  }

  /** The opcodes of the three branch arms. */
  predicate IsBranch(op: bv8)
  {
    op == BCC || op == BCS || op == BEQ
  }

  /** The opcodes with a dispatch arm other than BRK's. */
  predicate Dispatched(op: bv8)
  {
    match op
    case 0x29 | 0x25 | 0x35 | 0x2D | 0x3D | 0x39 | 0x21 | 0x31 => true
    case 0x0A | 0x06 | 0x16 | 0x0E | 0x1E => true
    case 0x90 | 0xB0 | 0xF0 | 0x24 | 0x2C => true
    case 0xA9 | 0xA2 | 0xA0 | 0x85 | 0xAA | 0xE8 => true
    case _ => false
  }

  /** The arms of the `match opcode` of `run`, BRK's aside. */
  datatype Arm =
    | AndArm | AslArm | BccArm | BcsArm | BeqArm | BitArm
    | LdaArm | LdxArm | LdyArm | StaArm | TaxArm | InxArm
    /** The `todo!()` arm. */
    | NoArm

  /** The arm an opcode is matched to. */
  function ArmOf(op: bv8): (arm: Arm)
    ensures arm == AndArm <==> IsAnd(op)
    ensures arm == AslArm <==> IsAsl(op)
    ensures arm == BitArm <==> IsBit(op)
    ensures arm in {BccArm, BcsArm, BeqArm} <==> IsBranch(op)
    ensures arm == NoArm <==> !Dispatched(op)
  {
    match op
    case 0x29 | 0x25 | 0x35 | 0x2D | 0x3D | 0x39 | 0x21 | 0x31 => AndArm
    case 0x0A | 0x06 | 0x16 | 0x0E | 0x1E => AslArm
    case 0x90 => BccArm
    case 0xB0 => BcsArm
    case 0xF0 => BeqArm
    case 0x24 | 0x2C => BitArm
    case 0xA9 => LdaArm
    case 0xA2 => LdxArm
    case 0xA0 => LdyArm
    case 0x85 => StaArm
    case 0xAA => TaxArm
    case 0xE8 => InxArm
    case _ => NoArm
  }

  /** The body of one arm applied to the state after the fetch: each arm
      runs the handler of its instruction with the table's addressing mode,
      and only the `todo!()` arm has no outcome. */
  function RunArm(arm: Arm, c: CPU, mode: AddressingMode, offset: Offset): (r: Option<Result<CPU>>)
    ensures r.None? <==> arm == NoArm
    ensures arm == AndArm ==> r == Some(And(c, mode))
    ensures arm == AslArm ==> r == Some(Asl(c, mode))
    ensures arm == BccArm ==> r == Some(Bcc(c, offset))
    ensures arm == BcsArm ==> r == Some(Bcs(c, offset))
    ensures arm == BeqArm ==> r == Some(Beq(c, offset))
    ensures arm == BitArm ==> r == Some(Bit(c, mode))
    ensures arm == LdaArm ==> r == Some(LoadRegister(c, mode, A))
    ensures arm == LdxArm ==> r == Some(LoadRegister(c, mode, X))
    ensures arm == LdyArm ==> r == Some(LoadRegister(c, mode, Y))
    ensures arm == StaArm ==> r == Some(Sta(c, mode))
    ensures arm == TaxArm ==> r == Some(Ok(Tax(c)))
    ensures arm == InxArm ==> r == Some(Ok(Inx(c)))
  {
    match arm
    case AndArm => Some(And(c, mode))
    case AslArm => Some(Asl(c, mode))
    case BccArm => Some(Bcc(c, offset))
    case BcsArm => Some(Bcs(c, offset))
    case BeqArm => Some(Beq(c, offset))
    case BitArm => Some(Bit(c, mode))
    case LdaArm => Some(LoadRegister(c, mode, A))
    case LdxArm => Some(LoadRegister(c, mode, X))
    case LdyArm => Some(LoadRegister(c, mode, Y))
    case StaArm => Some(Sta(c, mode))
    case TaxArm => Some(Ok(Tax(c)))
    case InxArm => Some(Ok(Inx(c)))
    case NoArm => None
  }

  /** The dispatch of `run`: the handler of `opcode` applied to the state
      after the fetch, or None for the `todo!()` arm. */
  function Execute(c: CPU, opcode: bv8, mode: AddressingMode, offset: Offset): (r: Option<Result<CPU>>)
    ensures r.Some? <==> Dispatched(opcode)
  {
    RunArm(ArmOf(opcode), c, mode, offset)
  }

  /** Only the branches move the program counter; every other handler
      leaves it where the fetch put it. */
  lemma ExecuteKeepsPc(c: CPU, opcode: bv8, mode: AddressingMode, offset: Offset)
    requires Dispatched(opcode) && !IsBranch(opcode)
    requires Execute(c, opcode, mode, offset).value.Ok?
    ensures Execute(c, opcode, mode, offset).value.value.programCounter == c.programCounter
  {
  }

  /** Only STA and ASL write memory; and ASL only outside Accumulator mode. */
  lemma ExecuteKeepsMemory(c: CPU, opcode: bv8, mode: AddressingMode, offset: Offset)
    requires Dispatched(opcode) && opcode != 0x85
    requires IsAsl(opcode) ==> mode == Accumulator
    requires Execute(c, opcode, mode, offset).value.Ok?
    ensures Execute(c, opcode, mode, offset).value.value.memory == c.memory
  {
  }

  /** The rule at the end of the loop body: when the instruction left the
      program counter at `fetched`, its `length - 1` operand bytes are
      skipped with an unwrapped 16-bit addition. */
  function Advance(c: CPU, fetched: Word, instr: Instruction): (r: Result<CPU>)
    ensures c.programCounter != fetched ==> r == Ok(c)
    ensures r.Ok? ==> r.value == c.(programCounter := r.value.programCounter)
    ensures c.programCounter == fetched && r.Ok? ==>
      r.value.programCounter + 1 == fetched + instr.length
    ensures c.programCounter == fetched ==>
      (r.Ok? <==> 1 <= instr.length && fetched + instr.length - 1 <= 0xFFFF)
  {
    if c.programCounter != fetched then Ok(c)
    else
      var skip := OperandByteCount(instr);
      if skip.Err? then Err(skip.error)
      else if fetched + skip.value > 0xFFFF then Err(PcOverflow(fetched, skip.value))
      else Ok(c.(programCounter := fetched + skip.value))
  }

  /** What one pass of the loop body does. */
  datatype StepResult =
    /** The instruction completed and the loop goes on. */
    | Continue(cpu: CPU)
    /** BRK: `run` returns, with the program counter past the BRK byte. */
    | Halted(cpu: CPU)
    /** The source panics. */
    | Failed(error: Error)

  /** A dispatch: what the `match opcode` of `run` does with the state after
      the fetch, the opcode and the addressing mode of its table entry; None
      is the `todo!()` arm. */
  type Dispatch = (CPU, bv8, AddressingMode) -> Option<Result<CPU>>

  /** The dispatch of `run`, with `offset` as the branch-target helper. */
  function Dispatcher(offset: Offset): Dispatch
  {
    (c: CPU, opcode: bv8, mode: AddressingMode) => Execute(c, opcode, mode, offset)
  }

  /** Applying the dispatch of `run` is calling `Execute`. */
  lemma DispatcherApplies(offset: Offset, c: CPU, opcode: bv8, mode: AddressingMode)
    ensures Dispatcher(offset)(c, opcode, mode) == Execute(c, opcode, mode, offset)
  {
  }

  /** One pass of the loop body of `run`, around the dispatch `exec`.  Only
      the fetch, the table lookup and BRK are decided before the dispatch. */
  function StepWith(table: seq<Instruction>, exec: Dispatch, c: CPU): (r: StepResult)
    ensures c.programCounter >= MEM_SIZE ==> r == Failed(AddressOutOfRange(c.programCounter))
    ensures c.programCounter < MEM_SIZE && Decode(table, c.memory[c.programCounter]).None? ==>
      r == Failed(UnknownOpcode(c.memory[c.programCounter], c.programCounter))
    ensures r.Halted? <==>
      c.programCounter < MEM_SIZE && c.memory[c.programCounter] == BRK && Decode(table, BRK).Some?
    ensures r.Halted? ==> r.cpu == c.(programCounter := c.programCounter + 1)
  {
    var fetch := MemRead(c.memory, c.programCounter);
    if fetch.Err? then Failed(fetch.error)
    else
      var opcode := fetch.value;
      var fetched := c.(programCounter := c.programCounter + 1);
      var decoded := Decode(table, opcode);
      if decoded.None? then Failed(UnknownOpcode(opcode, c.programCounter))
      else if opcode == BRK then Halted(fetched)
      else
        var executed := exec(fetched, opcode, decoded.value.mode);
        if executed.None? then Failed(Unimplemented(opcode))
        else if executed.value.Err? then Failed(executed.value.error)
        else
          var advanced := Advance(executed.value.value, fetched.programCounter, decoded.value);
          if advanced.Err? then Failed(advanced.error) else Continue(advanced.value)
  }

  /** One pass of the loop body of `run`. */
  function Step(table: seq<Instruction>, offset: Offset, c: CPU): StepResult
  {
    StepWith(table, Dispatcher(offset), c)
  }

  /** A dispatched opcode whose handler fails ends the step with that
      failure. */
  lemma StepReportsHandlerFailure(table: seq<Instruction>, offset: Offset, c: CPU, instr: Instruction, err: Error)
    requires c.programCounter < MEM_SIZE
    requires Decode(table, c.memory[c.programCounter]) == Some(instr) && instr.opcode != BRK
    requires Execute(c.(programCounter := c.programCounter + 1), instr.opcode, instr.mode, offset) == Some(Err(err))
    ensures Step(table, offset, c) == Failed(err)
  {
    StepWithFails(table, Dispatcher(offset), c, instr, err);
  }

  /** The same for any dispatch. */
  lemma StepWithFails(table: seq<Instruction>, exec: Dispatch, c: CPU, instr: Instruction, err: Error)
    requires c.programCounter < MEM_SIZE && c.memory[c.programCounter] != BRK
    requires Decode(table, c.memory[c.programCounter]) == Some(instr)
    requires exec(c.(programCounter := c.programCounter + 1), c.memory[c.programCounter], instr.mode) == Some(Err(err))
    ensures StepWith(table, exec, c) == Failed(err)
  {
  }

  /** A decoded opcode without a dispatch arm is `todo!()`. */
  lemma StepUnimplemented(table: seq<Instruction>, offset: Offset, c: CPU, instr: Instruction)
    requires c.programCounter < MEM_SIZE
    requires Decode(table, c.memory[c.programCounter]) == Some(instr) && instr.opcode != BRK
    requires !Dispatched(instr.opcode)
    ensures Step(table, offset, c) == Failed(Unimplemented(instr.opcode))
  {
  }

  /** Whether the branch `opcode` is taken with the status byte `status`. */
  predicate BranchTaken(opcode: bv8, status: bv8)
  {
    || (opcode == BCC && !IsFlagSet(status, Carry))
    || (opcode == BCS && IsFlagSet(status, Carry))
    || (opcode == BEQ && IsFlagSet(status, Zero))
  }

  /** The dispatch sends each branch opcode to its conditional branch. */
  lemma ExecuteBranch(c: CPU, opcode: bv8, mode: AddressingMode, offset: Offset)
    requires IsBranch(opcode)
    ensures Execute(c, opcode, mode, offset) == Some(BranchIf(c, offset, BranchTaken(opcode, c.status)))
  {
    if opcode == BCC {
      assert ArmOf(opcode) == BccArm;
    } else if opcode == BCS {
      assert ArmOf(opcode) == BcsArm;
    } else {
      assert ArmOf(opcode) == BeqArm;
    }
  }

  /** The dispatch arms the whole-program lemmas go through: 0xA9 loads A,
      0xA2 loads X, 0xAA is TAX, 0xE8 is INX and 0x0A is ASL. */
  lemma ExecuteLda(c: CPU, mode: AddressingMode, offset: Offset)
    ensures Execute(c, 0xA9, mode, offset) == Some(LoadRegister(c, mode, A))
  {
  }

  lemma ExecuteLdx(c: CPU, mode: AddressingMode, offset: Offset)
    ensures Execute(c, 0xA2, mode, offset) == Some(LoadRegister(c, mode, X))
  {
  }

  lemma ExecuteTax(c: CPU, mode: AddressingMode, offset: Offset)
    ensures Execute(c, 0xAA, mode, offset) == Some(Ok(Tax(c)))
  {
  }

  lemma ExecuteInx(c: CPU, mode: AddressingMode, offset: Offset)
    ensures Execute(c, 0xE8, mode, offset) == Some(Ok(Inx(c)))
  {
  }

  lemma ExecuteAsl(c: CPU, opcode: bv8, mode: AddressingMode, offset: Offset)
    requires IsAsl(opcode)
    ensures Execute(c, opcode, mode, offset) == Some(Asl(c, mode))
  {
    assert ArmOf(opcode) == AslArm;
  }

  /** ASL A cannot fail: its arm always shifts A. */
  lemma ExecuteAslAccumulator(c: CPU, offset: Offset)
    ensures Execute(c, 0x0A, Accumulator, offset) == Some(Ok(AslOnAccumulator(c)))
  {
    ExecuteAsl(c, 0x0A, Accumulator, offset);
    AslAccumulatorSucceeds(c);
  }

  /** The dispatch of `run` sends 0x0A in Accumulator mode to the shift of
      A, whatever the program counter. */
  lemma DispatchAslAccumulator(offset: Offset, c: CPU, p: Word)
    ensures Dispatcher(offset)(c.(programCounter := p), 0x0A, Accumulator) ==
      Some(Ok(AslOnAccumulator(c).(programCounter := p)))
  {
    var f := c.(programCounter := p);
    DispatcherApplies(offset, f, 0x0A, Accumulator);
    ExecuteAslAccumulator(f, offset);
    AslOnAccumulatorIgnoresPc(c, p);
  }

  /** LDA #imm loads the operand byte at the program counter. */
  lemma ExecuteLdaImmediate(c: CPU, offset: Offset)
    requires c.programCounter < MEM_SIZE
    ensures Execute(c, 0xA9, Immediate, offset) == Some(Ok(LoadWith(c, A, c.memory[c.programCounter])))
  {
    ExecuteLda(c, Immediate, offset);
    Addressing.ImmediateReadsOperand(c);
  }

  /** LDX #imm loads the operand byte at the program counter. */
  lemma ExecuteLdxImmediate(c: CPU, offset: Offset)
    requires c.programCounter < MEM_SIZE
    ensures Execute(c, 0xA2, Immediate, offset) == Some(Ok(LoadWith(c, X, c.memory[c.programCounter])))
  {
    ExecuteLdx(c, Immediate, offset);
    Addressing.ImmediateReadsOperand(c);
  }

  /** A decoded opcode other than BRK whose dispatch succeeds with `e` ends
      the step with the program-counter rule applied to `e`. */
  lemma StepWithExecutes(table: seq<Instruction>, exec: Dispatch, c: CPU, instr: Instruction, e: CPU)
    requires c.programCounter < MEM_SIZE && c.memory[c.programCounter] != BRK
    requires Decode(table, c.memory[c.programCounter]) == Some(instr)
    requires exec(c.(programCounter := c.programCounter + 1), c.memory[c.programCounter], instr.mode) == Some(Ok(e))
    ensures Advance(e, c.programCounter + 1, instr).Ok? ==>
      StepWith(table, exec, c) == Continue(Advance(e, c.programCounter + 1, instr).value)
    ensures Advance(e, c.programCounter + 1, instr).Err? ==>
      StepWith(table, exec, c) == Failed(Advance(e, c.programCounter + 1, instr).error)
  {
  }

  /** The same for the dispatch of `run`. */
  lemma StepExecutes(table: seq<Instruction>, offset: Offset, c: CPU, instr: Instruction, e: CPU)
    requires c.programCounter < MEM_SIZE
    requires Decode(table, c.memory[c.programCounter]) == Some(instr)
    requires Execute(c.(programCounter := c.programCounter + 1), instr.opcode, instr.mode, offset) == Some(Ok(e))
    ensures Advance(e, c.programCounter + 1, instr).Ok? ==>
      Step(table, offset, c) == Continue(Advance(e, c.programCounter + 1, instr).value)
    ensures Advance(e, c.programCounter + 1, instr).Err? ==>
      Step(table, offset, c) == Failed(Advance(e, c.programCounter + 1, instr).error)
  {
    StepWithExecutes(table, Dispatcher(offset), c, instr, e);
  }

  /** A non-branch instruction of table length `L` fetched at `p` ends at
      `p + L`, with the handler's effect; the step fails only when that
      addition leaves the 16-bit range or `L` is 0. */
  lemma StepSkipsOperands(table: seq<Instruction>, offset: Offset, c: CPU, instr: Instruction)
    requires c.programCounter < MEM_SIZE
    requires Decode(table, c.memory[c.programCounter]) == Some(instr)
    requires Dispatched(instr.opcode) && !IsBranch(instr.opcode)
    requires Execute(c.(programCounter := c.programCounter + 1), instr.opcode, instr.mode, offset).value.Ok?
    ensures Step(table, offset, c).Continue? <==>
      1 <= instr.length && c.programCounter + instr.length <= 0xFFFF
    ensures Step(table, offset, c).Continue? ==>
      Step(table, offset, c).cpu ==
        Execute(c.(programCounter := c.programCounter + 1), instr.opcode, instr.mode, offset).value.value.(programCounter := c.programCounter + instr.length)
  {
    ExecuteKeepsPc(c.(programCounter := c.programCounter + 1), instr.opcode, instr.mode, offset);
    StepExecutes(table, offset, c, instr, Execute(c.(programCounter := c.programCounter + 1), instr.opcode, instr.mode, offset).value.value);
  }

  /** A branch at `p` with table length `L`: not taken, it skips its operand
      like any instruction; taken, it goes to the target that `offset`
      computes from `p + 1` and the offset byte, except that a target equal
      to `p + 1` looks like an untouched program counter and still gets
      `L - 1` added. */
  lemma StepBranch(table: seq<Instruction>, offset: Offset, c: CPU, instr: Instruction)
    requires c.programCounter < MEM_SIZE
    requires Decode(table, c.memory[c.programCounter]) == Some(instr)
    requires IsBranch(instr.opcode)
    requires 1 <= instr.length && c.programCounter + instr.length <= 0xFFFF
    ensures !BranchTaken(instr.opcode, c.status) ==>
      Step(table, offset, c) == Continue(c.(programCounter := c.programCounter + instr.length))
    ensures BranchTaken(instr.opcode, c.status) && c.programCounter + 1 >= MEM_SIZE ==>
      Step(table, offset, c) == Failed(AddressOutOfRange(c.programCounter + 1))
    ensures BranchTaken(instr.opcode, c.status) && c.programCounter + 1 < MEM_SIZE ==>
      var target := offset(c.programCounter + 1, c.memory[c.programCounter + 1]);
      Step(table, offset, c) ==
        Continue(c.(programCounter := if target == c.programCounter + 1 then c.programCounter + instr.length else target))
  {
    if !BranchTaken(instr.opcode, c.status) {
      StepBranchNotTaken(table, offset, c, instr);
    } else if c.programCounter + 1 < MEM_SIZE {
      StepBranchTaken(table, offset, c, instr);
    } else {
      StepBranchWithoutOperand(table, offset, c, instr);
    }
  }

  /** A branch not taken skips its operand like any instruction. */
  lemma StepBranchNotTaken(table: seq<Instruction>, offset: Offset, c: CPU, instr: Instruction)
    requires c.programCounter < MEM_SIZE
    requires Decode(table, c.memory[c.programCounter]) == Some(instr)
    requires IsBranch(instr.opcode) && !BranchTaken(instr.opcode, c.status)
    requires 1 <= instr.length && c.programCounter + instr.length <= 0xFFFF
    ensures Step(table, offset, c) == Continue(c.(programCounter := c.programCounter + instr.length))
  {
    var f := c.(programCounter := c.programCounter + 1);
    ExecuteBranch(f, instr.opcode, instr.mode, offset);
    StepExecutes(table, offset, c, instr, f);
  }

  /** A branch taken goes to the target `offset` computes, or skips its
      operand when the target equals the fetched program counter. */
  lemma StepBranchTaken(table: seq<Instruction>, offset: Offset, c: CPU, instr: Instruction)
    requires c.programCounter + 1 < MEM_SIZE
    requires Decode(table, c.memory[c.programCounter]) == Some(instr)
    requires IsBranch(instr.opcode) && BranchTaken(instr.opcode, c.status)
    requires 1 <= instr.length && c.programCounter + instr.length <= 0xFFFF
    ensures var target := offset(c.programCounter + 1, c.memory[c.programCounter + 1]);
      Step(table, offset, c) ==
        Continue(c.(programCounter := if target == c.programCounter + 1 then c.programCounter + instr.length else target))
  {
    var f := c.(programCounter := c.programCounter + 1);
    ExecuteBranch(f, instr.opcode, instr.mode, offset);
    var target := offset(f.programCounter, c.memory[f.programCounter]);
    StepExecutes(table, offset, c, instr, f.(programCounter := target));
  }

  /** A branch taken at the last address has no offset byte to read. */
  lemma StepBranchWithoutOperand(table: seq<Instruction>, offset: Offset, c: CPU, instr: Instruction)
    requires c.programCounter < MEM_SIZE <= c.programCounter + 1
    requires Decode(table, c.memory[c.programCounter]) == Some(instr)
    requires IsBranch(instr.opcode) && BranchTaken(instr.opcode, c.status)
    ensures Step(table, offset, c) == Failed(AddressOutOfRange(c.programCounter + 1))
  {
    var f := c.(programCounter := c.programCounter + 1);
    ExecuteBranch(f, instr.opcode, instr.mode, offset);
  }

  /** The opcodes without an arm in the dispatch of `run` other than BRK's. */
  predicate Undeclared(op: bv8)
  {
    IsAsl(op) || IsBranch(op) || IsBit(op)
  }

  /** A dispatched opcode decodes with the extended table. */
  lemma DispatchedDecodesExtended(op: bv8)
    requires Dispatched(op)
    ensures Decode(EXTENDED_INSTRUCTION_SET, op).Some?
  {
    assert ExtendedIndex(op) >= 0;
    DecodeExtendedHit(op);
  }

  /** The declared table misses a dispatched opcode exactly when it is an
      ASL, branch or BIT opcode. */
  lemma DispatchedDecodesDeclared(op: bv8)
    requires Dispatched(op)
    ensures Decode(INSTRUCTION_SET, op).None? <==> Undeclared(op)
  {
    if Undeclared(op) {
      assert DeclaredIndex(op) == -1;
      DecodeDeclaredMiss(op);
    } else {
      assert DeclaredIndex(op) >= 0;
      DecodeDeclaredHit(op);
    }
  }

  /** The dispatch and the tables agree: every opcode the declared table
      registers, except BRK, has a dispatch arm, and every dispatched opcode
      decodes with the extended table. */
  lemma DispatchCoversTables()
    ensures forall i :: 0 <= i < |INSTRUCTION_SET| ==>
      INSTRUCTION_SET[i].opcode == BRK || Dispatched(INSTRUCTION_SET[i].opcode)
    ensures forall op :: Dispatched(op) ==> Decode(EXTENDED_INSTRUCTION_SET, op).Some?
    ensures forall op :: Dispatched(op) ==>
      (Decode(INSTRUCTION_SET, op).None? <==> Undeclared(op))
  {
    DeclaredTableLayout();
    forall op | Dispatched(op)
      ensures Decode(EXTENDED_INSTRUCTION_SET, op).Some?
      ensures Decode(INSTRUCTION_SET, op).None? <==> Undeclared(op)
    {
      DispatchedDecodesExtended(op);
      DispatchedDecodesDeclared(op);
    }
  }

  /** How `run` ends. */
  datatype RunOutcome =
    /** A BRK was executed. */
    | Finished(cpu: CPU)
    /** The source panics with `error`. */
    | Aborted(error: Error)
    /** The fuel ran out before either; the source would go on. */
    | OutOfFuel(cpu: CPU)

  /** The `loop` of `run` around a loop body `step`, for at most `fuel`
      passes. */
  function Loop(step: CPU -> StepResult, c: CPU, fuel: nat): RunOutcome
    decreases fuel
  {
    if fuel == 0 then OutOfFuel(c)
    else match step(c)
      case Halted(d) => Finished(d)
      case Failed(e) => Aborted(e)
      case Continue(d) => Loop(step, d, fuel - 1)
  }

  /** More fuel never changes a loop that has already ended. */
  lemma {:induction false} LoopMoreFuel(step: CPU -> StepResult, c: CPU, fuel: nat, more: nat)
    requires !Loop(step, c, fuel).OutOfFuel?
    ensures Loop(step, c, fuel + more) == Loop(step, c, fuel)
    decreases fuel
  {
    if step(c).Continue? {
      LoopMoreFuel(step, step(c).cpu, fuel - 1, more);
    }
  }

  /** Running for `a + b` passes is running for `a` and then, if the fuel
      ran out, for `b` more from where it stopped. */
  lemma {:induction false} LoopComposes(step: CPU -> StepResult, c: CPU, a: nat, b: nat)
    ensures Loop(step, c, a + b) ==
      (var first := Loop(step, c, a);
       if first.OutOfFuel? then Loop(step, first.cpu, b) else first)
    decreases a
  {
    if a > 0 && step(c).Continue? {
      LoopComposes(step, step(c).cpu, a - 1, b);
    }
  }

  /** A loop can only finish in a state its body halts with. */
  lemma {:induction false} LoopFinishesHalted(step: CPU -> StepResult, done: CPU -> bool, c: CPU, fuel: nat)
    requires forall d :: step(d).Halted? ==> done(step(d).cpu)
    ensures Loop(step, c, fuel).Finished? ==> done(Loop(step, c, fuel).cpu)
    decreases fuel
  {
    if fuel > 0 && step(c).Continue? {
      LoopFinishesHalted(step, done, step(c).cpu, fuel - 1);
    }
  }

  /** `d` is the state just past a BRK byte, with a table that decodes BRK. */
  predicate JustPastBrk(table: seq<Instruction>, d: CPU)
  {
    1 <= d.programCounter <= MEM_SIZE && d.memory[d.programCounter - 1] == BRK
    && Decode(table, BRK).Some?
  }

  /** The loop of `run` around the dispatch `exec`, for at most `fuel`
      passes. A finished run stopped just past a BRK byte of the memory it
      ends with. */
  function RunWith(table: seq<Instruction>, exec: Dispatch, c: CPU, fuel: nat): (r: RunOutcome)
    ensures r.Finished? ==> JustPastBrk(table, r.cpu)
  {
    var step := (d: CPU) => StepWith(table, exec, d);
    assert forall d :: step(d).Halted? ==> JustPastBrk(table, step(d).cpu);
    LoopFinishesHalted(step, d => JustPastBrk(table, d), c, fuel);
    Loop(step, c, fuel)
  }

  /** A run with fuel left takes one step: it goes on from a continued
      step with one pass less, and ends with a halted or failed one. */
  lemma RunWithStep(table: seq<Instruction>, exec: Dispatch, c: CPU, fuel: nat)
    requires fuel >= 1
    ensures StepWith(table, exec, c).Continue? ==>
      RunWith(table, exec, c, fuel) == RunWith(table, exec, StepWith(table, exec, c).cpu, fuel - 1)
    ensures StepWith(table, exec, c).Halted? ==> RunWith(table, exec, c, fuel) == Finished(StepWith(table, exec, c).cpu)
    ensures StepWith(table, exec, c).Failed? ==> RunWith(table, exec, c, fuel) == Aborted(StepWith(table, exec, c).error)
  {
  }

  /** `run`, for at most `fuel` passes of its loop body. */
  function Run(table: seq<Instruction>, offset: Offset, c: CPU, fuel: nat): RunOutcome
  {
    RunWith(table, Dispatcher(offset), c, fuel)
  }

  /** A run with fuel left takes one step: it goes on from a continued
      step with one pass less, and ends with a halted or failed one. */
  lemma RunStep(table: seq<Instruction>, offset: Offset, c: CPU, fuel: nat)
    requires fuel >= 1
    ensures Step(table, offset, c).Continue? ==>
      Run(table, offset, c, fuel) == Run(table, offset, Step(table, offset, c).cpu, fuel - 1)
    ensures Step(table, offset, c).Halted? ==> Run(table, offset, c, fuel) == Finished(Step(table, offset, c).cpu)
    ensures Step(table, offset, c).Failed? ==> Run(table, offset, c, fuel) == Aborted(Step(table, offset, c).error)
  {
    RunWithStep(table, Dispatcher(offset), c, fuel);
  }

  /** An opcode missing from the table stops the run at its fetch. */
  lemma RunUnknownOpcode(table: seq<Instruction>, offset: Offset, c: CPU, fuel: nat)
    requires fuel >= 1 && c.programCounter < MEM_SIZE
    requires Decode(table, c.memory[c.programCounter]).None?
    ensures Run(table, offset, c, fuel) == Aborted(UnknownOpcode(c.memory[c.programCounter], c.programCounter))
  {
    RunStep(table, offset, c, fuel);
  }

  /** More fuel never changes a run that has already ended. */
  lemma RunMoreFuel(table: seq<Instruction>, offset: Offset, c: CPU, fuel: nat, more: nat)
    requires !Run(table, offset, c, fuel).OutOfFuel?
    ensures Run(table, offset, c, fuel + more) == Run(table, offset, c, fuel)
  {
    LoopMoreFuel((d: CPU) => StepWith(table, Dispatcher(offset), d), c, fuel, more);
  }

  /** `load_and_run`: load the program, reset, run. */
  function LoadAndRun(table: seq<Instruction>, offset: Offset, c: CPU, program: seq<bv8>, fuel: nat): (r: RunOutcome)
    ensures PROGRAM_ORIGIN + |program| > MEM_SIZE ==> r == Aborted(ProgramTooLong(|program|))
  {
    var loaded := Load(c, program);
    if loaded.Err? then Aborted(loaded.error) else Run(table, offset, Reset(loaded.value), fuel)
  }

  /** A program that fits is run from 0x8000 with zeroed registers and
      status and the program in place, the reset vector aside. */
  lemma LoadAndRunStart(table: seq<Instruction>, offset: Offset, c: CPU, program: seq<bv8>, fuel: nat)
    requires PROGRAM_ORIGIN + |program| <= MEM_SIZE
    ensures exists s: CPU ::
      && s.programCounter == PROGRAM_ORIGIN
      && s.registerA == 0 && s.registerX == 0 && s.registerY == 0 && s.status == 0
      && ProgramInPlace(s.memory, program)
      && LoadAndRun(table, offset, c, program, fuel) == Run(table, offset, s, fuel)
  {
    LoadThenReset(c, program);
    var s := Reset(Load(c, program).value);
    assert LoadAndRun(table, offset, c, program, fuel) == Run(table, offset, s, fuel);
  }
}

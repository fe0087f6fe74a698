// Whole programs run through `load_and_run`, as the unit tests at the end
// of src/cpu.rs run them: each lemma follows the program step by step and
// states the registers and flags the run ends with.
//
// The step and run lemmas are stated for any instruction table and any
// dispatch: they ask only that the table registers the descriptors the
// program uses and that the dispatch does what the source's arms for those
// opcodes do. The dispatch of `run` meets those demands (the `Dispatcher`
// lemmas below), so one proof covers the declared table and the extended
// one alike.

module Scenarios {
  import opened AddressingModes
  import opened Results
  import opened StatusFlags
  import opened Memory
  import opened Cpu
  import opened Instructions
  import opened InstructionSet
  import opened Handlers
  import opened Engine

  /** `c` is where `load_and_run` starts `program`: at 0x8000, with zeroed
      registers and status and the program in place, the reset vector
      aside. */
  predicate FreshStart(c: CPU, program: seq<bv8>)
  {
    && c.programCounter == PROGRAM_ORIGIN
    && c.registerA == 0 && c.registerX == 0 && c.registerY == 0 && c.status == 0
    && ProgramInPlace(c.memory, program)
  }

  /** `table` registers `instr` under its opcode. */
  predicate Declares(table: seq<Instruction>, instr: Instruction)
  {
    Decode(table, instr.opcode) == Some(instr)
  }

  const LDA_IMMEDIATE: Instruction := Instructions.New(0xA9, "LDA", Immediate, 2)
  const TAX_IMPLICIT: Instruction := Instructions.New(0xAA, "TAX", Implicit, 1)
  const INX_IMPLICIT: Instruction := Instructions.New(0xE8, "INX", Implicit, 1)
  const BRK_IMPLICIT: Instruction := Instructions.New(0x00, "BRK", Implicit, 1)
  const ASL_ACCUMULATOR: Instruction := Instructions.New(0x0A, "ASL", Accumulator, 1)

  // Each lemma below reads one entry of a table.

  /** The declared table registers LDA #imm at 0xA9. */
  lemma LdaDeclared()
    ensures Declares(INSTRUCTION_SET, LDA_IMMEDIATE)
  {
    DecodeDeclaredHit(0xA9);
  }

  /** The declared table registers TAX at 0xAA. */
  lemma TaxDeclared()
    ensures Declares(INSTRUCTION_SET, TAX_IMPLICIT)
  {
    DecodeDeclaredHit(0xAA);
  }

  /** The declared table registers INX at 0xE8. */
  lemma InxDeclared()
    ensures Declares(INSTRUCTION_SET, INX_IMPLICIT)
  {
    DecodeDeclaredHit(0xE8);
  }

  /** The declared table registers BRK at 0x00. */
  lemma BrkDeclared()
    ensures Declares(INSTRUCTION_SET, BRK_IMPLICIT)
  {
    DecodeDeclaredHit(0x00);
  }

  /** The extended table keeps every registration of the declared one. */
  lemma ExtensionKeepsDeclared(instr: Instruction)
    requires Declares(INSTRUCTION_SET, instr)
    ensures Declares(EXTENDED_INSTRUCTION_SET, instr)
  {
    assert instr in INSTRUCTION_SET;
    var i :| 0 <= i < |INSTRUCTION_SET| && INSTRUCTION_SET[i] == instr;
    assert EXTENDED_INSTRUCTION_SET[i] == instr;
    ExtendedTableLayout();
    DecodeFindsEntry(EXTENDED_INSTRUCTION_SET, i);
  }

  /** The extended table registers ASL A at 0x0A. */
  lemma AslExtended()
    ensures Declares(EXTENDED_INSTRUCTION_SET, ASL_ACCUMULATOR)
  {
    DecodeExtendedHit(0x0A);
    assert EXTENDED_INSTRUCTION_SET[15] == DISPATCHED_BUT_MISSING[0];
  }

  /** The declared table does not register ASL A. */
  lemma AslUndeclared()
    ensures Decode(INSTRUCTION_SET, ASL_ACCUMULATOR.opcode).None?
  {
    DecodeDeclaredMiss(0x0A);
  }

  /** The extended table registers LDA #imm at 0xA9, as the declared one does. */
  lemma LdaExtended()
    ensures Declares(EXTENDED_INSTRUCTION_SET, LDA_IMMEDIATE)
  {
    LdaDeclared();
    ExtensionKeepsDeclared(LDA_IMMEDIATE);
  }

  /** The extended table registers BRK at 0x00, as the declared one does. */
  lemma BrkExtended()
    ensures Declares(EXTENDED_INSTRUCTION_SET, BRK_IMPLICIT)
  {
    BrkDeclared();
    ExtensionKeepsDeclared(BRK_IMPLICIT);
  }

  // ----- The dispatch of `run`, one state at a time -----
  // Each lemma states what the arm of one opcode does to the state right
  // after the fetch of that opcode at `p`, in terms of the state before.

  /** LDA #imm fetched at `p` loads the byte at `p + 1` into A. */
  lemma DispatchLdaAt(offset: Offset, c: CPU)
    requires c.programCounter + 1 < MEM_SIZE
    ensures Dispatcher(offset)(c.(programCounter := c.programCounter + 1), 0xA9, Immediate) ==
      Some(Ok(LoadWith(c, A, c.memory[c.programCounter + 1]).(programCounter := c.programCounter + 1)))
  {
    LoadWithIgnoresPc(c, A, c.memory[c.programCounter + 1], c.programCounter + 1);
    ExecuteLdaImmediate(c.(programCounter := c.programCounter + 1), offset);
  }

  /** TAX fetched at `p` copies A to X. */
  lemma DispatchTaxAt(offset: Offset, c: CPU)
    requires c.programCounter < MEM_SIZE
    ensures Dispatcher(offset)(c.(programCounter := c.programCounter + 1), 0xAA, Implicit) ==
      Some(Ok(Tax(c).(programCounter := c.programCounter + 1)))
  {
    TaxIgnoresPc(c, c.programCounter + 1);
    ExecuteTax(c.(programCounter := c.programCounter + 1), Implicit, offset);
  }

  /** INX fetched at `p` increments X. */
  lemma DispatchInxAt(offset: Offset, c: CPU)
    requires c.programCounter < MEM_SIZE
    ensures Dispatcher(offset)(c.(programCounter := c.programCounter + 1), 0xE8, Implicit) ==
      Some(Ok(Inx(c).(programCounter := c.programCounter + 1)))
  {
    InxIgnoresPc(c, c.programCounter + 1);
    ExecuteInx(c.(programCounter := c.programCounter + 1), Implicit, offset);
  }

  // ----- One step, for any table and dispatch -----
  // The table lookups come last among the requirements, and runs are
  // stated as `fuel + 1` passes against `fuel`: both keep the proof
  // obligations of the statements themselves small.

  /** A two-byte instruction at `p` whose arm succeeds with `next` (but
      with the program counter still at `p + 1`) moves on to `next`. */
  lemma StepTwoBytes(table: seq<Instruction>, exec: Dispatch, c: CPU, instr: Instruction, next: CPU)
    requires c.programCounter + 1 < MEM_SIZE && next.programCounter == c.programCounter + 2
    requires c.memory[c.programCounter] == instr.opcode && instr.opcode != BRK && instr.length == 2
    requires exec(c.(programCounter := c.programCounter + 1), instr.opcode, instr.mode) ==
      Some(Ok(next.(programCounter := c.programCounter + 1)))
    requires Declares(table, instr)
    ensures StepWith(table, exec, c) == Continue(next)
  {
    StepWithExecutes(table, exec, c, instr, next.(programCounter := c.programCounter + 1));
  }

  /** A one-byte instruction at `p` whose arm succeeds with `next`, leaving
      the program counter past the opcode, moves on to `next`. */
  lemma StepOneByte(table: seq<Instruction>, exec: Dispatch, c: CPU, instr: Instruction, next: CPU)
    requires c.programCounter < MEM_SIZE && next.programCounter == c.programCounter + 1
    requires c.memory[c.programCounter] == instr.opcode && instr.opcode != BRK && instr.length == 1
    requires exec(c.(programCounter := c.programCounter + 1), instr.opcode, instr.mode) == Some(Ok(next))
    requires Declares(table, instr)
    ensures StepWith(table, exec, c) == Continue(next)
  {
    StepWithExecutes(table, exec, c, instr, next);
  }

  /** A run whose first step continues with `next` goes on from `next`
      with one pass less. */
  lemma RunContinues(table: seq<Instruction>, exec: Dispatch, c: CPU, fuel: nat, next: CPU)
    requires StepWith(table, exec, c) == Continue(next)
    ensures RunWith(table, exec, c, fuel + 1) == RunWith(table, exec, next, fuel)
  {
    RunWithStep(table, exec, c, fuel + 1);
  }

  /** A run that reaches a BRK the table registers finishes just past it. */
  lemma RunHaltsAt(table: seq<Instruction>, exec: Dispatch, c: CPU, fuel: nat, done: CPU)
    requires c.programCounter < MEM_SIZE && c.memory[c.programCounter] == BRK
    requires done == c.(programCounter := c.programCounter + 1)
    requires Declares(table, BRK_IMPLICIT)
    ensures RunWith(table, exec, c, fuel + 1) == Finished(done)
  {
    RunWithStep(table, exec, c, fuel + 1);
  }

  /** A run that starts with a registered two-byte instruction goes on
      from the state its arm leaves, two bytes further on. */
  lemma RunTwoBytes(table: seq<Instruction>, exec: Dispatch, c: CPU, fuel: nat, instr: Instruction, next: CPU)
    requires c.programCounter + 1 < MEM_SIZE && next.programCounter == c.programCounter + 2
    requires c.memory[c.programCounter] == instr.opcode && instr.opcode != BRK && instr.length == 2
    requires exec(c.(programCounter := c.programCounter + 1), instr.opcode, instr.mode) ==
      Some(Ok(next.(programCounter := c.programCounter + 1)))
    requires Declares(table, instr)
    ensures RunWith(table, exec, c, fuel + 1) == RunWith(table, exec, next, fuel)
  {
    StepTwoBytes(table, exec, c, instr, next);
    RunContinues(table, exec, c, fuel, next);
  }

  /** A run that starts with a registered one-byte instruction goes on
      from the state its arm leaves. */
  lemma RunOneByte(table: seq<Instruction>, exec: Dispatch, c: CPU, fuel: nat, instr: Instruction, next: CPU)
    requires c.programCounter < MEM_SIZE && next.programCounter == c.programCounter + 1
    requires c.memory[c.programCounter] == instr.opcode && instr.opcode != BRK && instr.length == 1
    requires exec(c.(programCounter := c.programCounter + 1), instr.opcode, instr.mode) == Some(Ok(next))
    requires Declares(table, instr)
    ensures RunWith(table, exec, c, fuel + 1) == RunWith(table, exec, next, fuel)
  {
    StepOneByte(table, exec, c, instr, next);
    RunContinues(table, exec, c, fuel, next);
  }

  // ----- One instruction of `run`, for any table that registers it -----

  /** LDA #imm at `p`: the run goes on with the byte at `p + 1` in A, from `p + 2`. */
  lemma RunLda(table: seq<Instruction>, offset: Offset, c: CPU, fuel: nat, next: CPU)
    requires c.programCounter + 1 < MEM_SIZE && c.memory[c.programCounter] == 0xA9
    requires next == LoadWith(c, A, c.memory[c.programCounter + 1]).(programCounter := c.programCounter + 2)
    requires Declares(table, LDA_IMMEDIATE)
    ensures Run(table, offset, c, fuel + 1) == Run(table, offset, next, fuel)
  {
    DispatchLdaAt(offset, c);
    RunTwoBytes(table, Dispatcher(offset), c, fuel, LDA_IMMEDIATE, next);
  }

  /** TAX at `p`: the run goes on with A copied to X, from `p + 1`. */
  lemma RunTax(table: seq<Instruction>, offset: Offset, c: CPU, fuel: nat, next: CPU)
    requires c.programCounter < MEM_SIZE && c.memory[c.programCounter] == 0xAA
    requires next == Tax(c).(programCounter := c.programCounter + 1)
    requires Declares(table, TAX_IMPLICIT)
    ensures Run(table, offset, c, fuel + 1) == Run(table, offset, next, fuel)
  {
    DispatchTaxAt(offset, c);
    RunOneByte(table, Dispatcher(offset), c, fuel, TAX_IMPLICIT, next);
  }

  /** INX at `p`: the run goes on with X incremented, from `p + 1`. */
  lemma RunInx(table: seq<Instruction>, offset: Offset, c: CPU, fuel: nat, next: CPU)
    requires c.programCounter < MEM_SIZE && c.memory[c.programCounter] == 0xE8
    requires next == Inx(c).(programCounter := c.programCounter + 1)
    requires Declares(table, INX_IMPLICIT)
    ensures Run(table, offset, c, fuel + 1) == Run(table, offset, next, fuel)
  {
    DispatchInxAt(offset, c);
    RunOneByte(table, Dispatcher(offset), c, fuel, INX_IMPLICIT, next);
  }

  /** ASL A at `p`: the run goes on with A shifted left, from `p + 1`. */
  lemma RunAsl(table: seq<Instruction>, offset: Offset, c: CPU, fuel: nat, next: CPU)
    requires c.programCounter < MEM_SIZE && c.memory[c.programCounter] == 0x0A
    requires next == AslOnAccumulator(c).(programCounter := c.programCounter + 1)
    requires Declares(table, ASL_ACCUMULATOR)
    ensures Run(table, offset, c, fuel + 1) == Run(table, offset, next, fuel)
  {
    DispatchAslAccumulator(offset, c, c.programCounter + 1);
    RunOneByte(table, Dispatcher(offset), c, fuel, ASL_ACCUMULATOR, next);
  }

  // ----- Programs, for any table that registers their instructions -----
  // Each lemma runs one of the unit tests' programs from 0x8000 and states
  // the final state through the handlers, which do not look at the program
  // counter.

  /** LDA #v; BRK finishes with v loaded into A, at 0x8003. */
  lemma LdaBrkRun(table: seq<Instruction>, offset: Offset, s: CPU, v: bv8, fuel: nat)
    requires s.programCounter == 0x8000
    requires s.memory[0x8000] == 0xA9 && s.memory[0x8001] == v && s.memory[0x8002] == 0x00
    requires Declares(table, LDA_IMMEDIATE) && Declares(table, BRK_IMPLICIT)
    ensures Run(table, offset, s, fuel + 2) == Finished(LoadWith(s, A, v).(programCounter := 0x8003))
  {
    var s1 := LoadWith(s, A, v).(programCounter := 0x8002);
    RunLda(table, offset, s, fuel + 1, s1);
    RunHaltsAt(table, Dispatcher(offset), s1, fuel, s1.(programCounter := 0x8003));
  }

  /** LDA #v; TAX; BRK finishes with v copied into X, at 0x8004. */
  lemma LdaTaxBrkRun(table: seq<Instruction>, offset: Offset, s: CPU, v: bv8, fuel: nat)
    requires s.programCounter == 0x8000
    requires s.memory[0x8000] == 0xA9 && s.memory[0x8001] == v
    requires s.memory[0x8002] == 0xAA && s.memory[0x8003] == 0x00
    requires Declares(table, LDA_IMMEDIATE) && Declares(table, TAX_IMPLICIT) && Declares(table, BRK_IMPLICIT)
    ensures Run(table, offset, s, fuel + 3) == Finished(Tax(LoadWith(s, A, v)).(programCounter := 0x8004))
  {
    var s1 := LoadWith(s, A, v).(programCounter := 0x8002);
    var s2 := Tax(s1).(programCounter := 0x8003);
    RunLda(table, offset, s, fuel + 2, s1);
    RunTax(table, offset, s1, fuel + 1, s2);
    RunHaltsAt(table, Dispatcher(offset), s2, fuel, s2.(programCounter := 0x8004));
    TaxIgnoresPc(LoadWith(s, A, v), 0x8002);
  }

  /** INX; BRK finishes with X incremented, at 0x8002. */
  lemma InxBrkRun(table: seq<Instruction>, offset: Offset, s: CPU, fuel: nat)
    requires s.programCounter == 0x8000
    requires s.memory[0x8000] == 0xE8 && s.memory[0x8001] == 0x00
    requires Declares(table, INX_IMPLICIT) && Declares(table, BRK_IMPLICIT)
    ensures Run(table, offset, s, fuel + 2) == Finished(Inx(s).(programCounter := 0x8002))
  {
    var s1 := Inx(s).(programCounter := 0x8001);
    RunInx(table, offset, s, fuel + 1, s1);
    RunHaltsAt(table, Dispatcher(offset), s1, fuel, s1.(programCounter := 0x8002));
  }

  /** LDA #v; TAX; INX; BRK finishes with v + 1 in X, at 0x8005. */
  lemma LdaTaxInxBrkRun(table: seq<Instruction>, offset: Offset, s: CPU, v: bv8, fuel: nat)
    requires s.programCounter == 0x8000
    requires s.memory[0x8000] == 0xA9 && s.memory[0x8001] == v && s.memory[0x8002] == 0xAA
    requires s.memory[0x8003] == 0xE8 && s.memory[0x8004] == 0x00
    requires Declares(table, LDA_IMMEDIATE) && Declares(table, TAX_IMPLICIT)
    requires Declares(table, INX_IMPLICIT) && Declares(table, BRK_IMPLICIT)
    ensures Run(table, offset, s, fuel + 4) == Finished(Inx(Tax(LoadWith(s, A, v))).(programCounter := 0x8005))
  {
    var s1 := LoadWith(s, A, v).(programCounter := 0x8002);
    var s2 := Tax(s1).(programCounter := 0x8003);
    var s3 := Inx(s2).(programCounter := 0x8004);
    RunLda(table, offset, s, fuel + 3, s1);
    RunTax(table, offset, s1, fuel + 2, s2);
    RunInx(table, offset, s2, fuel + 1, s3);
    RunHaltsAt(table, Dispatcher(offset), s3, fuel, s3.(programCounter := 0x8005));
    TaxIgnoresPc(LoadWith(s, A, v), 0x8002);
    InxIgnoresPc(Tax(LoadWith(s, A, v)), 0x8003);
  }

  /** LDA #v; TAX; INX; INX; BRK finishes with v + 2 in X, at 0x8006. */
  lemma LdaTaxInxInxBrkRun(table: seq<Instruction>, offset: Offset, s: CPU, v: bv8, fuel: nat)
    requires s.programCounter == 0x8000
    requires s.memory[0x8000] == 0xA9 && s.memory[0x8001] == v && s.memory[0x8002] == 0xAA
    requires s.memory[0x8003] == 0xE8 && s.memory[0x8004] == 0xE8 && s.memory[0x8005] == 0x00
    requires Declares(table, LDA_IMMEDIATE) && Declares(table, TAX_IMPLICIT)
    requires Declares(table, INX_IMPLICIT) && Declares(table, BRK_IMPLICIT)
    ensures Run(table, offset, s, fuel + 5) == Finished(Inx(Inx(Tax(LoadWith(s, A, v)))).(programCounter := 0x8006))
  {
    var s1 := LoadWith(s, A, v).(programCounter := 0x8002);
    var s2 := Tax(s1).(programCounter := 0x8003);
    var s3 := Inx(s2).(programCounter := 0x8004);
    var s4 := Inx(s3).(programCounter := 0x8005);
    RunLda(table, offset, s, fuel + 4, s1);
    RunTax(table, offset, s1, fuel + 3, s2);
    RunInx(table, offset, s2, fuel + 2, s3);
    RunInx(table, offset, s3, fuel + 1, s4);
    RunHaltsAt(table, Dispatcher(offset), s4, fuel, s4.(programCounter := 0x8006));
    TaxIgnoresPc(LoadWith(s, A, v), 0x8002);
    InxIgnoresPc(Tax(LoadWith(s, A, v)), 0x8003);
    InxIgnoresPc(Inx(Tax(LoadWith(s, A, v))), 0x8004);
  }

  /** LDA #v; ASL A; BRK finishes with A shifted once, at 0x8004. */
  lemma LdaAslBrkRun(table: seq<Instruction>, offset: Offset, s: CPU, v: bv8, fuel: nat)
    requires s.programCounter == 0x8000
    requires s.memory[0x8000] == 0xA9 && s.memory[0x8001] == v
    requires s.memory[0x8002] == 0x0A && s.memory[0x8003] == 0x00
    requires Declares(table, LDA_IMMEDIATE) && Declares(table, ASL_ACCUMULATOR) && Declares(table, BRK_IMPLICIT)
    ensures Run(table, offset, s, fuel + 3) == Finished(AslOnAccumulator(LoadWith(s, A, v)).(programCounter := 0x8004))
  {
    var s1 := LoadWith(s, A, v).(programCounter := 0x8002);
    var s2 := AslOnAccumulator(s1).(programCounter := 0x8003);
    RunLda(table, offset, s, fuel + 2, s1);
    RunAsl(table, offset, s1, fuel + 1, s2);
    RunHaltsAt(table, Dispatcher(offset), s2, fuel, s2.(programCounter := 0x8004));
    AslOnAccumulatorIgnoresPc(LoadWith(s, A, v), 0x8002);
  }

  /** LDA #v; ASL A; ASL A; BRK finishes with A shifted twice, at 0x8005. */
  lemma LdaAslAslBrkRun(table: seq<Instruction>, offset: Offset, s: CPU, v: bv8, fuel: nat)
    requires s.programCounter == 0x8000
    requires s.memory[0x8000] == 0xA9 && s.memory[0x8001] == v && s.memory[0x8002] == 0x0A
    requires s.memory[0x8003] == 0x0A && s.memory[0x8004] == 0x00
    requires Declares(table, LDA_IMMEDIATE) && Declares(table, ASL_ACCUMULATOR) && Declares(table, BRK_IMPLICIT)
    ensures Run(table, offset, s, fuel + 4) ==
      Finished(AslOnAccumulator(AslOnAccumulator(LoadWith(s, A, v))).(programCounter := 0x8005))
  {
    var s1 := LoadWith(s, A, v).(programCounter := 0x8002);
    var s2 := AslOnAccumulator(s1).(programCounter := 0x8003);
    var s3 := AslOnAccumulator(s2).(programCounter := 0x8004);
    RunLda(table, offset, s, fuel + 3, s1);
    RunAsl(table, offset, s1, fuel + 2, s2);
    RunAsl(table, offset, s2, fuel + 1, s3);
    RunHaltsAt(table, Dispatcher(offset), s3, fuel, s3.(programCounter := 0x8005));
    AslOnAccumulatorIgnoresPc(LoadWith(s, A, v), 0x8002);
    AslOnAccumulatorIgnoresPc(AslOnAccumulator(LoadWith(s, A, v)), 0x8003);
  }

  /** With the declared table, LDA #v followed by ASL A stops at the ASL
      byte: the table has no entry for 0x0A. */
  lemma LdaAslAborts(offset: Offset, s: CPU, v: bv8, fuel: nat)
    requires s.programCounter == 0x8000
    requires s.memory[0x8000] == 0xA9 && s.memory[0x8001] == v && s.memory[0x8002] == 0x0A
    ensures Run(INSTRUCTION_SET, offset, s, fuel + 2) == Aborted(UnknownOpcode(0x0A, 0x8002))
  {
    var s1 := LoadWith(s, A, v).(programCounter := 0x8002);
    LdaDeclared();
    RunLda(INSTRUCTION_SET, offset, s, fuel + 1, s1);
    AslUndeclared();
    RunUnknownOpcode(INSTRUCTION_SET, offset, s1, fuel + 1);
  }

  // ----- The programs of the unit tests, through `load_and_run` -----
  // Each program comes in three parts: the run from a fresh start; a
  // predicate naming what the test reads off the final state, with the
  // lemma that the state meets it; and the program lemma, which takes
  // `load_and_run` on any CPU to a fresh start and joins the two.

  /** `load_and_run` of a program that fits reaches `run` from a fresh start. */
  lemma FreshRun(table: seq<Instruction>, offset: Offset, c: CPU, program: seq<bv8>, fuel: nat) returns (s: CPU)
    requires PROGRAM_ORIGIN + |program| <= MEM_SIZE
    ensures FreshStart(s, program)
    ensures LoadAndRun(table, offset, c, program, fuel) == Run(table, offset, s, fuel)
  {
    LoadThenReset(c, program);
    s := Reset(Load(c, program).value);
  }

  // LDA #v; BRK

  /** LDA #v; BRK from a fresh start, with the declared table. */
  lemma LdaFromStart(offset: Offset, s: CPU, v: bv8, fuel: nat)
    requires FreshStart(s, [0xa9, v, 0x00])
    ensures Run(INSTRUCTION_SET, offset, s, fuel + 2) == Finished(LoadWith(s, A, v).(programCounter := 0x8003))
  {
    var program: seq<bv8> := [0xa9, v, 0x00];
    assert s.memory[0x8000] == 0xA9 && s.memory[0x8001] == v && s.memory[0x8002] == 0x00 by {
      assert program[0] == 0xA9 && program[1] == v && program[2] == 0x00;
    }
    LdaDeclared();
    BrkDeclared();
    LdaBrkRun(INSTRUCTION_SET, offset, s, v, fuel);
  }

  /** The state LDA #v leaves: v in A, Zero iff v is 0, Negative iff v
      is 0x80 or more. */
  predicate Loaded(d: CPU, v: bv8)
  {
    && d.registerA == v
    && (IsFlagSet(d.status, Zero) <==> v == 0)
    && (IsFlagSet(d.status, Negative) <==> v >= 0x80)
  }

  /** LDA #v gives Loaded, wherever the program counter ends. */
  lemma LoadFacts(c: CPU, v: bv8, p: Word)
    ensures Loaded(LoadWith(c, A, v).(programCounter := p), v)
  {
  }

  /** The programs of test_0xa9_lda_immediate_load_data and
      test_0xa9_lda_zero_flag, for any immediate byte v and any CPU: the run
      finishes with v in A, Zero set iff v is 0 and Negative iff v is 0x80
      or more. */
  lemma LdaProgram(offset: Offset, c: CPU, v: bv8, fuel: nat)
    ensures var r := LoadAndRun(INSTRUCTION_SET, offset, c, [0xa9, v, 0x00], fuel + 2);
      r.Finished? && Loaded(r.cpu, v)
  {
    var s := FreshRun(INSTRUCTION_SET, offset, c, [0xa9, v, 0x00], fuel + 2);
    LdaFromStart(offset, s, v, fuel);
    LoadFacts(s, v, 0x8003);
  }

  // LDA #v; TAX; BRK

  /** LDA #v; TAX; BRK from a fresh start, with the declared table. */
  lemma LdaTaxFromStart(offset: Offset, s: CPU, v: bv8, fuel: nat)
    requires FreshStart(s, [0xa9, v, 0xaa, 0x00])
    ensures Run(INSTRUCTION_SET, offset, s, fuel + 3) == Finished(Tax(LoadWith(s, A, v)).(programCounter := 0x8004))
  {
    var program: seq<bv8> := [0xa9, v, 0xaa, 0x00];
    assert s.memory[0x8000] == 0xA9 && s.memory[0x8001] == v by {
      assert program[0] == 0xA9 && program[1] == v;
    }
    assert s.memory[0x8002] == 0xAA && s.memory[0x8003] == 0x00 by {
      assert program[2] == 0xAA && program[3] == 0x00;
    }
    LdaDeclared();
    TaxDeclared();
    BrkDeclared();
    LdaTaxBrkRun(INSTRUCTION_SET, offset, s, v, fuel);
  }

  /** The state LDA #v; TAX leaves: v in A and in X, Zero iff v is 0,
      Negative iff v is 0x80 or more. */
  predicate Transferred(d: CPU, v: bv8)
  {
    && d.registerA == v && d.registerX == v
    && (IsFlagSet(d.status, Zero) <==> v == 0)
    && (IsFlagSet(d.status, Negative) <==> v >= 0x80)
  }

  /** LDA #v; TAX gives Transferred, wherever the program counter ends. */
  lemma TransferFacts(c: CPU, v: bv8, p: Word)
    ensures Transferred(Tax(LoadWith(c, A, v)).(programCounter := p), v)
  {
  }

  /** The program of test_0xaa_tax_move_a_to_x, for any v and any CPU. */
  lemma LdaTaxProgram(offset: Offset, c: CPU, v: bv8, fuel: nat)
    ensures var r := LoadAndRun(INSTRUCTION_SET, offset, c, [0xa9, v, 0xaa, 0x00], fuel + 3);
      r.Finished? && Transferred(r.cpu, v)
  {
    var s := FreshRun(INSTRUCTION_SET, offset, c, [0xa9, v, 0xaa, 0x00], fuel + 3);
    LdaTaxFromStart(offset, s, v, fuel);
    TransferFacts(s, v, 0x8004);
  }

  // INX; BRK

  /** INX; BRK from a fresh start, with the declared table. */
  lemma InxFromStart(offset: Offset, s: CPU, fuel: nat)
    requires FreshStart(s, [0xe8, 0x00])
    ensures Run(INSTRUCTION_SET, offset, s, fuel + 2) == Finished(Inx(s).(programCounter := 0x8002))
  {
    var program: seq<bv8> := [0xe8, 0x00];
    assert s.memory[0x8000] == 0xE8 && s.memory[0x8001] == 0x00 by {
      assert program[0] == 0xE8 && program[1] == 0x00;
    }
    InxDeclared();
    BrkDeclared();
    InxBrkRun(INSTRUCTION_SET, offset, s, fuel);
  }

  /** The state INX leaves from X = 0: 1 in X, Zero and Negative clear. */
  predicate IncrementedFromZero(d: CPU)
  {
    d.registerX == 1 && !IsFlagSet(d.status, Zero) && !IsFlagSet(d.status, Negative)
  }

  /** INX from X = 0 gives IncrementedFromZero, wherever the program
      counter ends. */
  lemma IncrementFromZeroFacts(c: CPU, p: Word)
    requires c.registerX == 0
    ensures IncrementedFromZero(Inx(c).(programCounter := p))
  {
  }

  /** The program of test_0xe8_inx_increments_base and
      test_0xe8_inx_no_negative_flag, on any CPU: whatever X held before,
      `load_and_run` resets it, so X ends at 1 with Negative clear. */
  lemma InxProgram(offset: Offset, c: CPU, fuel: nat)
    ensures var r := LoadAndRun(INSTRUCTION_SET, offset, c, [0xe8, 0x00], fuel + 2);
      r.Finished? && IncrementedFromZero(r.cpu)
  {
    var s := FreshRun(INSTRUCTION_SET, offset, c, [0xe8, 0x00], fuel + 2);
    InxFromStart(offset, s, fuel);
    IncrementFromZeroFacts(s, 0x8002);
  }

  // LDA #v; TAX; INX; BRK

  /** LDA #v; TAX; INX; BRK from a fresh start, with the declared table. */
  lemma LdaTaxInxFromStart(offset: Offset, s: CPU, v: bv8, fuel: nat)
    requires FreshStart(s, [0xa9, v, 0xaa, 0xe8, 0x00])
    ensures Run(INSTRUCTION_SET, offset, s, fuel + 4) == Finished(Inx(Tax(LoadWith(s, A, v))).(programCounter := 0x8005))
  {
    var program: seq<bv8> := [0xa9, v, 0xaa, 0xe8, 0x00];
    assert s.memory[0x8000] == 0xA9 && s.memory[0x8001] == v && s.memory[0x8002] == 0xAA by {
      assert program[0] == 0xA9 && program[1] == v && program[2] == 0xAA;
    }
    assert s.memory[0x8003] == 0xE8 && s.memory[0x8004] == 0x00 by {
      assert program[3] == 0xE8 && program[4] == 0x00;
    }
    LdaDeclared();
    TaxDeclared();
    InxDeclared();
    BrkDeclared();
    LdaTaxInxBrkRun(INSTRUCTION_SET, offset, s, v, fuel);
  }

  /** The state LDA #v; TAX; INX leaves: v + 1 modulo 256 in X, Zero iff v
      is 0xFF, Negative iff v + 1 lies in 0x80..0xFF. */
  predicate Incremented(d: CPU, v: bv8)
  {
    && d.registerX as int == (v as int + 1) % 256
    && (IsFlagSet(d.status, Zero) <==> v == 0xFF)
    && (IsFlagSet(d.status, Negative) <==> 0x7F <= v < 0xFF)
  }

  /** LDA #v; TAX; INX gives Incremented, wherever the program counter ends. */
  lemma IncrementFacts(c: CPU, v: bv8, p: Word)
    ensures Incremented(Inx(Tax(LoadWith(c, A, v))).(programCounter := p), v)
  {
  }

  /** The programs of test_0xe8_inx_increments_wraps (v = 0xFF: X wraps to
      0 and Zero is set) and test_5_ops_working_together (v = 0xC0: X ends
      at 0xC1), for any v and any CPU. */
  lemma LdaTaxInxProgram(offset: Offset, c: CPU, v: bv8, fuel: nat)
    ensures var r := LoadAndRun(INSTRUCTION_SET, offset, c, [0xa9, v, 0xaa, 0xe8, 0x00], fuel + 4);
      r.Finished? && Incremented(r.cpu, v)
  {
    var s := FreshRun(INSTRUCTION_SET, offset, c, [0xa9, v, 0xaa, 0xe8, 0x00], fuel + 4);
    LdaTaxInxFromStart(offset, s, v, fuel);
    IncrementFacts(s, v, 0x8005);
  }

  // LDA #v; TAX; INX; INX; BRK

  /** LDA #v; TAX; INX; INX; BRK from a fresh start, with the declared table. */
  lemma LdaTaxInxInxFromStart(offset: Offset, s: CPU, v: bv8, fuel: nat)
    requires FreshStart(s, [0xa9, v, 0xaa, 0xe8, 0xe8, 0x00])
    ensures Run(INSTRUCTION_SET, offset, s, fuel + 5) ==
      Finished(Inx(Inx(Tax(LoadWith(s, A, v)))).(programCounter := 0x8006))
  {
    var program: seq<bv8> := [0xa9, v, 0xaa, 0xe8, 0xe8, 0x00];
    assert s.memory[0x8000] == 0xA9 && s.memory[0x8001] == v && s.memory[0x8002] == 0xAA by {
      assert program[0] == 0xA9 && program[1] == v && program[2] == 0xAA;
    }
    assert s.memory[0x8003] == 0xE8 && s.memory[0x8004] == 0xE8 && s.memory[0x8005] == 0x00 by {
      assert program[3] == 0xE8 && program[4] == 0xE8 && program[5] == 0x00;
    }
    LdaDeclared();
    TaxDeclared();
    InxDeclared();
    BrkDeclared();
    LdaTaxInxInxBrkRun(INSTRUCTION_SET, offset, s, v, fuel);
  }

  /** The state LDA #v; TAX; INX; INX leaves: v + 2 modulo 256 in X, Zero
      iff v is 0xFE, Negative iff v + 2 lies in 0x80..0xFF. */
  predicate IncrementedTwice(d: CPU, v: bv8)
  {
    && d.registerX as int == (v as int + 2) % 256
    && (IsFlagSet(d.status, Zero) <==> v == 0xFE)
    && (IsFlagSet(d.status, Negative) <==> 0x7E <= v < 0xFE)
  }

  /** LDA #v; TAX; INX; INX gives IncrementedTwice, wherever the program
      counter ends. */
  lemma IncrementTwiceFacts(c: CPU, v: bv8, p: Word)
    ensures IncrementedTwice(Inx(Inx(Tax(LoadWith(c, A, v)))).(programCounter := p), v)
  {
  }

  /** The programs of test_inx_overflow (v = 0xFF: X ends at 1) and
      test_0xe8_inx_set_negative_flag (v = 0x7F: Negative is set), for any v
      and any CPU. */
  lemma LdaTaxInxInxProgram(offset: Offset, c: CPU, v: bv8, fuel: nat)
    ensures var r := LoadAndRun(INSTRUCTION_SET, offset, c, [0xa9, v, 0xaa, 0xe8, 0xe8, 0x00], fuel + 5);
      r.Finished? && IncrementedTwice(r.cpu, v)
  {
    var s := FreshRun(INSTRUCTION_SET, offset, c, [0xa9, v, 0xaa, 0xe8, 0xe8, 0x00], fuel + 5);
    LdaTaxInxInxFromStart(offset, s, v, fuel);
    IncrementTwiceFacts(s, v, 0x8006);
  }

  // An opcode the table does not know

  /** The program of test_unknown_opcode, on any CPU: the run stops at its
      first byte, where the source panics. */
  lemma UnknownOpcodeProgram(offset: Offset, c: CPU, fuel: nat)
    ensures LoadAndRun(INSTRUCTION_SET, offset, c, [0x02, 0x00], fuel + 1) == Aborted(UnknownOpcode(0x02, 0x8000))
  {
    var s := FreshRun(INSTRUCTION_SET, offset, c, [0x02, 0x00], fuel + 1);
    UnknownOpcodeFromStart(offset, s, fuel);
  }

  /** 0x02 at a fresh start stops the run, with the declared table. */
  lemma UnknownOpcodeFromStart(offset: Offset, s: CPU, fuel: nat)
    requires FreshStart(s, [0x02, 0x00])
    ensures Run(INSTRUCTION_SET, offset, s, fuel + 1) == Aborted(UnknownOpcode(0x02, 0x8000))
  {
    var program: seq<bv8> := [0x02, 0x00];
    assert s.memory[0x8000] == 0x02 by {
      assert program[0] == 0x02;
    }
    DeclaredTableMisses();
    RunUnknownOpcode(INSTRUCTION_SET, offset, s, fuel + 1);
  }

  // ASL A, which the declared table does not register

  /** LDA #v; ASL A; ASL A; BRK from a fresh start, with the extended table. */
  lemma AslTwiceFromStart(offset: Offset, s: CPU, v: bv8, fuel: nat)
    requires FreshStart(s, [0xa9, v, 0x0a, 0x0a, 0x00])
    ensures Run(EXTENDED_INSTRUCTION_SET, offset, s, fuel + 4) ==
      Finished(AslOnAccumulator(AslOnAccumulator(LoadWith(s, A, v))).(programCounter := 0x8005))
  {
    var program: seq<bv8> := [0xa9, v, 0x0a, 0x0a, 0x00];
    assert s.memory[0x8000] == 0xA9 && s.memory[0x8001] == v && s.memory[0x8002] == 0x0A by {
      assert program[0] == 0xA9 && program[1] == v && program[2] == 0x0A;
    }
    assert s.memory[0x8003] == 0x0A && s.memory[0x8004] == 0x00 by {
      assert program[3] == 0x0A && program[4] == 0x00;
    }
    LdaExtended();
    AslExtended();
    BrkExtended();
    LdaAslAslBrkRun(EXTENDED_INSTRUCTION_SET, offset, s, v, fuel);
  }

  /** The state LDA #v; ASL A; ASL A leaves: v shifted left by two in A;
      Carry is bit 6 of v, Zero says bits 0 to 5 of v are clear, Negative
      is bit 5 of v. */
  predicate ShiftedTwice(d: CPU, v: bv8)
  {
    && d.registerA == v << 2
    && (IsFlagSet(d.status, Carry) <==> v & 0x40 != 0)
    && (IsFlagSet(d.status, Zero) <==> v & 0x3F == 0)
    && (IsFlagSet(d.status, Negative) <==> v & 0x20 != 0)
  }

  /** LDA #v; ASL A; ASL A gives ShiftedTwice, wherever the program counter
      ends. */
  lemma LoadThenShiftTwice(c: CPU, v: bv8, p: Word)
    ensures ShiftedTwice(AslOnAccumulator(AslOnAccumulator(LoadWith(c, A, v))).(programCounter := p), v)
  {
    AslOnAccumulatorShifts(LoadWith(c, A, v));
    AslOnAccumulatorShifts(AslOnAccumulator(LoadWith(c, A, v)));
  }

  /** The program of test_0x0a_asl as written: with the declared table
      `load_and_run` panics at the first ASL byte, 0x8002. */
  lemma AslTwiceProgramDeclared(offset: Offset, c: CPU, v: bv8, fuel: nat)
    ensures LoadAndRun(INSTRUCTION_SET, offset, c, [0xa9, v, 0x0a, 0x0a, 0x00], fuel + 2) ==
      Aborted(UnknownOpcode(0x0A, 0x8002))
  {
    var s := FreshRun(INSTRUCTION_SET, offset, c, [0xa9, v, 0x0a, 0x0a, 0x00], fuel + 2);
    AslTwiceAbortsFromStart(offset, s, v, fuel);
  }

  /** LDA #v; ASL A; ASL A; BRK from a fresh start stops at 0x8002 with
      the declared table. */
  lemma AslTwiceAbortsFromStart(offset: Offset, s: CPU, v: bv8, fuel: nat)
    requires FreshStart(s, [0xa9, v, 0x0a, 0x0a, 0x00])
    ensures Run(INSTRUCTION_SET, offset, s, fuel + 2) == Aborted(UnknownOpcode(0x0A, 0x8002))
  {
    var program: seq<bv8> := [0xa9, v, 0x0a, 0x0a, 0x00];
    assert s.memory[0x8000] == 0xA9 && s.memory[0x8001] == v && s.memory[0x8002] == 0x0A by {
      assert program[0] == 0xA9 && program[1] == v && program[2] == 0x0A;
    }
    LdaAslAborts(offset, s, v, fuel);
  }

  /** The program of test_0x0a_asl with the extended table, for any v and
      any CPU: v = 2 ends with 8 in A and Carry, Zero and Negative clear. */
  lemma AslTwiceProgram(offset: Offset, c: CPU, v: bv8, fuel: nat)
    ensures var r := LoadAndRun(EXTENDED_INSTRUCTION_SET, offset, c, [0xa9, v, 0x0a, 0x0a, 0x00], fuel + 4);
      r.Finished? && ShiftedTwice(r.cpu, v)
  {
    var s := FreshRun(EXTENDED_INSTRUCTION_SET, offset, c, [0xa9, v, 0x0a, 0x0a, 0x00], fuel + 4);
    AslTwiceFromStart(offset, s, v, fuel);
    LoadThenShiftTwice(s, v, 0x8005);
  }

  /** The state LDA #v; ASL A leaves: v shifted left by one in A; Carry is
      bit 7 of v, Zero says bits 0 to 6 of v are clear, Negative is bit 6
      of v. */
  predicate ShiftedOnce(d: CPU, v: bv8)
  {
    && d.registerA == v << 1
    && (IsFlagSet(d.status, Carry) <==> v & 0x80 != 0)
    && (IsFlagSet(d.status, Zero) <==> v & 0x7F == 0)
    && (IsFlagSet(d.status, Negative) <==> v & 0x40 != 0)
  }

  /** LDA #v then ASL A, wherever the program counter ends, gives ShiftedOnce. */
  lemma LoadThenShift(c: CPU, v: bv8, p: Word)
    ensures ShiftedOnce(AslOnAccumulator(LoadWith(c, A, v)).(programCounter := p), v)
  {
    AslOnAccumulatorShifts(LoadWith(c, A, v));
  }

  /** LDA #v; ASL A; BRK from a fresh start, with the extended table. */
  lemma AslOnceFromStart(offset: Offset, s: CPU, v: bv8, fuel: nat)
    requires FreshStart(s, [0xa9, v, 0x0a, 0x00])
    ensures Run(EXTENDED_INSTRUCTION_SET, offset, s, fuel + 3) ==
      Finished(AslOnAccumulator(LoadWith(s, A, v)).(programCounter := 0x8004))
  {
    var program: seq<bv8> := [0xa9, v, 0x0a, 0x00];
    assert s.memory[0x8000] == 0xA9 && s.memory[0x8001] == v by {
      assert program[0] == 0xA9 && program[1] == v;
    }
    assert s.memory[0x8002] == 0x0A && s.memory[0x8003] == 0x00 by {
      assert program[2] == 0x0A && program[3] == 0x00;
    }
    LdaExtended();
    AslExtended();
    BrkExtended();
    LdaAslBrkRun(EXTENDED_INSTRUCTION_SET, offset, s, v, fuel);
  }

  /** LDA #v; ASL A; BRK from a fresh start stops at 0x8002 with the
      declared table. */
  lemma AslOnceAbortsFromStart(offset: Offset, s: CPU, v: bv8, fuel: nat)
    requires FreshStart(s, [0xa9, v, 0x0a, 0x00])
    ensures Run(INSTRUCTION_SET, offset, s, fuel + 2) == Aborted(UnknownOpcode(0x0A, 0x8002))
  {
    var program: seq<bv8> := [0xa9, v, 0x0a, 0x00];
    assert s.memory[0x8000] == 0xA9 && s.memory[0x8001] == v && s.memory[0x8002] == 0x0A by {
      assert program[0] == 0xA9 && program[1] == v && program[2] == 0x0A;
    }
    LdaAslAborts(offset, s, v, fuel);
  }

  /** The program of test_0x0a_asl_overflow as written: with the declared
      table `load_and_run` panics at the ASL byte, 0x8002. */
  lemma AslOnceProgramDeclared(offset: Offset, c: CPU, v: bv8, fuel: nat)
    ensures LoadAndRun(INSTRUCTION_SET, offset, c, [0xa9, v, 0x0a, 0x00], fuel + 2) ==
      Aborted(UnknownOpcode(0x0A, 0x8002))
  {
    var s := FreshRun(INSTRUCTION_SET, offset, c, [0xa9, v, 0x0a, 0x00], fuel + 2);
    AslOnceAbortsFromStart(offset, s, v, fuel);
  }

  /** The program of test_0x0a_asl_overflow with the extended table, for
      any v and any CPU: v = 0xFF ends with 0xFE in A, Carry and Negative
      set and Zero clear. */
  lemma AslOnceProgram(offset: Offset, c: CPU, v: bv8, fuel: nat)
    ensures var r := LoadAndRun(EXTENDED_INSTRUCTION_SET, offset, c, [0xa9, v, 0x0a, 0x00], fuel + 3);
      r.Finished? && ShiftedOnce(r.cpu, v)
  {
    var s := FreshRun(EXTENDED_INSTRUCTION_SET, offset, c, [0xa9, v, 0x0a, 0x00], fuel + 3);
    AslOnceFromStart(offset, s, v, fuel);
    LoadThenShift(s, v, 0x8004);
  }
}

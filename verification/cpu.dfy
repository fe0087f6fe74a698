/** The register file and memory of the CPU, with `new`, `reset` and `load`
    (src/cpu.rs). */
module Cpu {
  import opened Results
  import opened Memory

  /** Start of the program area and location of the reset vector. */
  const PROGRAM_ORIGIN: nat := 0x8000
  const RESET_VECTOR: nat := 0xFFFC

  datatype CPU = CPU(
    registerA: bv8,
    registerX: bv8,
    registerY: bv8,
    status: bv8,
    programCounter: Word,
    memory: Memory)

  /** `CPU::new`: every register, the status byte, the program counter and
      every memory byte are zero. */
  function New(): (c: CPU)
    ensures c.registerA == 0 && c.registerX == 0 && c.registerY == 0
    ensures c.status == 0 && c.programCounter == 0
    ensures forall i :: 0 <= i < MEM_SIZE ==> c.memory[i] == 0
  {
    CPU(0, 0, 0, 0, 0, seq(MEM_SIZE, _ => 0 as bv8))
  }

  /** `reset`: A, X, Y and status become zero, the program counter becomes
      the little-endian word at the reset vector, memory is untouched. */
  function Reset(c: CPU): (r: CPU)
    ensures r.registerA == 0 && r.registerX == 0 && r.registerY == 0 && r.status == 0
    ensures r.programCounter == c.memory[RESET_VECTOR] as int + 256 * c.memory[RESET_VECTOR + 1] as int
    ensures r.memory == c.memory
  {
    CPU(0, 0, 0, 0, MemReadU16(c.memory, RESET_VECTOR as Word).value, c.memory)
  }

  /** Address `a` is neither in the program area of a `len`-byte program nor
      part of the reset vector. */
  predicate OutsideLoad(a: int, len: nat)
  {
    0 <= a < MEM_SIZE && !(PROGRAM_ORIGIN <= a < PROGRAM_ORIGIN + len)
    && a != RESET_VECTOR && a != RESET_VECTOR + 1
  }

  /** `load`: copies the program to [0x8000, 0x8000 + len) and then writes
      0x8000 to the reset vector. A program that does not fit below 0xFFFF
      makes the slice out of range. Registers are untouched. */
  function Load(c: CPU, program: seq<bv8>): (r: Result<CPU>)
    ensures r.Ok? <==> PROGRAM_ORIGIN + |program| <= MEM_SIZE
    ensures r.Err? ==> r.error == ProgramTooLong(|program|)
    ensures r.Ok? ==> r.value == c.(memory := r.value.memory)
    ensures r.Ok? ==> r.value.memory[RESET_VECTOR] == 0x00 && r.value.memory[RESET_VECTOR + 1] == 0x80
  {
    if PROGRAM_ORIGIN + |program| > MEM_SIZE then Err(ProgramTooLong(|program|))
    else
      var copied: Memory := c.memory[..PROGRAM_ORIGIN] + program + c.memory[PROGRAM_ORIGIN + |program|..];
      Ok(c.(memory := MemWriteU16(copied, RESET_VECTOR as Word, PROGRAM_ORIGIN as Word).value))
  }

  /** Offset `i` of a program loaded at 0x8000 does not fall on the reset
      vector, which `load` writes after copying the program. */
  predicate OffVector(i: int)
  {
    PROGRAM_ORIGIN + i != RESET_VECTOR && PROGRAM_ORIGIN + i != RESET_VECTOR + 1
  }

  /** What `load` leaves in memory: the program at 0x8000 except where it
      reaches the reset vector, and 0x8000 in the vector; a program longer
      than 0x7FFB bytes thus has bytes 0x7FFC and 0x7FFD replaced by 0x00
      and 0x80. */
  predicate ProgramInPlace(mem: Memory, program: seq<bv8>)
  {
    && PROGRAM_ORIGIN + |program| <= MEM_SIZE
    && (forall i :: 0 <= i < |program| && OffVector(i) ==> mem[PROGRAM_ORIGIN + i] == program[i])
    && mem[RESET_VECTOR] == 0x00 && mem[RESET_VECTOR + 1] == 0x80
  }

  /** `load` puts the program at 0x8000, the reset vector over it where the
      two meet, and leaves every other byte as it was. */
  lemma LoadPlacesProgram(c: CPU, program: seq<bv8>)
    requires PROGRAM_ORIGIN + |program| <= MEM_SIZE
    ensures forall i :: 0 <= i < |program| && OffVector(i) ==>
      Load(c, program).value.memory[PROGRAM_ORIGIN + i] == program[i]
    ensures ProgramInPlace(Load(c, program).value.memory, program)
    ensures forall a :: OutsideLoad(a, |program|) ==> Load(c, program).value.memory[a] == c.memory[a]
  {
    var copied: Memory := c.memory[..PROGRAM_ORIGIN] + program + c.memory[PROGRAM_ORIGIN + |program|..];
    assert forall i :: 0 <= i < |program| ==> copied[PROGRAM_ORIGIN + i] == program[i];
  }

  /** After `load` and `reset` execution starts at 0x8000 with zeroed
      registers and the program in place, the reset vector aside; a program
      that stops short of the vector is in place whole. */
  lemma LoadThenReset(c: CPU, program: seq<bv8>)
    requires PROGRAM_ORIGIN + |program| <= MEM_SIZE
    ensures Load(c, program).Ok?
    ensures var r := Reset(Load(c, program).value);
      && r.programCounter == PROGRAM_ORIGIN
      && r.registerA == 0 && r.registerX == 0 && r.registerY == 0 && r.status == 0
      && ProgramInPlace(r.memory, program)
    ensures PROGRAM_ORIGIN + |program| <= RESET_VECTOR ==>
      Reset(Load(c, program).value).memory[PROGRAM_ORIGIN..PROGRAM_ORIGIN + |program|] == program
  {
    LoadPlacesProgram(c, program);
    var r := Reset(Load(c, program).value);
    if PROGRAM_ORIGIN + |program| <= RESET_VECTOR {
      forall i | 0 <= i < |program|
        ensures r.memory[PROGRAM_ORIGIN..PROGRAM_ORIGIN + |program|][i] == program[i]
      {
        assert OffVector(i);
      }
    }
  }
}

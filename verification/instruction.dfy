/** Instruction descriptors (src/cpu/instruction_set/instruction.rs). */
module Instructions {
  import opened AddressingModes
  import opened Results

  /** The `u8` of the `length` field, as an integer: it takes part only in
      arithmetic, never in bit operations. */
  type Length = n: int | 0 <= n < 0x100

  /** One row of the opcode table. `length` counts the opcode byte itself,
      so an instruction carries `length - 1` operand bytes. */
  datatype Instruction = Instruction(opcode: bv8, mnemonic: string, mode: AddressingMode, length: Length)

  /** `Instruction::new`: stores its four arguments unchanged, with no
      validation of any of them. */
  function New(opcode: bv8, mnemonic: string, mode: AddressingMode, length: Length): (r: Instruction)
    ensures r.opcode == opcode && r.mnemonic == mnemonic
    ensures r.mode == mode && r.length == length
  {
    Instruction(opcode, mnemonic, mode, length)
  }

  /** Number of operand bytes the engine skips after the opcode byte:
      `length - 1`, an unsigned subtraction that fails on length 0. */
  function OperandByteCount(instr: Instruction): (r: Result<Length>)
    ensures r.Ok? <==> instr.length >= 1
    ensures r.Ok? ==> r.value + 1 == instr.length
    ensures r.Err? ==> r.error == LengthUnderflow(instr.opcode)
  {
    if instr.length == 0 then Err(LengthUnderflow(instr.opcode))
    else Ok(instr.length - 1)
  }

  /** The byte length the 6502 encoding gives each addressing mode: the
      opcode byte plus no, one or two operand bytes. */
  function LengthOfMode(mode: AddressingMode): (n: Length)
    ensures 1 <= n <= 3
  {
    match mode
    case Implicit | Accumulator => 1
    case Immediate | ZeroPage | ZeroPageX | ZeroPageY | Relative | IndirectX | IndirectY => 2
    case Absolute | AbsoluteX | AbsoluteY => 3
  }
}

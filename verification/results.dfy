/** The failure outcomes of the emulator. Every place where the source panics
    (an out-of-range memory index, an unsigned overflow, an `expect` on a
    missing opcode, `todo!()`, `panic!`) becomes a distinguishable error. */
module Results {
  import opened AddressingModes

  datatype Error =
    /** An index into the 0xFFFF-byte memory array that is out of bounds. */
    | AddressOutOfRange(addr: int)
    /** `get_operand_address` asked for Implicit or Accumulator. */
    | NoAddress(mode: AddressingMode)
    /** `get_bit_at` asked for a bit position of 8 or more. */
    | BitPositionTooHigh(n: bv8)
    /** The fetched opcode has no descriptor in the instruction table. */
    | UnknownOpcode(opcode: bv8, pc: int)
    /** The opcode has a descriptor but no handler (`todo!()`). */
    | Unimplemented(opcode: bv8)
    /** `length - 1` on a descriptor of length 0. */
    | LengthUnderflow(opcode: bv8)
    /** The unwrapped 16-bit program-counter addition overflows. */
    | PcOverflow(pc: int, delta: int)
    /** `load` was given more bytes than fit between 0x8000 and the end of memory. */
    | ProgramTooLong(len: nat)

  /** A value or an error; usable with `:-`. */
  datatype Result<+T> = Ok(value: T) | Err(error: Error) {
    predicate IsFailure() { Err? }

    function PropagateFailure<U>(): Result<U>
      requires Err?
    {
      Err(error)
    }

    function Extract(): T
      requires Ok?
    {
      value
    }
  }

  datatype Option<+T> = None | Some(value: T)
}

/** The addressing modes an instruction descriptor can name
    (src/cpu/instruction_set/instruction/addressing_mode.rs). */
module AddressingModes {

  /** A closed set of tags; the resolver matches on it exhaustively.
      IndirectX is "indexed indirect" (X is added to the zero-page pointer
      before the dereference), IndirectY is "indirect indexed" (Y is added to
      the word found through the pointer). */
  datatype AddressingMode =
    | Implicit
    | Accumulator
    | Immediate
    | ZeroPage
    | ZeroPageX
    | ZeroPageY
    | Relative
    | Absolute
    | AbsoluteX
    | AbsoluteY
    | IndirectX
    | IndirectY

  /** Every mode, in declaration order, each listed once. */
  function AllModes(): (ms: seq<AddressingMode>)
    ensures |ms| == 12
    ensures forall i, j :: 0 <= i < j < |ms| ==> ms[i] != ms[j]
  {
    [Implicit, Accumulator, Immediate, ZeroPage, ZeroPageX, ZeroPageY,
     Relative, Absolute, AbsoluteX, AbsoluteY, IndirectX, IndirectY]
  }

  /** The set of modes is closed: there are exactly the twelve listed. */
  lemma ModesAreClosed(m: AddressingMode)
    ensures m in AllModes()
  {
    match m
    case Implicit => assert AllModes()[0] == m;
    case Accumulator => assert AllModes()[1] == m;
    case Immediate => assert AllModes()[2] == m;
    case ZeroPage => assert AllModes()[3] == m;
    case ZeroPageX => assert AllModes()[4] == m;
    case ZeroPageY => assert AllModes()[5] == m;
    case Relative => assert AllModes()[6] == m;
    case Absolute => assert AllModes()[7] == m;
    case AbsoluteX => assert AllModes()[8] == m;
    case AbsoluteY => assert AllModes()[9] == m;
    case IndirectX => assert AllModes()[10] == m;
    case IndirectY => assert AllModes()[11] == m;
  }

  /** Modes for which an effective memory address exists. Implicit has no
      operand at all and Accumulator names register A. */
  predicate HasAddress(mode: AddressingMode)
  {
    !(mode.Implicit? || mode.Accumulator?)
  }
}

/** The opcode table and the opcode-to-descriptor map built from it
    (src/cpu/instruction_set.rs). */
module InstructionSet {
  import opened AddressingModes
  import opened Results
  import opened Instructions

  const INSTRUCTION_SET_SIZE: nat := 15

  /** The table as the source declares it. */
  const INSTRUCTION_SET: seq<Instruction> := [
    New(0x29, "AND", Immediate, 2),
    New(0x25, "AND", ZeroPage, 2),
    New(0x35, "AND", ZeroPageX, 2),
    New(0x2D, "AND", Absolute, 3),
    New(0x3D, "AND", AbsoluteX, 3),
    New(0x39, "AND", AbsoluteY, 3),
    New(0x21, "AND", IndirectX, 2),
    New(0x31, "AND", IndirectY, 2),
    New(0x00, "BRK", Implicit, 1),
    New(0xE8, "INX", Implicit, 1),
    New(0xA9, "LDA", Immediate, 2),
    New(0xA2, "LDX", Immediate, 2),
    New(0xA0, "LDY", Immediate, 2),
    New(0xAA, "TAX", Implicit, 1),
    New(0x85, "STA", ZeroPage, 2)
  ]

  /** Descriptors for the opcodes the engine dispatches but the table above
      omits (ASL, BCC, BCS, BEQ, BIT), with their 6502 modes and lengths. */
  const DISPATCHED_BUT_MISSING: seq<Instruction> := [
    New(0x0A, "ASL", Accumulator, 1),
    New(0x06, "ASL", ZeroPage, 2),
    New(0x16, "ASL", ZeroPageX, 2),
    New(0x0E, "ASL", Absolute, 3),
    New(0x1E, "ASL", AbsoluteX, 3),
    New(0x90, "BCC", Relative, 2),
    New(0xB0, "BCS", Relative, 2),
    New(0xF0, "BEQ", Relative, 2),
    New(0x24, "BIT", ZeroPage, 2),
    New(0x2C, "BIT", Absolute, 3)
  ]

  /** The table extended so that every dispatched opcode decodes. */
  const EXTENDED_INSTRUCTION_SET: seq<Instruction> := INSTRUCTION_SET + DISPATCHED_BUT_MISSING

  /** The opcodes a table mentions, as numbers (the map below is keyed by
      the opcode's numeric value). */
  function Opcodes(table: seq<Instruction>): set<int>
  {
    set i | 0 <= i < |table| :: table[i].opcode as int
  }

  /** No opcode appears twice in the table. */
  predicate DistinctOpcodes(table: seq<Instruction>)
  {
    forall i, j :: 0 <= i < j < |table| ==> table[i].opcode != table[j].opcode
  }

  /** Entry `i` is the last one in the table carrying its opcode. */
  predicate LastWithOpcode(table: seq<Instruction>, i: int)
    requires 0 <= i < |table|
  {
    forall j :: i < j < |table| ==> table[j].opcode != table[i].opcode
  }

  /** The opcodes of a non-empty table are those of all but its last entry,
      plus the last entry's. */
  lemma OpcodesSnoc(table: seq<Instruction>)
    requires |table| > 0
    ensures Opcodes(table) == Opcodes(table[..|table| - 1]) + {table[|table| - 1].opcode as int}
  {
    var prefix := table[..|table| - 1];
    assert forall i :: 0 <= i < |prefix| ==> prefix[i] == table[i];
  }

  /** `INSTRUCTION_MAP`: the entries inserted in table order, so a later
      entry with a repeated opcode overwrites an earlier one. Its keys are
      exactly the table's opcodes. */
  function InstructionMap(table: seq<Instruction>): (m: map<int, Instruction>)
    ensures m.Keys == Opcodes(table)
  {
    if |table| == 0 then map[]
    else
      var prefix := table[..|table| - 1];
      var last := table[|table| - 1];
      OpcodesSnoc(table);
      InstructionMap(prefix)[last.opcode as int := last]
  }

  /** Each key of the map is bound to an entry of the table with that
      opcode. */
  lemma {:induction false} InstructionMapKeys(table: seq<Instruction>)
    ensures forall o :: o in InstructionMap(table) ==>
      InstructionMap(table)[o].opcode as int == o && InstructionMap(table)[o] in table
  {
    if |table| > 0 {
      var prefix := table[..|table| - 1];
      var last := table[|table| - 1];
      InstructionMapKeys(prefix);
      assert table == prefix + [last];
    }
  }

  /** The entry bound to an opcode is the last entry of the table with that
      opcode: a later entry overwrites an earlier one. */
  lemma {:induction false} InstructionMapLast(table: seq<Instruction>)
    ensures forall i :: 0 <= i < |table| && LastWithOpcode(table, i) ==>
      InstructionMap(table)[table[i].opcode as int] == table[i]
  {
    if |table| > 0 {
      var prefix := table[..|table| - 1];
      var last := table[|table| - 1];
      InstructionMapLast(prefix);
      var m := InstructionMap(table);
      assert m == InstructionMap(prefix)[last.opcode as int := last];
      forall i | 0 <= i < |table| && LastWithOpcode(table, i)
        ensures m[table[i].opcode as int] == table[i]
      {
        if i < |prefix| {
          assert table[i] == prefix[i];
          assert LastWithOpcode(prefix, i);
        }
      }
    }
  }

  /** The loop of the source that fills `INSTRUCTION_MAP`; after `i` rounds
      the map holds exactly the first `i` entries. */
  method BuildInstructionMap(table: seq<Instruction>) returns (m: map<int, Instruction>)
    ensures m == InstructionMap(table)
    ensures m.Keys == Opcodes(table)
  {
    m := map[];
    var i := 0;
    while i < |table|
      invariant 0 <= i <= |table|
      invariant m == InstructionMap(table[..i])
    {
      assert table[..i + 1][..i] == table[..i];
      m := m[table[i].opcode as int := table[i]];
      i := i + 1;
    }
    assert table[..i] == table;
  }

  /** Decode: the descriptor registered for `opcode`, if any. */
  function Decode(table: seq<Instruction>, opcode: bv8): (r: Option<Instruction>)
    ensures r.Some? <==> opcode as int in Opcodes(table)
    ensures r.Some? ==> r.value.opcode == opcode && r.value in table
  {
    var m := InstructionMap(table);
    InstructionMapKeys(table);
    InstructionMapLast(table);
    if opcode as int in m then Some(m[opcode as int]) else None
  }

  /** With distinct opcodes, decoding an entry's opcode returns that entry. */
  lemma DecodeFindsEntry(table: seq<Instruction>, i: int)
    requires DistinctOpcodes(table)
    requires 0 <= i < |table|
    ensures Decode(table, table[i].opcode) == Some(table[i])
  {
    assert LastWithOpcode(table, i);
  }

  /** With distinct opcodes the opcode set has one element per entry. */
  lemma {:induction false} DistinctOpcodesCount(table: seq<Instruction>)
    requires DistinctOpcodes(table)
    ensures |Opcodes(table)| == |table|
  {
    if |table| > 0 {
      var prefix := table[..|table| - 1];
      var last := table[|table| - 1];
      assert forall i :: 0 <= i < |prefix| ==> prefix[i] == table[i];
      assert DistinctOpcodes(prefix);
      DistinctOpcodesCount(prefix);
      OpcodesSnoc(table);
      assert last.opcode as int !in Opcodes(prefix) by {
        forall i | 0 <= i < |prefix| ensures prefix[i].opcode as int != last.opcode as int {
          assert prefix[i].opcode != last.opcode;
        }
      }
    }
  }

  /** With distinct opcodes building the map overwrites nothing: it has as
      many keys as the table has entries. */
  lemma DistinctMapSize(table: seq<Instruction>)
    requires DistinctOpcodes(table)
    ensures |InstructionMap(table)| == |table|
  {
    DistinctOpcodesCount(table);
    assert InstructionMap(table).Keys == Opcodes(table);
  }

  /** Every descriptor's length is the one its mode implies. */
  predicate LengthsFollowModes(table: seq<Instruction>)
  {
    forall i :: 0 <= i < |table| ==> table[i].length == LengthOfMode(table[i].mode)
  }

  /** Position of `opcode` in the declared table, or -1 when it is absent: an
      independent statement of which opcodes the table registers. */
  function DeclaredIndex(opcode: bv8): int
  {
    match opcode
    case 0x29 => 0 case 0x25 => 1 case 0x35 => 2 case 0x2D => 3
    case 0x3D => 4 case 0x39 => 5 case 0x21 => 6 case 0x31 => 7
    case 0x00 => 8 case 0xE8 => 9 case 0xA9 => 10 case 0xA2 => 11
    case 0xA0 => 12 case 0xAA => 13 case 0x85 => 14
    case _ => -1
  }

  /** Position of `opcode` among the descriptors the declared table omits, or -1. */
  function MissingIndex(opcode: bv8): int
  {
    match opcode
    case 0x0A => 0 case 0x06 => 1 case 0x16 => 2 case 0x0E => 3 case 0x1E => 4
    case 0x90 => 5 case 0xB0 => 6 case 0xF0 => 7 case 0x24 => 8 case 0x2C => 9
    case _ => -1
  }

  /** Position of `opcode` in the extended table, or -1. */
  function ExtendedIndex(opcode: bv8): int
  {
    if DeclaredIndex(opcode) >= 0 then DeclaredIndex(opcode)
    else if MissingIndex(opcode) >= 0 then |INSTRUCTION_SET| + MissingIndex(opcode)
    else -1
  }

  /** The declared table's entries sit where `DeclaredIndex` says, have
      mode-conforming lengths, and so carry distinct opcodes. */
  lemma DeclaredTableLayout()
    ensures |INSTRUCTION_SET| == INSTRUCTION_SET_SIZE
    ensures forall i :: 0 <= i < |INSTRUCTION_SET| ==> DeclaredIndex(INSTRUCTION_SET[i].opcode) == i
    ensures LengthsFollowModes(INSTRUCTION_SET)
    ensures DistinctOpcodes(INSTRUCTION_SET)
  {
    forall i | 0 <= i < |INSTRUCTION_SET|
      ensures DeclaredIndex(INSTRUCTION_SET[i].opcode) == i
      ensures INSTRUCTION_SET[i].length == LengthOfMode(INSTRUCTION_SET[i].mode)
    {
      if i < 8 { DeclaredEntryLow(i); } else { DeclaredEntryHigh(i); }
    }
  }

  /** Entries 0 to 7 of the declared table sit where `DeclaredIndex` says. */
  lemma DeclaredEntryLow(i: int)
    requires 0 <= i < 8
    ensures DeclaredIndex(INSTRUCTION_SET[i].opcode) == i
    ensures INSTRUCTION_SET[i].length == LengthOfMode(INSTRUCTION_SET[i].mode)
  {
    if i == 0 {} else if i == 1 {} else if i == 2 {} else if i == 3 {}
    else if i == 4 {} else if i == 5 {} else if i == 6 {} else {}
  }

  /** Entries 8 to 14 of the declared table sit where `DeclaredIndex` says. */
  lemma DeclaredEntryHigh(i: int)
    requires 8 <= i < |INSTRUCTION_SET|
    ensures DeclaredIndex(INSTRUCTION_SET[i].opcode) == i
    ensures INSTRUCTION_SET[i].length == LengthOfMode(INSTRUCTION_SET[i].mode)
  {
    if i == 8 {} else if i == 9 {} else if i == 10 {} else if i == 11 {}
    else if i == 12 {} else if i == 13 {} else {}
  }

  /** The omitted descriptors sit where `MissingIndex` says. */
  lemma MissingLayout()
    ensures |DISPATCHED_BUT_MISSING| == 10
    ensures forall i :: 0 <= i < |DISPATCHED_BUT_MISSING| ==>
      MissingIndex(DISPATCHED_BUT_MISSING[i].opcode) == i && DeclaredIndex(DISPATCHED_BUT_MISSING[i].opcode) == -1
    ensures LengthsFollowModes(DISPATCHED_BUT_MISSING)
  {
    forall i | 0 <= i < |DISPATCHED_BUT_MISSING|
      ensures MissingIndex(DISPATCHED_BUT_MISSING[i].opcode) == i
      ensures DeclaredIndex(DISPATCHED_BUT_MISSING[i].opcode) == -1
      ensures DISPATCHED_BUT_MISSING[i].length == LengthOfMode(DISPATCHED_BUT_MISSING[i].mode)
    {
      if i == 0 {} else if i == 1 {} else if i == 2 {} else if i == 3 {} else if i == 4 {}
      else if i == 5 {} else if i == 6 {} else if i == 7 {} else if i == 8 {} else {}
    }
  }

  /** The extended table's entries sit where `ExtendedIndex` says. */
  lemma ExtendedTableLayout()
    ensures |EXTENDED_INSTRUCTION_SET| == 25
    ensures forall i :: 0 <= i < |EXTENDED_INSTRUCTION_SET| ==>
      ExtendedIndex(EXTENDED_INSTRUCTION_SET[i].opcode) == i
    ensures LengthsFollowModes(EXTENDED_INSTRUCTION_SET)
    ensures DistinctOpcodes(EXTENDED_INSTRUCTION_SET)
  {
    DeclaredTableLayout();
    MissingLayout();
    var t := EXTENDED_INSTRUCTION_SET;
    forall i | 0 <= i < |t|
      ensures ExtendedIndex(t[i].opcode) == i
      ensures t[i].length == LengthOfMode(t[i].mode)
    {
      if i < |INSTRUCTION_SET| {
        assert t[i] == INSTRUCTION_SET[i];
      } else {
        assert t[i] == DISPATCHED_BUT_MISSING[i - |INSTRUCTION_SET|];
      }
    }
  }

  /** A table whose entries each sit at the position `index` gives them
      has distinct opcodes, and an opcode `index` sends to -1 does not decode. */
  lemma DecodeByIndex(table: seq<Instruction>, index: bv8 -> int, opcode: bv8)
    requires forall i :: 0 <= i < |table| ==> index(table[i].opcode) == i
    ensures DistinctOpcodes(table)
    ensures index(opcode) == -1 ==> Decode(table, opcode).None?
  {
    if index(opcode) == -1 {
      forall i | 0 <= i < |table|
        ensures table[i].opcode as int != opcode as int
      {
        assert index(table[i].opcode) == i;
      }
    }
  }

  /** `DeclaredIndex` points at the entry carrying the opcode. */
  lemma DeclaredIndexInverse(opcode: bv8)
    requires DeclaredIndex(opcode) >= 0
    ensures DeclaredIndex(opcode) < |INSTRUCTION_SET|
    ensures INSTRUCTION_SET[DeclaredIndex(opcode)].opcode == opcode
  {
    var k := DeclaredIndex(opcode);
    if k == 0 {} else if k == 1 {} else if k == 2 {} else if k == 3 {} else if k == 4 {}
    else if k == 5 {} else if k == 6 {} else if k == 7 {} else if k == 8 {} else if k == 9 {}
    else if k == 10 {} else if k == 11 {} else if k == 12 {} else if k == 13 {} else {}
  }

  /** `MissingIndex` points at the entry carrying the opcode. */
  lemma MissingIndexInverse(opcode: bv8)
    requires MissingIndex(opcode) >= 0
    ensures MissingIndex(opcode) < |DISPATCHED_BUT_MISSING|
    ensures DISPATCHED_BUT_MISSING[MissingIndex(opcode)].opcode == opcode
  {
    var k := MissingIndex(opcode);
    if k == 0 {} else if k == 1 {} else if k == 2 {} else if k == 3 {} else if k == 4 {}
    else if k == 5 {} else if k == 6 {} else if k == 7 {} else if k == 8 {} else {}
  }

  /** An opcode `DeclaredIndex` places decodes, with the declared table, to the
      entry at that place. */
  lemma DecodeDeclaredHit(opcode: bv8)
    requires DeclaredIndex(opcode) >= 0
    ensures Decode(INSTRUCTION_SET, opcode) == Some(INSTRUCTION_SET[DeclaredIndex(opcode)])
  {
    DeclaredIndexInverse(opcode);
    DeclaredTableLayout();
    DecodeFindsEntry(INSTRUCTION_SET, DeclaredIndex(opcode));
  }

  /** An opcode `DeclaredIndex` does not place is a decode miss. */
  lemma DecodeDeclaredMiss(opcode: bv8)
    requires DeclaredIndex(opcode) == -1
    ensures Decode(INSTRUCTION_SET, opcode).None?
  {
    DeclaredTableLayout();
    DecodeByIndex(INSTRUCTION_SET, DeclaredIndex, opcode);
  }

  /** An opcode `ExtendedIndex` places decodes, with the extended table, to
      the entry at that place. */
  lemma DecodeExtendedHit(opcode: bv8)
    requires ExtendedIndex(opcode) >= 0
    ensures Decode(EXTENDED_INSTRUCTION_SET, opcode) == Some(EXTENDED_INSTRUCTION_SET[ExtendedIndex(opcode)])
  {
    var k := ExtendedIndex(opcode);
    if DeclaredIndex(opcode) >= 0 {
      DeclaredIndexInverse(opcode);
      assert EXTENDED_INSTRUCTION_SET[k] == INSTRUCTION_SET[k];
    } else {
      MissingIndexInverse(opcode);
      assert EXTENDED_INSTRUCTION_SET[k] == DISPATCHED_BUT_MISSING[k - |INSTRUCTION_SET|];
    }
    ExtendedTableLayout();
    DecodeFindsEntry(EXTENDED_INSTRUCTION_SET, k);
  }

  /** An opcode `ExtendedIndex` does not place is a decode miss. */
  lemma DecodeExtendedMiss(opcode: bv8)
    requires ExtendedIndex(opcode) == -1
    ensures Decode(EXTENDED_INSTRUCTION_SET, opcode).None?
  {
    ExtendedTableLayout();
    DecodeByIndex(EXTENDED_INSTRUCTION_SET, ExtendedIndex, opcode);
  }

  /** The declared table registers 15 distinct opcodes, so its map has 15 keys;
      every length is the mode's, hence at least 1. */
  lemma DeclaredTableFacts()
    ensures |InstructionMap(INSTRUCTION_SET)| == INSTRUCTION_SET_SIZE
    ensures forall i :: 0 <= i < |INSTRUCTION_SET| ==> INSTRUCTION_SET[i].length >= 1
  {
    DeclaredTableLayout();
    DistinctMapSize(INSTRUCTION_SET);
  }

  /** The declared table misses 0x02 and every ASL, branch and BIT opcode the
      engine dispatches; the extended table has them. */
  lemma DeclaredTableMisses()
    ensures Decode(INSTRUCTION_SET, 0x02).None?
    ensures forall i :: 0 <= i < |DISPATCHED_BUT_MISSING| ==>
      Decode(INSTRUCTION_SET, DISPATCHED_BUT_MISSING[i].opcode).None?
      && Decode(EXTENDED_INSTRUCTION_SET, DISPATCHED_BUT_MISSING[i].opcode).Some?
  {
    DecodeDeclaredMiss(0x02);
    MissingLayout();
    forall i | 0 <= i < |DISPATCHED_BUT_MISSING|
      ensures Decode(INSTRUCTION_SET, DISPATCHED_BUT_MISSING[i].opcode).None?
      ensures Decode(EXTENDED_INSTRUCTION_SET, DISPATCHED_BUT_MISSING[i].opcode).Some?
    {
      DecodeDeclaredMiss(DISPATCHED_BUT_MISSING[i].opcode);
      DecodeExtendedHit(DISPATCHED_BUT_MISSING[i].opcode);
    }
  }
}

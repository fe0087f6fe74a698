# cpu6502 — a verified model of the emulator core

This project models the core of a small MOS 6502 emulator written in Rust. The
CPU has three 8-bit registers (A, X, Y), an 8-bit status byte and a 16-bit
program counter. Its memory is a flat array of 0xFFFF bytes.

It implements a subset of the instruction set:

- AND, in all eight of its addressing modes;
- ASL;
- BCC, BCS and BEQ;
- BIT;
- LDA, LDX and LDY;
- STA;
- TAX and INX;
- BRK, which stops the run.

The model is written as pure functions over an immutable `CPU` record. Every
place where the original panics becomes an `Err` value of one `Error` type. That
includes:

- a memory index past the end of the array;
- an opcode missing from the instruction table;
- the `todo!()` dispatch arm;
- `get_operand_address` called with Implicit or Accumulator;
- `get_bit_at` called with a bit position above 7;
- an unsigned overflow of the program counter.

The modules follow the source files:

| module | file | content |
|---|---|---|
| `Results` | `results.dfy` | the error type, `Result` and `Option` |
| `Util` | `util.dfy` | `get_bit_at` (src/util.rs) |
| `StatusFlags` | `status_flag.dfy` | the flag masks (src/cpu/status_flag.rs) and the flag helpers of src/cpu.rs |
| `AddressingModes` | `addressing_mode.dfy` | the twelve addressing modes |
| `Instructions` | `instruction.dfy` | the instruction descriptor and `Instruction::new` |
| `InstructionSet` | `instruction_set.dfy` | `INSTRUCTION_SET`, and `INSTRUCTION_MAP` as a map built from that sequence |
| `Memory` | `memory.dfy` | `mem_read`, `mem_write`, `mem_read_u16` and `mem_write_u16` |
| `Cpu` | `cpu.dfy` | the register file, `new`, `reset` and `load` |
| `Addressing` | `addressing.dfy` | `get_operand_address` and `get_operand_value` |
| `Handlers` | `handlers.dfy` | one function per opcode handler |
| `Engine` | `engine.dfy` | the loop body of `run` as a single step, a fuel-bounded `run`, and `load_and_run` |
| `Scenarios` | `scenarios.dfy` | the unit-test programs of src/cpu.rs, run through `load_and_run` for every value of their immediate operand and from any CPU |

The step takes the instruction table as a parameter. Two tables are modelled:

- the 15-entry table the source declares;
- that table extended with descriptors for the ten opcodes that `run` dispatches
  but the table omits (see Findings).

The branch-target helper `util::get_address_from_offset` is not part of this
model. Every definition that needs it takes it as a function parameter `offset`.

## Model

| member | source | states |
|---|---|---|
| Util.GetBitAt | src/util.rs:1-7 | an error exactly for bit positions 8 and above; otherwise true exactly when bit `n` of the input is 1 |
| Util.GetBitSevenIsSign | src/util.rs:2-3 | bit 7 is set exactly for the bytes 0x80..0xFF |
| Util.GetBitSixIsMask | src/util.rs:2-3 | bit 6 is set exactly when the byte ANDed with 0x40 is non-zero |
| StatusFlags.Mask | src/cpu/status_flag.rs:1-6 | each flag's mask has exactly one bit set, at the flag's position, and no mask lies in bits 2 to 5 |
| StatusFlags.Position | src/cpu/status_flag.rs:2-5 | the flags sit at bits 0, 1, 6 and 7, all below 8 |
| StatusFlags.MaskValues | src/cpu/status_flag.rs:2-5 | Carry, Zero, Overflow and Negative are 0x01, 0x02, 0x40 and 0x80 |
| StatusFlags.MasksDisjoint | src/cpu/status_flag.rs:2-5 | two masks share a bit exactly when they belong to the same flag |
| StatusFlags.IsFlagSetReadsPosition | src/cpu.rs:78-81 | `is_flag_set` agrees with `get_bit_at` at the flag's bit position |
| StatusFlags.SetStatusBit | src/cpu.rs:70-72 | afterwards the flag is set and every other bit is as before |
| StatusFlags.UnsetStatusBit | src/cpu.rs:74-76 | afterwards the flag is clear and every other bit is as before |
| StatusFlags.UpdateFlag | src/cpu.rs:109-115 | afterwards the flag reads `should_set` and every other bit is as before |
| StatusFlags.UpdateCarryFlag | src/cpu.rs:101-107 | afterwards Carry reads `should_set` and every other bit is as before |
| StatusFlags.UpdateZeroFlag | src/cpu.rs:83-89 | Zero is set exactly when the result is 0; every other bit is as before |
| StatusFlags.UpdateZeroAndNegativeFlags | src/cpu.rs:91-99 | Zero is set exactly for a zero result and Negative exactly for a result of 0x80 or more; Carry, Overflow and bits 2 to 5 keep their values |
| StatusFlags.ZeroNegativeKeepsCarryAndOverflow | src/cpu.rs:91-99 | Carry and Overflow survive the Zero/Negative update |
| StatusFlags.OtherFlagsUnaffected | src/cpu.rs:109-115 | updating one flag never changes the reading of another |
| StatusFlags.UpdatesCommute | src/cpu.rs:109-115 | updates of two different flags give the same byte in either order |
| StatusFlags.UpdateIdempotent | src/cpu.rs:109-115 | a second update of the same flag overrides the first |
| StatusFlags.UnnamedBitsUntouched | src/cpu/status_flag.rs:1-6 | no flag helper changes bits 2 to 5, which no flag names |
| AddressingModes.AllModes | src/cpu/instruction_set/instruction/addressing_mode.rs:4-17 | the list of modes has twelve pairwise different entries |
| AddressingModes.ModesAreClosed | src/cpu/instruction_set/instruction/addressing_mode.rs:4-17 | every mode is one of those twelve |
| Instructions.New | src/cpu/instruction_set/instruction.rs:12-19 | the four fields are stored unchanged, whatever their values |
| Instructions.OperandByteCount | src/cpu.rs:335-337 | the operand bytes skipped number `length - 1`; the subtraction fails exactly for length 0 |
| Instructions.LengthOfMode | src/cpu/instruction_set.rs:12-40 | the 6502 length of each mode, one byte of opcode plus up to two of operand, always between 1 and 3 |
| InstructionSet.InstructionMap | src/cpu/instruction_set.rs:43-54 | the map's keys are exactly the opcodes that occur in the table |
| InstructionSet.InstructionMapKeys | src/cpu/instruction_set.rs:46-51 | every key is bound to a table entry carrying that opcode |
| InstructionSet.InstructionMapLast | src/cpu/instruction_set.rs:46-51 | a key is bound to the last table entry with its opcode, because later inserts overwrite earlier ones |
| InstructionSet.BuildInstructionMap | src/cpu/instruction_set.rs:44-53 | the insertion loop builds the map of the whole table; after `i` rounds it holds the first `i` entries |
| InstructionSet.Decode | src/cpu.rs:287-289 | the lookup finds an entry exactly for opcodes in the table, and the entry it returns carries the requested opcode |
| InstructionSet.DecodeFindsEntry | src/cpu/instruction_set.rs:43-54 | with pairwise distinct opcodes, looking up an entry's opcode returns that entry |
| InstructionSet.DistinctOpcodesCount | src/cpu/instruction_set.rs:43-54 | with distinct opcodes there are as many opcodes as entries |
| InstructionSet.DistinctMapSize | src/cpu/instruction_set.rs:43-54 | with distinct opcodes the built map overwrites nothing and has one key per entry |
| InstructionSet.DeclaredTableLayout | src/cpu/instruction_set.rs:7-41 | the declared table has `INSTRUCTION_SET_SIZE` = 15 entries with pairwise distinct opcodes, and every length is the one its mode implies |
| InstructionSet.MissingLayout | src/cpu.rs:298-311 | the ten ASL, branch and BIT descriptors that the dispatch needs are all absent from the declared table, and their lengths follow their modes |
| InstructionSet.ExtendedTableLayout | src/cpu/instruction_set.rs:10-41 | the extended table has 25 entries with distinct opcodes and mode-conforming lengths |
| InstructionSet.DecodeByIndex | src/cpu/instruction_set.rs:43-54 | a table whose entries are placed by a position function has distinct opcodes, and an opcode without a position is a miss |
| InstructionSet.DecodeDeclaredHit | src/cpu/instruction_set.rs:10-41 | each of the 15 declared opcodes decodes to its own row |
| InstructionSet.DecodeDeclaredMiss | src/cpu/instruction_set.rs:10-41 | every other opcode fails to decode with the declared table |
| InstructionSet.DecodeExtendedHit | src/cpu/instruction_set.rs:10-41 | each of the 25 opcodes of the extended table decodes to its own row |
| InstructionSet.DecodeExtendedMiss | src/cpu/instruction_set.rs:10-41 | every other opcode fails to decode with the extended table |
| InstructionSet.DeclaredTableFacts | src/cpu/instruction_set.rs:7-54 | the declared map has 15 keys, and every declared length is at least 1 |
| InstructionSet.DeclaredTableMisses | src/cpu/instruction_set.rs:10-41 | 0x02 and every ASL, BCC, BCS, BEQ and BIT opcode is missing from the declared map but present in the extended one |
| Memory.LowByte | src/cpu.rs:45 | the low byte of a word is its remainder by 256 |
| Memory.HighByte | src/cpu.rs:44 | the high byte of a word is its quotient by 256 |
| Memory.JoinSplit | src/cpu.rs:37-48 | splitting a word into bytes and joining them little-endian gives the word back |
| Memory.JoinDivMod | src/cpu.rs:37-41 | the word `from_le_bytes` builds has `lo` as remainder and `hi` as quotient by 256 |
| Memory.SplitJoin | src/cpu.rs:37-48 | joining two bytes and splitting the word gives the two bytes back |
| Memory.MemRead | src/cpu.rs:29-31 | reads the byte at the address, and fails exactly at address 0xFFFF, which lies past the 0xFFFF-byte array |
| Memory.MemWrite | src/cpu.rs:33-35 | only the addressed byte changes, to the data; fails exactly at 0xFFFF |
| Memory.MemReadU16 | src/cpu.rs:37-41 | the low byte comes from `pos` and the high byte from `pos + 1`; it fails when either lies past the array |
| Memory.MemWriteU16 | src/cpu.rs:43-48 | the low byte goes to `pos` and the high byte to `pos + 1`; no other byte changes |
| Memory.WriteThenReadU16 | src/cpu.rs:37-48 | a word written with `mem_write_u16` reads back unchanged with `mem_read_u16` |
| Memory.ReadThenWriteU16 | src/cpu.rs:37-48 | writing back the word just read leaves memory unchanged |
| Cpu.New | src/cpu.rs:18-27 | every register, the status, the program counter and every memory byte start at zero |
| Cpu.Reset | src/cpu.rs:50-57 | A, X, Y and the status become zero; the program counter becomes the little-endian word at 0xFFFC; memory is untouched |
| Cpu.Load | src/cpu.rs:59-62 | it fails exactly when the program does not fit below 0xFFFF; it writes 0x8000 to the reset vector and changes no register |
| Cpu.LoadPlacesProgram | src/cpu.rs:59-62 | the program lies at 0x8000 onwards, except that the reset vector (0x8000, written after the copy) replaces program bytes 0x7FFC and 0x7FFD of a program that reaches 0xFFFC; every byte outside the program area and the vector is unchanged |
| Cpu.LoadThenReset | src/cpu.rs:64-66 | for every program that fits, after `load` and `reset` execution starts at 0x8000 with zeroed registers and the program in place, the reset vector aside; a program ending before 0xFFFC is in place whole |
| Addressing.WrappingAdd8 | src/cpu.rs:125-135 | `u8::wrapping_add` is the sum reduced once into 0..0xFF |
| Addressing.WrappingAdd8Mod | src/cpu.rs:125-135 | the wrapping byte sum is the sum modulo 256 |
| Addressing.WrappingAdd16 | src/cpu.rs:137-147 | `u16::wrapping_add` is the sum reduced once into 0..0xFFFF |
| Addressing.ZeroPageWordRead | src/cpu.rs:153-155 | the pointer's high byte is read from `(ptr + 1) mod 256`, so it never leaves page zero |
| Addressing.ZeroPageIndexed | src/cpu.rs:125-135 | ZeroPageX/Y give the operand byte plus the index modulo 256, which is always below 0x100 |
| Addressing.AbsoluteIndexed | src/cpu.rs:137-147 | AbsoluteX/Y give the operand word plus the index modulo 0x10000 |
| Addressing.IndexedIndirect | src/cpu.rs:149-156 | IndirectX adds X to the zero-page pointer before it reads the word through it |
| Addressing.IndirectIndexed | src/cpu.rs:158-166 | IndirectY reads the word through the zero-page pointer, then adds Y to it |
| Addressing.GetOperandAddress | src/cpu.rs:117-172 | Implicit and Accumulator have no address; Immediate and Relative give the program counter; ZeroPage and Absolute read one or two operand bytes; a mode fails exactly when its operand bytes run past memory |
| Addressing.GetOperandValue | src/cpu.rs:174-182 | gives register A in Accumulator mode, otherwise the byte at the resolved address, failing exactly when that address fails or lies past memory |
| Addressing.ImmediateReadsOperand | src/cpu.rs:117-119 | an Immediate operand is the byte at the program counter |
| Addressing.ImmediateIsRelative | src/cpu.rs:119 | Immediate and Relative resolve identically, to the program counter |
| Addressing.ZeroPageIndexWraps | src/cpu.rs:125-135 | zero-page base 0xFF plus index 1 is 0x00, not 0x100 |
| Addressing.AbsoluteIndexWraps | src/cpu.rs:137-147 | absolute base 0xFFFF plus index 1 is 0x0000 |
| Addressing.ZeroIndexIsPlain | src/cpu.rs:121-147 | with both indexes zero, the indexed modes agree with ZeroPage and Absolute |
| Addressing.ZeroIndexIndirectAgree | src/cpu.rs:149-166 | with both indexes zero, IndirectX and IndirectY give the same address |
| Addressing.IndexedIndirectExample | src/cpu.rs:513-520 | pointer 0x10 plus X = 4 reaches the word 0x1234 stored at 0x14 |
| Addressing.IndirectIndexedExample | src/cpu.rs:522-530 | the word 0x1234 at pointer 0x10, plus Y = 4, is 0x1238 |
| Addressing.ResolverIgnoresAccumulatorAndStatus | src/cpu.rs:117-182 | the resolver does not depend on A or the status byte (A is read only in Accumulator mode) |
| Addressing.ResolverIgnoresStatus | src/cpu.rs:200-209 | ASL's second address resolution, made after the flags change, gives the first address |
| Handlers.WriteRegister | src/cpu.rs:257-265 | the named register takes the value; the other registers, the status, the program counter and memory keep theirs |
| Handlers.LoadWith | src/cpu.rs:252-265 | the register holds the loaded byte; Zero and Negative follow it; nothing else changes |
| Handlers.LoadRegister | src/cpu.rs:252-265 | LDA, LDX and LDY fail exactly when the operand read fails; otherwise they load the operand |
| Handlers.LoadImmediate | src/cpu.rs:252-255 | a load in Immediate mode takes the byte at the program counter |
| Handlers.AndKeepsCommonBits | src/cpu.rs:192 | a bit of `a & m` is set exactly when it is set in both |
| Handlers.AndWith | src/cpu.rs:189-194 | A keeps exactly the bits it shares with the operand; Zero and Negative follow the new A; only A and the status change |
| Handlers.And | src/cpu.rs:189-194 | AND fails exactly when the operand read fails, otherwise it ANDs the operand into A |
| Handlers.AndIsIdempotent | src/cpu.rs:189-194 | a second AND with the same memory operand leaves A as the first one did |
| Handlers.Tax | src/cpu.rs:267-270 | X becomes A, Zero and Negative follow it, only X and the status change |
| Handlers.TaxIgnoresPc | src/cpu.rs:267-270 | TAX's effect does not depend on the program counter |
| Handlers.ZeroNegativeTwice | src/cpu.rs:91-99 | updating Zero and Negative twice from the same value is updating them once |
| Handlers.LdaThenTax | src/cpu.rs:252-270 | LDA then TAX puts the byte in A and X, with the status a direct load into X would leave |
| Handlers.Inx | src/cpu.rs:247-250 | X grows by one modulo 256; Zero and Negative follow the new X; only X and the status change |
| Handlers.InxIgnoresPc | src/cpu.rs:247-250 | INX's effect does not depend on the program counter |
| Handlers.InxWraps | src/cpu.rs:377-383 | INX at X = 0xFF gives 0 with Zero set and Negative clear |
| Handlers.InxFlags | src/cpu.rs:247-250 | after INX, Zero is set exactly for X = 0xFF before, and Negative exactly for X in 0x7F..0xFE |
| Handlers.Sta | src/cpu.rs:272-275 | A is written to the resolved address, and no register, flag or other byte changes; STA fails exactly when the address fails or lies past memory |
| Handlers.StaThenLoad | src/cpu.rs:252-275 | a load through the same mode after STA reads back A, unless the store overwrote its own pointer bytes |
| Handlers.StaNeedsAddress | src/cpu.rs:168-170 | STA in Implicit or Accumulator mode is the no-address error |
| Handlers.LoadWithIgnoresPc | src/cpu.rs:252-265 | a load's effect does not depend on the program counter |
| Handlers.AslFlagsShift | src/cpu.rs:196-201 | the carry-out bit followed by the result byte is twice the operand; Carry is bit 7 of the operand; Zero and Negative follow the result; Overflow is kept |
| Handlers.AslOnAccumulatorShifts | src/cpu.rs:196-206 | ASL A leaves the shifted value in A and changes only A and the status |
| Handlers.AslOnAccumulatorIgnoresPc | src/cpu.rs:196-206 | ASL A does not depend on the program counter |
| Handlers.AslAtShifts | src/cpu.rs:196-211 | ASL on memory writes the shifted byte back where it was read, and changes only that byte and the status |
| Handlers.Asl | src/cpu.rs:196-212 | ASL fails exactly when the operand read fails; it shifts A in Accumulator mode and otherwise the byte at the operand's address |
| Handlers.AslAccumulatorSucceeds | src/cpu.rs:203-206 | ASL in Accumulator mode cannot fail |
| Handlers.AslShiftsOutTopBit | src/cpu.rs:196-206 | ASL of 0x80 in A leaves 0, with Carry and Zero set |
| Handlers.BitFlagsStatus | src/cpu.rs:232-245 | BIT sets Zero exactly when A and the operand share no bit, copies bits 6 and 7 of the operand into Overflow and Negative, and keeps Carry and bits 2 to 5 |
| Handlers.BitWith | src/cpu.rs:239-244 | BIT changes only the status byte, leaving A unchanged |
| Handlers.Bit | src/cpu.rs:232-245 | BIT fails exactly when the operand read fails; otherwise it tests A against the operand |
| Handlers.BitWithFullMask | src/cpu.rs:239-242 | with A = 0xFF, BIT sets Zero exactly for a zero operand |
| Handlers.Branch | src/cpu.rs:184-187 | the new program counter is `offset` applied to the program counter and the byte there; only the program counter changes |
| Handlers.BranchIf | src/cpu.rs:214-230 | a branch whose condition fails leaves the state untouched; one whose condition holds jumps; only the program counter can change |
| Handlers.Bcc | src/cpu.rs:214-218 | BCC jumps exactly when Carry is clear |
| Handlers.Bcs | src/cpu.rs:220-224 | BCS jumps exactly when Carry is set |
| Handlers.Beq | src/cpu.rs:226-230 | BEQ jumps exactly when Zero is set |
| Handlers.BccBcsComplementary | src/cpu.rs:214-224 | in every state one of BCC and BCS jumps and the other does nothing |
| Engine.ArmOf | src/cpu.rs:292-331 | each opcode is matched to the arm that lists it: the eight AND opcodes, the five ASL opcodes, the two BIT opcodes and the three branches; `todo!()` exactly for the opcodes no arm lists |
| Engine.RunArm | src/cpu.rs:292-331 | each arm runs its own handler (AND, ASL, BIT, LDA/LDX/LDY and STA with the table's mode, the branches with the offset helper, TAX, INX); only the `todo!()` arm has no outcome |
| Engine.Execute | src/cpu.rs:292-331 | the dispatch has an arm exactly for the 24 opcodes of AND, ASL, BCC, BCS, BEQ, BIT, LDA, LDX, LDY, STA, TAX and INX; every other non-BRK opcode reaches `todo!()` |
| Engine.ExecuteKeepsPc | src/cpu.rs:292-331 | no handler except the branches moves the program counter |
| Engine.ExecuteKeepsMemory | src/cpu.rs:292-331 | only STA and ASL on memory write memory |
| Engine.Advance | src/cpu.rs:333-337 | when the handler left the program counter where the fetch put it, `length - 1` is added, failing on length 0 or past 0xFFFF; otherwise the program counter stays where the handler put it |
| Engine.StepWith | src/cpu.rs:277-338 | a step fails at an unreadable program counter and at an opcode missing from the table; it halts exactly at a BRK the table registers, one byte past it |
| Engine.StepReportsHandlerFailure | src/cpu.rs:292-331 | a handler's failure is the step's failure |
| Engine.StepWithFails | src/cpu.rs:292-331 | for any dispatch, a failing arm makes the step fail with its error |
| Engine.StepUnimplemented | src/cpu.rs:330 | a registered opcode without a dispatch arm fails as unimplemented |
| Engine.ExecuteBranch | src/cpu.rs:301-308 | 0x90, 0xB0 and 0xF0 branch on Carry clear, Carry set and Zero set |
| Engine.ExecuteLda | src/cpu.rs:313-314 | 0xA9 loads A |
| Engine.ExecuteLdx | src/cpu.rs:316-317 | 0xA2 loads X |
| Engine.ExecuteTax | src/cpu.rs:326 | 0xAA is TAX |
| Engine.ExecuteInx | src/cpu.rs:327 | 0xE8 is INX |
| Engine.ExecuteAsl | src/cpu.rs:298-299 | the five ASL opcodes all go to ASL with their table mode |
| Engine.ExecuteAslAccumulator | src/cpu.rs:299 | 0x0A in Accumulator mode always shifts A |
| Engine.ExecuteLdaImmediate | src/cpu.rs:314 | LDA #imm loads the byte at the program counter |
| Engine.ExecuteLdxImmediate | src/cpu.rs:317 | LDX #imm loads the byte at the program counter |
| Engine.StepWithExecutes | src/cpu.rs:292-337 | a successful arm is followed by the program-counter rule |
| Engine.StepExecutes | src/cpu.rs:292-337 | for `run`'s dispatch, a successful handler is followed by the program-counter rule |
| Engine.StepSkipsOperands | src/cpu.rs:277-337 | a non-branch instruction of length `L` fetched at `p` continues at `p + L` with the handler's effect; it fails only on `L` = 0 or past 0xFFFF |
| Engine.StepBranch | src/cpu.rs:277-337 | a branch not taken continues at `p + L`; a taken branch continues at `offset(p + 1, mem[p + 1])`, except that a target equal to `p + 1` still gets `L - 1` added |
| Engine.StepBranchNotTaken | src/cpu.rs:333-337 | a branch not taken skips its operand like any instruction |
| Engine.StepBranchTaken | src/cpu.rs:184-187 | a taken branch continues at the computed target, unless that target equals the fetched program counter |
| Engine.StepBranchWithoutOperand | src/cpu.rs:184-186 | a taken branch at 0xFFFE fails reading its offset byte |
| Engine.DispatchedDecodesExtended | src/cpu.rs:292-331 | every dispatched opcode decodes with the extended table |
| Engine.DispatchedDecodesDeclared | src/cpu.rs:287-311 | the declared table misses a dispatched opcode exactly when it is an ASL, branch or BIT opcode |
| Engine.DispatchCoversTables | src/cpu.rs:287-331 | every declared opcode except BRK has an arm; every dispatched opcode decodes with the extended table; the declared table misses exactly the ASL, branch and BIT arms |
| Engine.LoopMoreFuel | src/cpu.rs:277-339 | more fuel never changes a loop that has ended |
| Engine.LoopComposes | src/cpu.rs:277-339 | running `a + b` passes is running `a` passes, then `b` more from where they stopped |
| Engine.LoopFinishesHalted | src/cpu.rs:277-339 | a loop can only finish in a state its body halts with |
| Engine.RunWith | src/cpu.rs:277-339 | a finished run stops one byte past a BRK of its final memory |
| Engine.RunWithStep | src/cpu.rs:278-338 | a run is its first step followed by the rest of the run, or its end |
| Engine.RunStep | src/cpu.rs:278-338 | `run` is its first step followed by the rest of the run, or its end |
| Engine.RunUnknownOpcode | src/cpu.rs:287-289 | an opcode missing from the table ends the run with the unknown-opcode error at its address |
| Engine.RunMoreFuel | src/cpu.rs:277-339 | more fuel never changes a run that has ended |
| Engine.LoadAndRun | src/cpu.rs:64-68 | a program too long for the space from 0x8000 to 0xFFFF makes `load_and_run` fail before anything runs |
| Engine.LoadAndRunStart | src/cpu.rs:64-68 | every program that fits is run from 0x8000 with zeroed registers and status and the program in place, the reset vector over program bytes 0x7FFC and 0x7FFD |
| Scenarios.LdaDeclared | src/cpu/instruction_set.rs:28 | the declared table registers LDA #imm at 0xA9 with length 2 |
| Scenarios.TaxDeclared | src/cpu/instruction_set.rs:37 | the declared table registers TAX at 0xAA with length 1 |
| Scenarios.InxDeclared | src/cpu/instruction_set.rs:25 | the declared table registers INX at 0xE8 with length 1 |
| Scenarios.BrkDeclared | src/cpu/instruction_set.rs:22 | the declared table registers BRK at 0x00 |
| Scenarios.ExtensionKeepsDeclared | src/cpu/instruction_set.rs:10-54 | extending the table keeps every registration of the declared one |
| Scenarios.AslExtended | src/cpu.rs:299 | the extended table registers ASL A at 0x0A with length 1 |
| Scenarios.AslUndeclared | src/cpu/instruction_set.rs:10-41 | the declared table has no entry for 0x0A |
| Scenarios.LdaExtended | src/cpu/instruction_set.rs:28 | the extended table registers LDA #imm |
| Scenarios.BrkExtended | src/cpu/instruction_set.rs:22 | the extended table registers BRK |
| Scenarios.DispatchLdaAt | src/cpu.rs:314 | after the fetch of 0xA9 at `p`, A holds the byte at `p + 1` |
| Scenarios.DispatchTaxAt | src/cpu.rs:326 | after the fetch of 0xAA, A is copied to X |
| Scenarios.DispatchInxAt | src/cpu.rs:327 | after the fetch of 0xE8, X is incremented |
| Engine.DispatchAslAccumulator | src/cpu.rs:299 | 0x0A in Accumulator mode shifts A left, whatever the program counter |
| Scenarios.StepTwoBytes | src/cpu.rs:280-337 | a registered two-byte instruction at `p` whose arm succeeds continues at `p + 2` |
| Scenarios.StepOneByte | src/cpu.rs:280-337 | a registered one-byte instruction at `p` whose arm succeeds continues at `p + 1` |
| Scenarios.RunContinues | src/cpu.rs:278-338 | a run whose first step continues goes on from its result |
| Scenarios.RunHaltsAt | src/cpu.rs:328 | a run that reaches a registered BRK finishes one byte past it |
| Scenarios.RunTwoBytes | src/cpu.rs:278-338 | a run starting with a registered two-byte instruction goes on two bytes further |
| Scenarios.RunOneByte | src/cpu.rs:278-338 | a run starting with a registered one-byte instruction goes on one byte further |
| Scenarios.RunLda | src/cpu.rs:314 | LDA #imm at `p` loads the byte at `p + 1` and the run goes on from `p + 2` |
| Scenarios.RunTax | src/cpu.rs:326 | TAX at `p` copies A to X and the run goes on from `p + 1` |
| Scenarios.RunInx | src/cpu.rs:327 | INX at `p` increments X and the run goes on from `p + 1` |
| Scenarios.RunAsl | src/cpu.rs:299 | ASL A at `p` shifts A and the run goes on from `p + 1` |
| Scenarios.LdaBrkRun | src/cpu.rs:347-353 | LDA #v; BRK finishes at 0x8003 with v loaded, for any table that registers both |
| Scenarios.LdaTaxBrkRun | src/cpu.rs:363-367 | LDA #v; TAX; BRK finishes at 0x8004 with v in X |
| Scenarios.InxBrkRun | src/cpu.rs:370-375 | INX; BRK finishes at 0x8002 with X incremented |
| Scenarios.LdaTaxInxBrkRun | src/cpu.rs:402-406 | LDA #v; TAX; INX; BRK finishes at 0x8005 with v + 1 in X |
| Scenarios.LdaTaxInxInxBrkRun | src/cpu.rs:409-413 | LDA #v; TAX; INX; INX; BRK finishes at 0x8006 with v + 2 in X |
| Scenarios.LdaAslBrkRun | src/cpu.rs:544-551 | LDA #v; ASL A; BRK finishes at 0x8004 with A shifted once, for a table that registers ASL A |
| Scenarios.LdaAslAslBrkRun | src/cpu.rs:533-541 | LDA #v; ASL A; ASL A; BRK finishes at 0x8005 with A shifted twice |
| Scenarios.LdaAslAborts | src/cpu.rs:287-289 | with the declared table, LDA #v followed by 0x0A stops at 0x8002 with the unknown-opcode error |
| Scenarios.FreshRun | src/cpu.rs:64-67 | `load_and_run` of any program that fits runs it from 0x8000 with zeroed registers and the program in place, the reset vector aside |
| Scenarios.LdaFromStart | src/cpu.rs:347-353 | the LDA test program finishes with v loaded, from a fresh start |
| Scenarios.LoadFacts | src/cpu.rs:252-255 | LDA #v leaves v in A, Zero exactly for v = 0 and Negative exactly for v of 0x80 or more |
| Scenarios.LdaProgram | src/cpu.rs:347-360 | for every v and every starting CPU, `load_and_run([0xa9, v, 0x00])` finishes with v in A, Zero set iff v = 0 and Negative iff v >= 0x80 |
| Scenarios.LdaTaxFromStart | src/cpu.rs:363-367 | the TAX test program finishes with v in X, from a fresh start |
| Scenarios.TransferFacts | src/cpu.rs:267-270 | LDA #v; TAX leaves v in A and X with Zero and Negative following v |
| Scenarios.LdaTaxProgram | src/cpu.rs:363-367 | for every v and CPU, `load_and_run([0xa9, v, 0xaa, 0x00])` finishes with v in A and X |
| Scenarios.InxFromStart | src/cpu.rs:370-375 | the INX test program finishes with X incremented, from a fresh start |
| Scenarios.IncrementFromZeroFacts | src/cpu.rs:247-250 | INX from X = 0 gives 1 with Zero and Negative clear |
| Scenarios.InxProgram | src/cpu.rs:370-399 | for every starting CPU, whatever X held, `load_and_run([0xe8, 0x00])` finishes with X = 1 and Negative clear |
| Scenarios.LdaTaxInxFromStart | src/cpu.rs:402-406 | LDA #v; TAX; INX; BRK finishes with v + 1 in X, from a fresh start |
| Scenarios.IncrementFacts | src/cpu.rs:247-270 | LDA #v; TAX; INX leaves (v + 1) mod 256 in X, Zero exactly for v = 0xFF and Negative exactly for v in 0x7F..0xFE |
| Scenarios.LdaTaxInxProgram | src/cpu.rs:378-406 | for every v and CPU the program finishes with (v + 1) mod 256 in X: 0xFF wraps to 0 with Zero set, and 0xC0 gives 0xC1 |
| Scenarios.LdaTaxInxInxFromStart | src/cpu.rs:409-413 | LDA #v; TAX; INX; INX; BRK finishes with v + 2 in X, from a fresh start |
| Scenarios.IncrementTwiceFacts | src/cpu.rs:247-270 | LDA #v; TAX; INX; INX leaves (v + 2) mod 256 in X, Zero exactly for v = 0xFE and Negative exactly for v in 0x7E..0xFD |
| Scenarios.LdaTaxInxInxProgram | src/cpu.rs:386-413 | for every v and CPU the program finishes with (v + 2) mod 256 in X: 0xFF gives 1, and 0x7F sets Negative |
| Scenarios.UnknownOpcodeProgram | src/cpu.rs:415-420 | `load_and_run([0x02, 0x00])` fails on any CPU with the unknown-opcode error for 0x02 at 0x8000 |
| Scenarios.UnknownOpcodeFromStart | src/cpu.rs:415-420 | 0x02 at a fresh start ends the run with the unknown-opcode error |
| Scenarios.AslTwiceFromStart | src/cpu.rs:533-541 | with the extended table, LDA #v; ASL A; ASL A; BRK finishes with A shifted twice, from a fresh start |
| Scenarios.LoadThenShiftTwice | src/cpu.rs:196-206 | two ASL A after LDA #v leave v << 2 in A; Carry is bit 6 of v, Zero says bits 0 to 5 of v are clear, and Negative is bit 5 of v |
| Scenarios.AslTwiceProgramDeclared | src/cpu.rs:533-541 | with the declared table, the program of test_0x0a_asl fails at 0x8002 with the unknown-opcode error for 0x0A, for every v and CPU |
| Scenarios.AslTwiceAbortsFromStart | src/cpu.rs:533-541 | with the declared table, that program stops at its first ASL byte |
| Scenarios.AslTwiceProgram | src/cpu.rs:533-541 | with the extended table, for every v and CPU, the program finishes with v << 2 in A and flags from bits 6, 5 and 0 to 5 of v; v = 2 gives 8 with all three flags clear |
| Scenarios.LoadThenShift | src/cpu.rs:196-206 | ASL A after LDA #v leaves v << 1 in A; Carry is bit 7 of v, Zero says bits 0 to 6 are clear, and Negative is bit 6 of v |
| Scenarios.AslOnceFromStart | src/cpu.rs:544-551 | with the extended table, LDA #v; ASL A; BRK finishes with A shifted once, from a fresh start |
| Scenarios.AslOnceAbortsFromStart | src/cpu.rs:544-551 | with the declared table, that program stops at the ASL byte |
| Scenarios.AslOnceProgramDeclared | src/cpu.rs:544-551 | with the declared table, the program of test_0x0a_asl_overflow fails at 0x8002 for every v and CPU |
| Scenarios.AslOnceProgram | src/cpu.rs:544-551 | with the extended table, for every v and CPU, the program finishes with v << 1 in A; v = 0xFF gives 0xFE with Carry and Negative set and Zero clear |

## Left out

- I/O and panics. There is no printing, and no panic message text. Each panic is an `Error` value. The `todo!()` arm is `Unimplemented`.
- `util::get_address_from_offset` is not part of this model, so its arithmetic is not modelled. Every branch lemma holds for any function passed as `offset`.
- Release-build wrap-around. The plain `+` in `mem_read_u16`, in `mem_write_u16` and in both program-counter increments is modelled as it behaves in a debug build: an overflow is an error, not a wrap. The errors are `AddressOutOfRange` and `PcOverflow`.
- `run` never terminating. `run` loops until it reaches BRK, and a branch can loop forever, so the model runs at most `fuel` passes. A run that has not ended yet is `OutOfFuel`. `Engine.RunMoreFuel` shows that more fuel does not change a run that has ended.
- `lazy_static!` and `HashMap`. `INSTRUCTION_MAP` is a Dafny `map` built from the table in table order. Hashing and static initialisation have no counterpart.
- The `&u8` parameter of `get_bit_at` is taken by value.
- The `Vec` of `load_and_run` is a sequence.
- Program lemmas for some tests. The AND, STA, LDX, LDY, BIT, branch and memory-ASL tests (src/cpu.rs:422-669) are not restated as whole-program lemmas. Each of their instructions is stated at the handler level (`Handlers.And`, `Handlers.Sta`, `Handlers.Bit`, `Handlers.Asl`, `Engine.StepBranch`). The addressing examples of the AND tests are `Addressing.IndexedIndirectExample` and `Addressing.IndirectIndexedExample`.
- Engine.LoadAndRun: its own contract states only the failure for a program that does not fit. Where a fitting program starts is stated by `Engine.LoadAndRunStart` and `Scenarios.FreshRun`.
- Memory.MemWriteU16: its contract does not name the error of a failed write, only when a write fails.
- Things the source does not have: interrupts, the stack, decimal mode and cycle timing.

## Findings

| source | as written | input that shows it | evidently intended | confidence | as-written member | corrected member |
|---|---|---|---|---|---|---|
| src/cpu/instruction_set.rs:10-41 | The instruction table has 15 descriptors and none for ASL (0x0A, 0x06, 0x16, 0x0E, 0x1E), BCC, BCS, BEQ or BIT (0x24, 0x2C). `run` looks the opcode up in the map, and panics on a miss, before it reaches the dispatch arms for these opcodes (src/cpu.rs:287-311). | `load_and_run([0xa9, 0x02, 0x0a, 0x0a, 0x00])`, the program of test_0x0a_asl (src/cpu.rs:533-541), stops at 0x8002 with an unknown-opcode error. The test expects A = 8. | The table registers every dispatched opcode, with its 6502 mode and length. With that table the program finishes with 8 in A and Carry, Zero and Negative clear. | not executed | Scenarios.AslTwiceProgramDeclared | Scenarios.AslTwiceProgram |
| src/cpu/instruction_set.rs:10-41 | The same missing ASL entry breaks test_0x0a_asl_overflow (src/cpu.rs:544-551). | `load_and_run([0xa9, 0xff, 0x0a, 0x00])` stops at 0x8002 with an unknown-opcode error. | A ends as 0xFE with Carry and Negative set and Zero clear. | not executed | Scenarios.AslOnceProgramDeclared | Scenarios.AslOnceProgram |

`InstructionSet.EXTENDED_INSTRUCTION_SET` is the corrected table. It is the
declared table followed by the ten missing descriptors.
`Engine.DispatchCoversTables` proves that it registers every dispatched opcode.
`Scenarios.ExtensionKeepsDeclared` proves that it keeps every registration of
the declared table.

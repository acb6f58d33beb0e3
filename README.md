# cpu4004 in Dafny

A model of the clock-phase simulator of the Intel 4004 CPU and its 4001 ROM
and 4002 RAM companion chips, together with the simulator's program
builders and its logic analyzer's history list.

The simulator divides each instruction cycle into eight phases (0..7). On its
falling edge a component computes its control flags for the phase from the
values committed at the previous rising edge. On the rising edge every
`Clocked` cell commits its raw value and the bus buffers copy in the
direction they were set to.

The model works in the same two layers:

- **Primitives, as classes.** `Clocked`, `Bus`, `Buffer`, `Register`,
  `AddressStack`, `IndexRegisters`, `AluCore`, `InstructionReg`,
  `DecoderFlag`, `Decoder`, `CpuCore`, `RomRamDecoder`, `Rom4001`,
  `Ram4002`, `MainProgram` and `LogicAnalyzer` are Dafny classes. Their
  fields are the source's fields and their methods have `modifies` frames.
- **Protocol logic, as step functions.** Every phase of the CPU decoder and
  every phase of the ROM/RAM bus protocol is also written as a pure step
  function on a snapshot of the state: `DecoderState`, `CoreState`,
  `ChipState`. Each method's `ensures` ties the object's new snapshot to the
  step function applied to the old one.

The lemmas are stated about the step functions. They cover:

- the fetch schedule: PC out in phases 0..2, ROM select in phase 2, the
  opcode latched in phases 3..4, SYNC in phase 7, and the PC advanced once
  per cycle;
- the one- and two-cycle instruction handlers: register, accumulator,
  FIM/SRC, jumps and the I/O group;
- the ROM read and the RAM write/read round trips;
- SRC chip selection and the omni-mode port merge;
- the sliding window of the logic analyzer;
- the byte layout emitted by the program builders, including the labels
  the two-pass assembler fixes up.

Register and bus contents are unbounded naturals. The source's `Long`
bit operations are written as arithmetic in module `Words`: masks, `shr`
and `and 0xf` nybbles, and JVM shift counts reduced mod 64. The 32-bit
`Int` conversions and wrap-around are written out where the source
relies on them.

Three behaviours of the code that a reader might not expect:

- **Stack overflow.** A push with three saved levels and a pop after an
  overflow index past the stack in `AddressStack.kt` and throw; they are
  not no-ops. The model excludes these calls by requiring the stack
  pointer to be below the depth (see Left out).
- **Stale port reads.** `RomRamDecoder.resetFlags` does not clear
  `ioRead`, so a port read request outlives its cycle. The chip classes
  use the corrected reset. The code as written survives only in
  `ResetFlagsAsWritten` and `ProcessAsWritten` (see Findings).
- **Stack level width.** The stack levels are sized to the data-bus width,
  not to the 12-bit PC. The CPU's `AddressStack` is built with 12-bit
  levels. The code as written survives in `PcAfterPushPop(pc,
  AsWrittenLevelWidth)` and in the stack built by `AddressStack.AsWritten`,
  which `CallAndReturn` runs (see Findings).

## Model

| member | source | states |
|---|---|---|
| Words.Pow2 | src/main/kotlin/common/Maskable.kt:9-12 | powers of two are positive; the masks the source builds are 2^w - 1 |
| Words.Pow2Add | src/main/kotlin/common/Maskable.kt:9-12 | 2^(a+b) is 2^a * 2^b, which relates masks of different widths |
| Words.Pow2Monotone | src/main/kotlin/common/Maskable.kt:9-12 | a wider mask is never smaller |
| Words.SmallPowers | src/main/kotlin/common/Globals.kt:15 | the 4-, 8- and 12-bit widths the simulator uses are 16, 256 and 4096 values |
| Words.Pow2Of64 | src/main/kotlin/common/Maskable.kt:5 | a `Long` mask is bounded by 2^64 |
| Words.LowBits | src/main/kotlin/common/Register.kt:55 | `x and mask` is below 2^w and is x itself when x already fits |
| Words.NybbleIndex | src/main/kotlin/common/Register.kt:66 | a shift by `4*n` reaches nybble `n mod 16`, because the JVM reduces the shift count mod 64 |
| Words.NybbleOf | src/main/kotlin/common/Register.kt:66 | `shr(4k) and 0xf` is below 16 |
| Words.ReplaceNybbleSame | src/main/kotlin/common/Register.kt:75-80 | after replacing nybble k, nybble k reads back as v mod 16 |
| Words.ReplaceNybbleOther | src/main/kotlin/common/Register.kt:75-80 | replacing nybble k leaves every other nybble as it was |
| Words.ReplaceNybbleBound | src/main/kotlin/common/Register.kt:75-80 | replacing a nybble inside a width of 4m bits stays inside that width |
| Words.ReplaceNybbleTwice | src/main/kotlin/common/Register.kt:75-80 | of two writes to the same nybble, the second wins |
| Words.ModMul16 | src/main/kotlin/common/Register.kt:55 | masking to 16q values and dropping the low nybble commute |
| Words.LowBitsNybble | src/main/kotlin/common/Register.kt:78 | masking to w bits keeps each nybble wholly below bit w and clears the ones above |
| Words.NybbleOfSmall | src/main/kotlin/common/Register.kt:66 | a value below 16 has no higher nybbles |
| Words.TwoNybbles | src/main/kotlin/common/Register.kt:75-80 | writing nybble 1 and then nybble 0 of a byte gives 16*h + l |
| Words.ToInt32 | src/main/kotlin/common/RomRamDecoder.kt:144 | `Long.toInt()` lies in the 32-bit signed range and is the identity below 2^31 |
| Words.ToUInt32 | src/main/kotlin/instruction/Programs.kt:207 | `Int.toUInt()` is below 2^32 and is the identity on values that fit |
| Words.LowNybble | src/main/kotlin/cpucore/RegAccum.kt:17 | `x and 0xf` on an `Int` is below 16 and is x itself for 0..15 |
| Words.HighNybble | src/main/kotlin/cpucore/Decoder.kt:177 | `x and 0xf0`, shifted down, is below 16 and is x / 16 on a byte |
| Words.InvLowNybble | src/main/kotlin/cpucore/CpuCore.kt:73 | `x.inv() and 0xf` is 15 minus the low nybble |
| Words.ToSignedByte | src/main/kotlin/cpucore/Decoder.kt:178 | `Int.toByte()` is a signed byte with the same bit 0, and is the identity on signed bytes |
| Words.PairBaseOfPair | src/main/kotlin/cpucore/IoOps.kt:15 | `x and 0xe` is even and names the register pair holding the low nybble of x |
| Masks.ShiftInOnes | src/main/kotlin/common/Maskable.kt:9-12 | the mask after n iterations of shifting in a one bit is a 64-bit value |
| Masks.Iterations | src/main/kotlin/common/Maskable.kt:9 | `0 until width` runs `width` times, and not at all for a negative width |
| Masks.MaskBits | src/main/kotlin/common/Maskable.kt:9-12 | a mask keeps at most 64 bits, and exactly `width` bits for widths 0..64 |
| Masks.ShiftInOnesFromZero | src/main/kotlin/common/Maskable.kt:9-12 | starting from an empty mask, w ≤ 64 iterations give 2^w - 1 |
| Masks.ShiftInOnesSaturates | src/main/kotlin/common/Maskable.kt:9-12 | more than 64 iterations leave the full 64-bit mask |
| Masks.ShiftInOnesFrom | src/main/kotlin/common/Maskable.kt:9-12 | starting from a non-empty mask m, n iterations give m * 2^n + 2^n - 1 mod 2^64 |
| Masks.BuildMask | src/main/kotlin/common/Maskable.kt:9-12 | the loop computes ShiftInOnes of the old mask; from an empty mask it gives 2^w - 1 |
| Masks.Maskable.constructor | src/main/kotlin/common/Maskable.kt:3-6 | width 0, empty mask, empty name |
| Masks.Maskable.BaseInit | src/main/kotlin/common/Maskable.kt:7-14 | sets width and name; the mask grows from the old mask, so it is 2^w - 1 only on a fresh object |
| Masks.SecondInitWidth4 | src/main/kotlin/common/Maskable.kt:7-14 | calling `baseInit(4, …)` twice leaves the mask 0xFF, not 0xF |
| Clocking.Clocked.constructor | src/main/kotlin/common/Clocked.kt:6-10 | raw and clocked both start at the initial value |
| Clocking.Clocked.Get | src/main/kotlin/common/Clocked.kt:11-13 | reads the committed value, not the value being written |
| Clocking.Clocked.Reset | src/main/kotlin/common/Clocked.kt:14-17 | raw and clocked both return to the initial value |
| Clocking.Clocked.Tick | src/main/kotlin/common/Clocked.kt:18-24 | edge 1 commits raw to clocked; any other edge changes nothing; raw is kept |
| Buses.WriteStep | src/main/kotlin/common/Bus.kt:16-22 | a write stores the value and counts one more write |
| Buses.AfterWritesLast | src/main/kotlin/common/Bus.kt:16-22 | after a run of writes the bus holds the last value, and the count has grown by the number of writes |
| Buses.Bus.constructor | src/main/kotlin/common/Bus.kt:5-14 | a new bus has value 0 and no writes |
| Buses.Bus.Write | src/main/kotlin/common/Bus.kt:16-22 | the new state is WriteStep of the old state |
| Buses.Bus.Reset | src/main/kotlin/common/Bus.kt:24-26 | clears the write count and keeps the value |
| Buses.Bus.Read | src/main/kotlin/common/Bus.kt:8 | the value last driven |
| Buffers.Transfer | src/main/kotlin/common/Buffer.kt:5-7 | the destination takes the source's value, with one more write |
| Buffers.TransferRoundTrip | src/main/kotlin/common/Buffer.kt:4-11 | A to B and then B to A leaves A's value unchanged |
| Buffers.Buffer.constructor | src/main/kotlin/common/Buffer.kt:3 | keeps the two buses and the name |
| Buffers.Buffer.AToB | src/main/kotlin/common/Buffer.kt:5-7 | B becomes Transfer(A, B); A is untouched |
| Buffers.Buffer.BToA | src/main/kotlin/common/Buffer.kt:9-11 | A becomes Transfer(B, A); B is untouched |
| Registers.WithNybble | src/main/kotlin/common/Register.kt:75-80 | the written nybble reads back; every other in-mask nybble is kept; the result stays within a whole-nybble mask |
| Registers.NybblePair | src/main/kotlin/common/Register.kt:75-80 | two nybble writes in one phase build on raw and give the byte 16*h + l |
| Registers.Register.constructor | src/main/kotlin/common/Register.kt:6-19 | raw and clocked start at the initial value; the mask is 2^w - 1 |
| Registers.Register.Reset | src/main/kotlin/common/Register.kt:21-23 | both halves return to the initial value |
| Registers.Register.ReadDirect | src/main/kotlin/common/Register.kt:54-56 | the committed value, within the mask |
| Registers.Register.ReadDirectRaw | src/main/kotlin/common/Register.kt:60-62 | the value being written, within the mask |
| Registers.Register.ReadNybbleDirect | src/main/kotlin/common/Register.kt:65-67 | committed nybble n mod 16, not masked |
| Registers.Register.WriteDirect | src/main/kotlin/common/Register.kt:70-72 | raw becomes the masked value; clocked is kept |
| Registers.Register.WriteNybbleDirect | src/main/kotlin/common/Register.kt:75-80 | raw becomes WithNybble of the old raw |
| Registers.Register.Increment | src/main/kotlin/common/Register.kt:84-86 | raw becomes the committed value plus one, wrapped at the mask |
| Registers.Register.ReadNybble | src/main/kotlin/common/Register.kt:26-31 | with a bus attached, one write of the committed nybble |
| Registers.Register.Read | src/main/kotlin/common/Register.kt:34-39 | with a bus attached, one write of the committed value cut to the bus mask |
| Registers.Register.WriteNybble | src/main/kotlin/common/Register.kt:42-45 | with a bus attached, nybble n of raw takes the bus value; otherwise nothing changes |
| Registers.Register.Write | src/main/kotlin/common/Register.kt:48-51 | with a bus attached, raw takes the masked bus value; otherwise nothing changes |
| Registers.Register.Tick | src/main/kotlin/common/Register.kt:10 | a rising edge commits raw |
| AddressStacks.PcAfterPushPop | src/main/kotlin/addressstack/AddressStack.kt:56-75 | the PC a push, commit, pop and commit leave is a 12-bit value, and below 16 with the source's 4-bit levels |
| AddressStacks.AsWrittenPushPopLosesHighBits | src/main/kotlin/addressstack/AddressStack.kt:25 | with levels of `BusWidth` bits, a call from 0x123 returns to 0x003 |
| AddressStacks.CorrectedPushPopRestoresPc | src/main/kotlin/addressstack/AddressStack.kt:56-75 | with 12-bit levels, every 12-bit return address comes back unchanged |
| AddressStacks.AsWrittenPushPopKeepsLowNybble | src/main/kotlin/addressstack/AddressStack.kt:25 | with levels of `BusWidth` bits, every 12-bit return address comes back as its low nybble |
| AddressStacks.AddressStack.constructor | src/main/kotlin/addressstack/AddressStack.kt:11-27 | a 12-bit PC without a bus and three 12-bit levels on the data bus, all 0; the stack pointer is -1 |
| AddressStacks.AddressStack.AsWritten | src/main/kotlin/addressstack/AddressStack.kt:11-27 | the same, with levels of the data-bus width as the source builds them |
| AddressStacks.AddressStack.Reset | src/main/kotlin/addressstack/AddressStack.kt:29-34 | the PC and every level return to 0; the stack pointer is kept |
| AddressStacks.AddressStack.IncrementProgramCounter | src/main/kotlin/addressstack/AddressStack.kt:36-38 | the next PC is the committed PC plus one, mod 4096 |
| AddressStacks.AddressStack.GetProgramCounter | src/main/kotlin/addressstack/AddressStack.kt:40-42 | the committed PC, below 4096 |
| AddressStacks.AddressStack.ReadProgramCounter | src/main/kotlin/addressstack/AddressStack.kt:45-49 | one bus write of the committed PC nybble n |
| AddressStacks.AddressStack.WriteProgramCounter | src/main/kotlin/addressstack/AddressStack.kt:52-54 | PC nybble n takes the bus value; the other nybbles stay |
| AddressStacks.AddressStack.StackPush | src/main/kotlin/addressstack/AddressStack.kt:56-64 | the pointer goes up by one and the new top level takes the committed PC cut to the level width; at the depth nothing is saved |
| AddressStacks.AddressStack.StackPop | src/main/kotlin/addressstack/AddressStack.kt:66-75 | on an empty stack nothing changes; otherwise the PC takes the committed top level, that level is cleared and the pointer goes down |
| AddressStacks.AddressStack.Tick | src/main/kotlin/addressstack/AddressStack.kt:15-16 | a rising edge commits the PC and every level |
| AddressStacks.CallAndReturn | src/main/kotlin/addressstack/AddressStack.kt:56-75 | a push, a commit, a pop and a commit on a stack with room leave the pointer where it was and the PC at PcAfterPushPop: the old PC with 12-bit levels, its low nybble with the source's 4-bit levels |
| Index.IndexRegisters.constructor | src/main/kotlin/index/IndexRegisters.kt:12-26 | sixteen 4-bit registers on the data bus, all 0, with index 0 |
| Index.IndexRegisters.Reset | src/main/kotlin/index/IndexRegisters.kt:28-32 | every register returns to 0; the index is kept |
| Index.IndexRegisters.Select | src/main/kotlin/index/IndexRegisters.kt:34-39 | stores the index as given |
| Index.IndexRegisters.Read | src/main/kotlin/index/IndexRegisters.kt:41-44 | one bus write of the selected register's committed value |
| Index.IndexRegisters.ReadDirect | src/main/kotlin/index/IndexRegisters.kt:46-48 | register i's committed value, below 16 |
| Index.IndexRegisters.WriteDirect | src/main/kotlin/index/IndexRegisters.kt:51-53 | register i's next value is v mod 16 |
| Index.IndexRegisters.Write | src/main/kotlin/index/IndexRegisters.kt:55-60 | the selected register's next value is the bus value mod 16 |
| Index.IndexRegisters.Increment | src/main/kotlin/index/IndexRegisters.kt:62-67 | the selected register's next value is its committed value plus one, mod 16 |
| Index.IndexRegisters.IsRegisterZero | src/main/kotlin/index/IndexRegisters.kt:69-71 | true exactly when the selected register's committed value is 0 |
| Index.IndexRegisters.Tick | src/main/kotlin/index/IndexRegisters.kt:23 | a rising edge commits every register |
| Index.WriteCommitRead | src/main/kotlin/index/IndexRegisters.kt:46-53 | a direct write, a commit and a direct read give back v mod 16 |
| Alu.AluCore.constructor | src/main/kotlin/alu/AluCore.kt:10-32 | accumulator, temp and flags as 4-bit registers on the data bus, all 0 |
| Alu.AluCore.Reset | src/main/kotlin/alu/AluCore.kt:34-38 | all three registers return to 0 |
| Alu.AluCore.Swap | src/main/kotlin/alu/AluCore.kt:40-45 | each of accumulator and temp takes the other's committed value; flags are untouched |
| Alu.AluCore.WriteAccumulator | src/main/kotlin/alu/AluCore.kt:47-50 | the accumulator's next value is the bus value mod 16 |
| Alu.AluCore.WriteTemp | src/main/kotlin/alu/AluCore.kt:52-55 | temp's next value is the bus value mod 16 |
| Alu.AluCore.ReadAccumulator | src/main/kotlin/alu/AluCore.kt:57-59 | one bus write of the committed accumulator |
| Alu.AluCore.ReadTemp | src/main/kotlin/alu/AluCore.kt:61-63 | one bus write of the committed temp register |
| Alu.AluCore.Tick | src/main/kotlin/alu/AluCore.kt:13-15 | a rising edge commits all three registers |
| Alu.SwapTwice | src/main/kotlin/alu/AluCore.kt:40-45 | two swaps, each followed by a commit, restore both registers as 4-bit values |
| Instruction.InstructionReg.constructor | src/main/kotlin/instruction/InstructionReg.kt:9-19 | an 8-bit register without a bus, holding 0 |
| Instruction.InstructionReg.Reset | src/main/kotlin/instruction/InstructionReg.kt:21-23 | back to the initial value |
| Instruction.InstructionReg.GetInstructionRegister | src/main/kotlin/instruction/InstructionReg.kt:25-27 | the committed byte, below 256 |
| Instruction.InstructionReg.ReadInstructionRegister | src/main/kotlin/instruction/InstructionReg.kt:30-34 | one bus write of committed nybble n |
| Instruction.InstructionReg.WriteInstructionRegister | src/main/kotlin/instruction/InstructionReg.kt:37-39 | nybble n takes the bus value; the other nybble stays |
| Instruction.InstructionReg.Tick | src/main/kotlin/instruction/InstructionReg.kt:12 | a rising edge commits the byte |
| Instruction.LoadInstruction | src/main/kotlin/instruction/InstructionReg.kt:37-39 | loading nybble 1 from a bus holding h and then nybble 0 from one holding l gives 16*(h mod 16) + l mod 16 |
| Defines.FlagOrderInverse | src/main/kotlin/cpucore/Defines.kt:81-112 | the creation order lists every flag kind but END exactly once, and END comes last |
| Defines.ResetValue | src/main/kotlin/cpucore/Decoder.kt:30-57 | every flag is created at 0 (BufDirNone for the bus direction) except AccInst and IndexSelect, which start at -1 |
| Defines.FlagName | src/main/kotlin/cpucore/Decoder.kt:30-57 | each table flag has a display name of four to six characters; only END has none |
| Defines.DecoderFlag.constructor | src/main/kotlin/cpucore/Defines.kt:114-117 | the reset value is the value the flag is created with |
| Defines.DecoderFlag.Reset | src/main/kotlin/cpucore/Defines.kt:118-120 | the value returns to the reset value |
| Defines.DecoderFlag.WriteFlag | src/main/kotlin/cpucore/Defines.kt:121-125 | the value becomes the one written |
| Defines.OpcodeFamily | src/main/kotlin/cpucore/Defines.kt:5-37 | `x and 0xf0` is a byte with a clear low nybble, and its high nybble is that of x |
| Decoders.Initial | src/main/kotlin/cpucore/Decoder.kt:12-27 | phase 0, every flag at its reset value, no instruction and no double instruction |
| Decoders.ResetStep | src/main/kotlin/cpucore/Decoder.kt:60-66 | every flag returns to its reset value and the X2/X3 read markers are cleared; counter, instruction latches and the other markers are kept |
| Decoders.ResetForgetsWrites | src/main/kotlin/cpucore/Decoder.kt:60-66 | a flag written before a reset reads its reset value after it |
| Decoders.NextCount | src/main/kotlin/cpucore/Decoder.kt:77-91 | the next phase is (c + 1) mod 8 |
| Decoders.CountAfterMod | src/main/kotlin/cpucore/Decoder.kt:77-91 | n phases advance the counter by n mod 8, so every eight phases return to the starting phase |
| Decoders.ClkAndSyncStep | src/main/kotlin/cpucore/Decoder.kt:77-91 | the raw counter takes the next phase of the committed one; PCInc is raised exactly at phase 6 after a sync when the PC is not held; all else is kept |
| Decoders.CreateFlags | src/main/kotlin/cpucore/Decoder.kt:29-58 | one fresh flag per kind but END, with its name and its reset value |
| Decoders.Decoder.constructor | src/main/kotlin/cpucore/Decoder.kt:9-27 | the state is Initial() |
| Decoders.Decoder.ResetFlags | src/main/kotlin/cpucore/Decoder.kt:60-66 | the new state is ResetStep of the old |
| Decoders.Decoder.ResetTable | src/main/kotlin/cpucore/Decoder.kt:61-63 | the loop returns every flag of the table to its reset value |
| Decoders.Decoder.WriteFlag | src/main/kotlin/cpucore/Decoder.kt:68-71 | only the named flag changes, to the value written |
| Decoders.Decoder.AssignCurrInstruction | src/main/kotlin/cpucore/Decoder.kt:15 | only the current instruction changes |
| Decoders.Decoder.AssignDblInstruction | src/main/kotlin/cpucore/Decoder.kt:16 | only the double-instruction latch changes |
| Decoders.Decoder.AssignDecodeAgain | src/main/kotlin/cpucore/Decoder.kt:17 | only the look-ahead request changes |
| Decoders.Decoder.AssignSyncSent | src/main/kotlin/cpucore/Decoder.kt:14 | only the sync marker changes |
| Decoders.Decoder.AssignInhibitPCInc | src/main/kotlin/cpucore/Decoder.kt:18 | only the PC-increment inhibition changes |
| Decoders.Decoder.AssignX3IsRead | src/main/kotlin/cpucore/Decoder.kt:22 | only the X3 read marker changes |
| Decoders.Decoder.ReadFlag | src/main/kotlin/cpucore/Decoder.kt:73-75 | the flag's value, or 0 when the table lacks it |
| Decoders.Decoder.ClkAndSync | src/main/kotlin/cpucore/Decoder.kt:77-91 | the new state is ClkAndSyncStep of the old |
| Decoders.Decoder.Tick | src/main/kotlin/cpucore/Decoder.kt:12 | a rising edge commits the phase counter; nothing else changes |
| RegAccum.XchStep | src/main/kotlin/cpucore/RegAccum.kt:3-24 | XCH acts only at phases 5, 6, 7 and 0, and each phase writes exactly its two flags (or one) and no other: at 5 it drives the selected register out, at 6 it loads temp while the accumulator drives the bus, at 7 it selects the operand's register and loads it, at 0 it swaps and finishes; the latches are kept |
| RegAccum.LdmStep | src/main/kotlin/cpucore/RegAccum.kt:26-31 | LDM acts only at phase 5, where it writes only AccLoad and finishes |
| RegAccum.LdStep | src/main/kotlin/cpucore/RegAccum.kt:33-45 | LD acts only at phases 6 and 7: at 6 it writes only the register read-out flags, at 7 only AccLoad, and finishes |
| RegAccum.IncStep | src/main/kotlin/cpucore/RegAccum.kt:47-62 | INC at phase 5 writes no flag and only asks for another decode (on a fresh instruction); at 6 it writes only the register select, at 7 only the increment, and finishes; other phases change nothing |
| RegAccum.AccStep | src/main/kotlin/cpucore/RegAccum.kt:64-74 | the accumulator group at phase 5 writes no flag and only asks for another decode (on a fresh instruction); at 6 it writes only the whole opcode to the ALU and finishes; other phases change nothing |
| RegAccum.XchAndLdReadTheRegisterAlike | src/main/kotlin/cpucore/RegAccum.kt:5-8 | XCH at phase 5 and LD at phase 6 drive the selected register out with the same flags |
| RegAccum.IncAndAccIgnoreRequestAfterPhase5 | src/main/kotlin/cpucore/RegAccum.kt:47-74 | away from phase 5, INC and the accumulator group neither read nor change the look-ahead request |
| RegAccum.HandleXCH | src/main/kotlin/cpucore/RegAccum.kt:3-24 | the decoder's new state is XchStep of the old |
| RegAccum.HandleLDM | src/main/kotlin/cpucore/RegAccum.kt:26-31 | the decoder's new state is LdmStep of the old |
| RegAccum.HandleLD | src/main/kotlin/cpucore/RegAccum.kt:33-45 | the decoder's new state is LdStep of the old |
| RegAccum.HandleINC | src/main/kotlin/cpucore/RegAccum.kt:47-62 | the decoder's new state is IncStep of the old |
| RegAccum.HandleACC | src/main/kotlin/cpucore/RegAccum.kt:64-74 | the decoder's new state is AccStep of the old |
| Accum.ArithmeticStep | src/main/kotlin/cpucore/Accum.kt:3-47 | ADD/SUB act only at phases 5, 6, 7 and 0, each writing exactly its own flags: the register read-out at 5, the mode and temp load at 6, ALU evaluation and output at 7, accumulator load and finish at 0; the latches are kept |
| Accum.SubIsAddWithSubtractMode | src/main/kotlin/cpucore/Accum.kt:3-47 | SUB differs from ADD only in the ALU mode written at phase 6 |
| Accum.HandleADD | src/main/kotlin/cpucore/Accum.kt:3-24 | the decoder's new state is ArithmeticStep with the add mode |
| Accum.HandleSUB | src/main/kotlin/cpucore/Accum.kt:26-47 | the decoder's new state is ArithmeticStep with the subtract mode |
| IoOps.FimStep | src/main/kotlin/cpucore/IoOps.kt:9-30 | FIM keeps the counter, the control markers and the look-ahead request, and writes no flag but the register select and load |
| IoOps.SrcStep | src/main/kotlin/cpucore/IoOps.kt:31-47 | SRC keeps every latch and writes no flag but the register select and read-out and the two chip selects |
| IoOps.FimSrcStep | src/main/kotlin/cpucore/IoOps.kt:3-48 | the shared handler keeps the counter and the control markers and writes only the flags FIM or SRC write |
| IoOps.FimStepSpec | src/main/kotlin/cpucore/IoOps.kt:9-30 | FIM selects only registers of the pair its operand names; it latches the first byte exactly at phase 6 of its first cycle, loads at phases 4 and 5 of its second, and ends only at phase 5 of its second |
| IoOps.SrcStepSpec | src/main/kotlin/cpucore/IoOps.kt:31-47 | SRC drives its pair over phases 6 and 7, raises both chip selects at 6, ends at 7, keeps every latch and does nothing at other phases |
| IoOps.FimSrcStepSpec | src/main/kotlin/cpucore/IoOps.kt:3-48 | phase 5 of a fresh instruction only asks for another decode; otherwise bit 0 picks FIM or SRC, and only FIM latches a first byte |
| IoOps.PairOrder | src/main/kotlin/cpucore/IoOps.kt:15-43 | FIM and SRC select the even register of the pair first and the odd register second |
| IoOps.WriteGroupStep | src/main/kotlin/cpucore/IoOps.kt:51-68 | the write group acts only at phase 6: the accumulator drives the bus (the only flag written), X3 is marked a write and the instruction ends |
| IoOps.ReadGroupStep | src/main/kotlin/cpucore/IoOps.kt:71-78 | the read group acts only at phase 7: it writes only AccLoad and the instruction ends; the latches are kept |
| IoOps.MemoryArithmeticStep | src/main/kotlin/cpucore/IoOps.kt:80-106 | SBM/ADM write only temp load, their mode, evaluation and ALU output at phase 7, only AccLoad at phase 0 and end there, and do nothing at other phases |
| IoOps.SbmIsAdmWithSubtractMode | src/main/kotlin/cpucore/IoOps.kt:80-106 | SBM differs from ADM only in the ALU mode |
| IoOps.HandleFimSrc | src/main/kotlin/cpucore/IoOps.kt:3-48 | the decoder's new state is FimSrcStep of the old |
| IoOps.HandleFim | src/main/kotlin/cpucore/IoOps.kt:9-30 | the decoder's new state is FimStep of the old |
| IoOps.HandleSrc | src/main/kotlin/cpucore/IoOps.kt:31-47 | the decoder's new state is SrcStep of the old |
| IoOps.HandleWriteGroup | src/main/kotlin/cpucore/IoOps.kt:51-68 | the decoder's new state is WriteGroupStep of the old |
| IoOps.HandleReadGroup | src/main/kotlin/cpucore/IoOps.kt:71-78 | the decoder's new state is ReadGroupStep of the old |
| IoOps.HandleSBM | src/main/kotlin/cpucore/IoOps.kt:80-92 | the decoder's new state is MemoryArithmeticStep in subtract mode |
| IoOps.HandleADM | src/main/kotlin/cpucore/IoOps.kt:94-106 | the decoder's new state is MemoryArithmeticStep in add mode |
| JumpFetch.FirstCycleStep | src/main/kotlin/cpucore/JumpFetch.kt:7-32 | the first cycle keeps the counter, the control markers and the look-ahead request, and writes only the evaluation, ISZ-increment and temp-load flags |
| JumpFetch.SecondCycleStep | src/main/kotlin/cpucore/JumpFetch.kt:33-80 | the second cycle keeps the counter and the look-ahead request, changes no control marker but the PC-increment hold, and writes only the PC-load, read-out and stack-push flags |
| JumpFetch.JumpStep | src/main/kotlin/cpucore/JumpFetch.kt:3-81 | the jump handler keeps the counter, the look-ahead request and every control marker but the PC-increment hold, and writes only the jump flags (never SYNC or the PC increment) |
| JumpFetch.FirstCycleSpec | src/main/kotlin/cpucore/JumpFetch.kt:7-32 | the first cycle raises the JCN or ISZ evaluation flag at every phase and does nothing else before phase 6; at 6 it increments the ISZ register or loads temp and moves the instruction into the first-byte latch |
| JumpFetch.DecisionSpec | src/main/kotlin/cpucore/JumpFetch.kt:34-54 | at phase 5 of the second cycle the instruction ends exactly when a JCN/ISZ condition failed; a taken jump holds the PC increment and drives the low address nybble; JMS and only JMS pushes |
| JumpFetch.LoadSpec | src/main/kotlin/cpucore/JumpFetch.kt:55-79 | phases 6, 7 and 0 load the PC one nybble each, the high nybble only for JUN and JMS; phase 0 ends the instruction and releases the PC increment; phases 1 to 4 do nothing |
| JumpFetch.InhibitOnlyDuringJump | src/main/kotlin/cpucore/JumpFetch.kt:42-78 | the PC increment is held only at phase 5 of a taken jump and released only at phase 0, and an ended jump never leaves it held when it was not before |
| JumpFetch.ConditionalJumpStaysInPage | src/main/kotlin/cpucore/JumpFetch.kt:67-74 | JCN and ISZ never load the PC's high nybble |
| JumpFetch.HandleJump | src/main/kotlin/cpucore/JumpFetch.kt:3-81 | the decoder's new state is JumpStep of the old |
| JumpFetch.HandleFirstCycle | src/main/kotlin/cpucore/JumpFetch.kt:7-32 | the decoder's new state is FirstCycleStep of the old |
| JumpFetch.HandleSecondCycle | src/main/kotlin/cpucore/JumpFetch.kt:33-80 | the decoder's new state is SecondCycleStep of the old |
| Dispatch.DecodeStep | src/main/kotlin/cpucore/Decoder.kt:175-215 | decoding never moves the counter, never touches inhibitPC, syncSent or the read markers, and never writes the SYNC or PC-increment flags |
| Dispatch.DispatchTable | src/main/kotlin/cpucore/Decoder.kt:175-206 | the routing by high nybble: 1, 4, 5, 7 jump; 2 is FIM/SRC by bit 0; 6 INC; 8 ADD; 9 SUB; 0xA LD; 0xB XCH; 0xD LDM; 0xF the accumulator group; 0xE asks for another decode; 0, 3 and 0xC change nothing |
| Dispatch.FimSrcParity | src/main/kotlin/cpucore/IoOps.kt:9 | FIM/SRC reads only bit 0 of the byte it is given |
| Dispatch.DecodeLatchesOnlyAtEnds | src/main/kotlin/cpucore/Decoder.kt:175-215 | decoding changes the first-byte latch only to latch the instruction in progress or when the instruction ends |
| Dispatch.SetCurrentStep | src/main/kotlin/cpucore/Decoder.kt:163-173 | taking up an instruction keeps the counter, syncSent and inhibitPC, and never writes the SYNC or PC-increment flags |
| Dispatch.SecondCycleIgnoresFetch | src/main/kotlin/cpucore/Decoder.kt:163-173 | in a second cycle the fetched byte does not matter: the latched first byte continues |
| Dispatch.FirstCycleDecodesFetch | src/main/kotlin/cpucore/Decoder.kt:163-173 | in a first cycle the fetched byte is decoded as it is |
| Dispatch.FetchSchedule | src/main/kotlin/cpucore/Decoder.kt:93-140 | phases 0-2 put PC nybble c+1 out unless the PC is held and drive the bus out; phase 2 selects the ROMs; phases 3-4 turn the bus in and raise both chip selects exactly on the I/O family; 4 and 5 load the instruction nybbles and 5 decodes |
| Dispatch.CalculateFlagsStep | src/main/kotlin/cpucore/Decoder.kt:93-161 | calculateFlags never moves the counter or writes the PC-increment flag, and raises SYNC and records a sync at phase 7 and only there |
| Dispatch.PhaseFlags | src/main/kotlin/cpucore/Decoder.kt:101-160 | the phase schedule keeps the counter and both instruction latches, writes SYNC and changes the control markers only at phase 7 (recording the sync), and never writes PCInc |
| Dispatch.LookaheadLastsOnePhase | src/main/kotlin/cpucore/Decoder.kt:141-151 | phase 6 honours a pending look-ahead once and clears it; the bus direction follows the X2 read marker |
| Dispatch.SyncAtPhase7 | src/main/kotlin/cpucore/Decoder.kt:152-159 | phase 7 raises SYNC, records a sync and sets the bus direction from the X3 read marker |
| Dispatch.ContinuesOnlyWithInstruction | src/main/kotlin/cpucore/Decoder.kt:95-97 | with no instruction in progress, at phase 5 or with a look-ahead pending, there is no continued decode |
| Dispatch.DecodeCurrentInstruction | src/main/kotlin/cpucore/Decoder.kt:175-215 | the decoder's new state is DecodeStep of the old |
| Dispatch.SetCurrentInstruction | src/main/kotlin/cpucore/Decoder.kt:163-173 | the decoder's new state is SetCurrentStep of the old |
| Dispatch.CalculateFlags | src/main/kotlin/cpucore/Decoder.kt:93-161 | the decoder's new state is CalculateFlagsStep of the old |
| Dispatch.WritePhaseFlags | src/main/kotlin/cpucore/Decoder.kt:101-160 | the decoder's new state is PhaseFlags of the old |
| CpuCores.ReleaseStep | src/main/kotlin/cpucore/CpuCore.kt:51-58 | the lines return to their idle levels; the internal bus takes the external bus value when copying in and keeps its own otherwise, with its write count restarted; the external bus and the PC are untouched |
| CpuCores.ResetCoreStep | src/main/kotlin/cpucore/CpuCore.kt:50-60 | resetFlags idles the lines, copies the external bus in exactly when the previous phase set the bus direction inward, resets every flag to its reset value and keeps the counter and the instruction latches |
| CpuCores.DriveStep | src/main/kotlin/cpucore/CpuCore.kt:63-87 | PCInc makes the PC's next value the committed PC plus one mod 4096 and otherwise keeps it; PCOut k puts PC nybble k-1 on the internal bus; an outward direction makes the external bus carry the internal bus value; SYNC and CM-ROM pull their lines low; a CM-RAM flag k in 1..15 drives the bank lines to 15 - k |
| CpuCores.UpdateStep | src/main/kotlin/cpucore/CpuCore.kt:62-88 | update leaves the decoder and the committed PC alone, and pulls SYNC low exactly when the SYNC flag is set |
| CpuCores.PhaseStartStep | src/main/kotlin/cpucore/CpuCore.kt:44-45 | the phase counter's next value is the committed phase plus one, wrapping after 7; the instruction latches are kept and the pins are released |
| CpuCores.DecodePhaseStep | src/main/kotlin/cpucore/CpuCore.kt:46 | calculateFlags leaves the pins and the counter alone, and sets the SYNC flag at phase 7 and only there |
| CpuCores.ProcessStep | src/main/kotlin/cpucore/CpuCore.kt:43-48 | each falling edge sets the next phase to the committed one plus one, wrapping after 7, and commits nothing |
| CpuCores.PhaseStart | src/main/kotlin/cpucore/CpuCore.kt:43-60 | after resetFlags and clkAndSync the counter has advanced, the SYNC and select flags are clear, PCInc is set iff the phase-6 edge follows a sync with the increment not held, the other control state and the instruction stay, and the buses and lines are released (the external bus copied in when it was inward) |
| CpuCores.ProcessAdvancesPhase | src/main/kotlin/cpucore/CpuCore.kt:43-48 | each falling edge moves the phase counter on by one, within 0..7 |
| CpuCores.SyncLowExactlyAtPhase7 | src/main/kotlin/cpucore/CpuCore.kt:50-68 | SYNC is driven low in phase 7 and only there |
| CpuCores.PcAdvancesOncePerCycle | src/main/kotlin/cpucore/CpuCore.kt:63-65 | the PC's next value is PC+1 mod 4096 exactly at the phase-6 edge after a sync with the increment not held, and is kept otherwise |
| CpuCores.RomSelectAtPhase2 | src/main/kotlin/cpucore/CpuCore.kt:69-71 | phase 2 pulls CM-ROM low |
| CpuCores.IoSelectAtPhases3And4 | src/main/kotlin/cpucore/CpuCore.kt:53-73 | an I/O family nybble copied in from the external bus makes phases 3 and 4 pull CM-ROM low and RAM line 0 low |
| CpuCores.PcOutInPhases0To2 | src/main/kotlin/cpucore/CpuCore.kt:77-87 | in phases 0, 1 and 2 the external bus carries PC nybble 0, 1 and 2 unless the PC is held |
| CpuCores.RamLinesInvertFlag | src/main/kotlin/cpucore/CpuCore.kt:72-74 | a CM-RAM flag k in 1..15 drives the bank lines to 15 - k |
| CpuCores.NewUnits | src/main/kotlin/cpucore/CpuCore.kt:21-30 | every unit sits on a new internal bus, and the buffer joins it to the external bus |
| CpuCores.CpuCore.constructor | src/main/kotlin/cpucore/CpuCore.kt:12-37 | SYNC starts high, both selects 0, and the decoder starts in Initial() |
| CpuCores.CpuCore.GetClkCount | src/main/kotlin/cpucore/CpuCore.kt:39-41 | the committed phase |
| CpuCores.CpuCore.Process | src/main/kotlin/cpucore/CpuCore.kt:43-48 | the core's new state is ProcessStep of the old |
| CpuCores.CpuCore.StartPhase | src/main/kotlin/cpucore/CpuCore.kt:44-45 | the new state is PhaseStartStep of the old |
| CpuCores.CpuCore.Clock | src/main/kotlin/cpucore/CpuCore.kt:45 | only the decoder moves, by ClkAndSyncStep |
| CpuCores.CpuCore.DecodePhase | src/main/kotlin/cpucore/CpuCore.kt:46 | only the decoder moves, by CalculateFlagsStep on the internal bus value |
| CpuCores.CpuCore.ResetFlags | src/main/kotlin/cpucore/CpuCore.kt:50-60 | the new state is ResetCoreStep of the old |
| CpuCores.CpuCore.Release | src/main/kotlin/cpucore/CpuCore.kt:51-58 | the pins become ReleaseStep of the old pins |
| CpuCores.CpuCore.Update | src/main/kotlin/cpucore/CpuCore.kt:62-88 | the new state is UpdateStep of the old |
| CpuCores.CpuCore.Drive | src/main/kotlin/cpucore/CpuCore.kt:63-87 | the pins become DriveStep of the old pins and the flag values |
| CpuCores.CpuCore.AdvancePc | src/main/kotlin/cpucore/CpuCore.kt:63-65 | on PCInc the PC's next value is the committed PC plus one mod 4096; otherwise it is kept |
| CpuCores.CpuCore.DriveLines | src/main/kotlin/cpucore/CpuCore.kt:66-74 | each set flag pulls its line low; CM-RAM takes the inverted low nybble of its flag |
| CpuCores.CpuCore.DriveBuses | src/main/kotlin/cpucore/CpuCore.kt:77-87 | PCOut puts PC nybble PCOut-1 on the internal bus, and an outward direction copies it to the external bus |
| RomRam.Store | src/main/kotlin/common/RomRamDecoder.kt:269-271 | the image keeps its length, the byte at an in-range index becomes the value's low eight bits, and every other byte stays |
| RomRam.Zeros | src/main/kotlin/common/RomRamDecoder.kt:68-70 | n bytes, all zero |
| RomRam.MergeNybble | src/main/kotlin/common/RomRamDecoder.kt:301-305 | the omni-mode port merge sets nybble id*4/4 (the shift count taken mod 64) to the new value and keeps the other fifteen nybbles |
| RomRam.ResetStep | src/main/kotlin/common/RomRamDecoder.kt:55-71 | reset brings every flag back to its initial value except the SRC register and character selections, zeroes the image and keeps its length, and changes nothing else |
| RomRam.LoadProgramStep | src/main/kotlin/common/RomRamDecoder.kt:81-88 | the image becomes the program and nothing else changes |
| RomRam.CreateRamStep | src/main/kotlin/common/RomRamDecoder.kt:90-99 | the RAM gets characters*registers zeroed characters, statusCharacters*registers zeroed status characters and that geometry, and nothing else changes |
| RomRam.ResetFlagsAsWritten | src/main/kotlin/common/RomRamDecoder.kt:101-112 | resetFlags as written keeps the phase counter, the SYNC latch and the chip invariant |
| RomRam.ResetFlagsStep | src/main/kotlin/common/RomRamDecoder.kt:101-112 | the corrected resetFlags keeps the phase counter, the SYNC latch and the chip invariant |
| RomRam.ClkAndSyncStep | src/main/kotlin/common/RomRamDecoder.kt:114-125 | a low SYNC or the end of phase 7 restarts the counter at 0 and marks SYNC seen; after SYNC the next phase is the committed one plus one mod 8; before it nothing changes; the chip invariant is kept |
| RomRam.SelectStep | src/main/kotlin/common/RomRamDecoder.kt:141-154 | phase 2 keeps the counter, the SYNC latch and the invariant |
| RomRam.SnoopHighStep | src/main/kotlin/common/RomRamDecoder.kt:155-182 | phase 3 keeps the counter, the SYNC latch and the invariant |
| RomRam.SnoopLowStep | src/main/kotlin/common/RomRamDecoder.kt:183-195 | phase 4 keeps the counter, the SYNC latch and the invariant |
| RomRam.StartReadStep | src/main/kotlin/common/RomRamDecoder.kt:196-222 | phase 5 keeps the counter, the SYNC latch and the invariant |
| RomRam.SrcDecodeStep | src/main/kotlin/common/RomRamDecoder.kt:224-260 | the SRC half of phase 6 keeps the counter, the SYNC latch and the invariant |
| RomRam.PortWrite | src/main/kotlin/common/RomRamDecoder.kt:295-328 | a port exists after the write exactly when it did before; its write count restarts and it is written once; outside omni mode it takes the internal-bus value; in omni mode only the SRC chip's nybble changes |
| RomRam.IoWriteStep | src/main/kotlin/common/RomRamDecoder.kt:262-330 | the write half of phase 6 keeps the counter and invariant and changes no flag except the buffer direction |
| RomRam.WritesMissingPort | src/main/kotlin/common/RomRamDecoder.kt:295-328 | a WMP on a RAM or a WRR on a ROM after an SRC, on a chip without an I/O bus: the case where `ioBus!!` at lines 308 and 325 throws; never on a chip with a port |
| RomRam.CharSelectStep | src/main/kotlin/common/RomRamDecoder.kt:332-337 | phase 7 keeps the counter, the SYNC latch and the invariant |
| RomRam.CalculateFlagsStep | src/main/kotlin/common/RomRamDecoder.kt:127-339 | calculateFlags keeps the counter, the SYNC latch and the invariant |
| RomRam.CalculateFlagsFaults | src/main/kotlin/common/RomRamDecoder.kt:127-339 | calculateFlags throws only after SYNC, in phase 6, on a chip without an I/O bus |
| RomRam.RomDriven | src/main/kotlin/common/RomRamDecoder.kt:351-361 | ROM-data request 1 drives the high nybble, and request 2 the low nybble, of the byte at an in-range address; otherwise the bus is untouched |
| RomRam.ReadsDriven | src/main/kotlin/common/RomRamDecoder.kt:362-381 | the read requests add at most three writes; with none pending the bus is untouched; a lone port request drives the port value; a valid status request leaves its status character on the bus |
| RomRam.AddressLoaded | src/main/kotlin/common/RomRamDecoder.kt:343-349 | on a ROM, address request 1 loads nybble 0 and request 2 nybble 1 from the internal bus (keeping nybble 0), both within 12 bits; otherwise the address is kept |
| RomRam.ClockOutStep | src/main/kotlin/common/RomRamDecoder.kt:384-389 | an outward bus copies the internal value to the external bus with one write; otherwise nothing changes |
| RomRam.TickStep | src/main/kotlin/common/RomRamDecoder.kt:11-13 | a rising edge commits the counter, address and instruction cells; other edges change nothing |
| RomRam.ProcessStep | src/main/kotlin/rom4001/Rom4001.kt:46-51 | a falling edge commits nothing and keeps the chip invariant; a low SYNC restarts the phase at 0; a port read request is pending only after the phase-5 edge |
| RomRam.ProcessAsWritten | src/main/kotlin/common/RomRamDecoder.kt:101-106 | with resetFlags as written a port read request, once made, is never dropped |
| RomRam.UpdateStep | src/main/kotlin/common/RomRamDecoder.kt:341-382 | update keeps the counter, the SYNC latch and the invariant |
| RomRam.ProcessAdvancesPhase | src/main/kotlin/common/RomRamDecoder.kt:114-125 | once SYNC has been seen, a falling and a rising edge advance the committed phase by one mod 8, or restart it at 0 on a low SYNC; the SYNC latch stays set |
| RomRam.IdleBeforeSync | src/main/kotlin/common/RomRamDecoder.kt:114-130 | before the first low SYNC (and off phase 7) the counter stands and the memory, port and external bus are untouched |
| RomRam.ChipSelectAtPhase2 | src/main/kotlin/common/RomRamDecoder.kt:141-154 | selected iff the external bus shows the chip id (or omni mode) and CM is low; the bus turns outward with the high-nybble request iff a selected ROM, inward otherwise |
| RomRam.ResetFlagsClearsRequests | src/main/kotlin/common/RomRamDecoder.kt:101-112 | the corrected resetFlags clears every output request, so update then drives neither the bus nor the address |
| RomRam.AsWrittenResetFlagsKeepsIoRead | src/main/kotlin/common/RomRamDecoder.kt:101-106 | as written, resetFlags leaves ioRead as it was; the corrected step differs from it only by ioRead false |
| RomRam.AsWrittenPortOverridesRom | src/main/kotlin/common/RomRamDecoder.kt:101-112 | as written, a selected ROM in phase 2 with a stale ioRead request ends update with the port value on the internal bus |
| RomRam.AsWrittenRomOutputsStalePort | src/main/kotlin/common/RomRamDecoder.kt:351-365 | the concrete example: as written, the ROM drives its port value 5 in phase 2 |
| RomRam.CorrectedRomOutputsProgramByte | src/main/kotlin/common/RomRamDecoder.kt:351-365 | with the corrected reset the same ROM drives 0xD, the high nybble of its byte 0xDE |
| RomRam.RomDrivesHighNybble | src/main/kotlin/common/RomRamDecoder.kt:141-154 | a selected ROM in phase 2 puts the high nybble of the byte at its address on the internal bus, outward, reaching the external bus after clockOut |
| RomRam.RomDrivesLowNybble | src/main/kotlin/common/RomRamDecoder.kt:155-159 | a ROM selected in phase 2 puts the low nybble of that byte on the bus in phase 3, outward |
| RomRam.RomLatchesAddress | src/main/kotlin/common/RomRamDecoder.kt:133-140 | in phases 0 and 1 a ROM latches the external-bus nybble into address nybble 0 resp. 1 and keeps the other address nybbles |
| RomRam.SnoopHighNybble | src/main/kotlin/common/RomRamDecoder.kt:155-182 | in phase 3 an I/O opcode is detected iff the high nybble is 0xE right after an SRC; the SRC flag becomes "high nybble is 2"; the nybble is latched into instruction nybble 1 only |
| RomRam.SnoopLowNybble | src/main/kotlin/common/RomRamDecoder.kt:183-195 | in phase 4 the SRC flag survives iff the low nybble is odd; the nybble goes into instruction nybble 0 only |
| RomRam.SnoopLatchesOpcode | src/main/kotlin/common/RomRamDecoder.kt:181-185 | phases 3 and 4 together latch 16*h + l as the instruction byte |
| RomRam.SrcSelectsChip | src/main/kotlin/common/RomRamDecoder.kt:223-260 | after an SRC a ROM takes the payload as chip id, a RAM bits 3..2 as id and bits 1..0 as register; the SRC stays detected iff it names this chip or omni mode |
| RomRam.RamLatchesCharacter | src/main/kotlin/common/RomRamDecoder.kt:332-337 | phase 7: a RAM latches the payload as character, a ROM keeps it, and the bus turns inward |
| RomRam.WrmStoresCharacter | src/main/kotlin/common/RomRamDecoder.kt:265-279 | WRM on a RAM stores the bus byte at the selected character and changes no other byte, the status memory or the port |
| RomRam.WrStoresStatus | src/main/kotlin/common/RomRamDecoder.kt:280-293 | WR0..WR3 on a RAM store the bus byte at the selected status character and change nothing else |
| RomRam.MemReadDrivesCharacter | src/main/kotlin/common/RomRamDecoder.kt:366-373 | a character-read request puts the selected character on the internal bus |
| RomRam.CharacterRoundTrip | src/main/kotlin/common/RomRamDecoder.kt:265-279 | a character written by WRM reads back through a later read of the same selection |
| RomRam.StatusRoundTrip | src/main/kotlin/common/RomRamDecoder.kt:280-293 | a status character written by WRn reads back through RDn of the same selection |
| RomRam.StartReadRequests | src/main/kotlin/common/RomRamDecoder.kt:196-222 | in phase 5 RDR requests a port read iff ROM, RDM/SBM/ADM a character read and RD0..RD3 status read n iff RAM, all only after an SRC; the bus turns outward iff a read started |
| RomRam.PortWriteMergesNybble | src/main/kotlin/common/RomRamDecoder.kt:295-328 | WMP on a RAM or WRR on a ROM resets the port's write count then writes it once; in omni mode only the SRC chip's nybble changes, otherwise the port takes the bus value |
| RomRam.FaultOnlyWithoutPort | src/main/kotlin/common/RomRamDecoder.kt:308-325 | process stops short only in phase 6 on a chip without an I/O bus |
| RomRam.ResetZeroesImage | src/main/kotlin/common/RomRamDecoder.kt:55-71 | reset zeroes every byte of the image, keeps its length, the status memory, the counter and the selections, and leaves the chip idle until SYNC |
| RomRam.CreateRamSizes | src/main/kotlin/common/RomRamDecoder.kt:90-99 | the RAM gets characters*registers zeroed characters and statusCharacters*registers zeroed status characters |
| RomRam.StepsKeepInv | src/main/kotlin/common/RomRamDecoder.kt:55-389 | every step keeps the counter within 0..7 and the address within 12 bits |
| RomRam.NewParts | src/main/kotlin/common/RomRamDecoder.kt:11-16 | a new zeroed 12-bit address register and 8-bit instruction register on a new internal bus, a zeroed counter, and the buffer to the external bus |
| RomRam.RomRamDecoder.constructor | src/main/kotlin/common/RomRamDecoder.kt:8-53 | a ROM-mode chip with id 0, no memory and the initial flags, on the given buses and lines |
| RomRam.RomRamDecoder.Reset | src/main/kotlin/common/RomRamDecoder.kt:55-71 | the new state is ResetStep of the old |
| RomRam.RomRamDecoder.ZeroData | src/main/kotlin/common/RomRamDecoder.kt:68-70 | the loop leaves as many zero bytes as the image held and changes nothing else |
| RomRam.RomRamDecoder.SetID | src/main/kotlin/common/RomRamDecoder.kt:73-75 | only the id changes, and GetID returns it |
| RomRam.RomRamDecoder.GetID | src/main/kotlin/common/RomRamDecoder.kt:77-79 | the chip id last set |
| RomRam.RomRamDecoder.LoadProgram | src/main/kotlin/common/RomRamDecoder.kt:81-88 | a ROM takes the program as its image; a RAM reports the error and nothing changes |
| RomRam.RomRamDecoder.CreateRamMemory | src/main/kotlin/common/RomRamDecoder.kt:90-99 | a RAM gets the zeroed banks; a ROM reports the error and nothing changes |
| RomRam.RomRamDecoder.ResetFlags | src/main/kotlin/common/RomRamDecoder.kt:101-112 | the new state is ResetFlagsStep of the old |
| RomRam.RomRamDecoder.ClkAndSync | src/main/kotlin/common/RomRamDecoder.kt:114-125 | the new state is ClkAndSyncStep of the old and the committed SYNC |
| RomRam.RomRamDecoder.CalculateFlags | src/main/kotlin/common/RomRamDecoder.kt:127-339 | the new state is CalculateFlagsStep of the old; ok is false exactly where a missing I/O bus is dereferenced |
| RomRam.RomRamDecoder.SelectChip | src/main/kotlin/common/RomRamDecoder.kt:141-154 | the new state is SelectStep of the old |
| RomRam.RomRamDecoder.SnoopHigh | src/main/kotlin/common/RomRamDecoder.kt:155-182 | the new state is SnoopHighStep of the old |
| RomRam.RomRamDecoder.SnoopLow | src/main/kotlin/common/RomRamDecoder.kt:183-195 | the new state is SnoopLowStep of the old |
| RomRam.RomRamDecoder.StartRead | src/main/kotlin/common/RomRamDecoder.kt:196-222 | the new state is StartReadStep of the old |
| RomRam.RomRamDecoder.DecodeSrc | src/main/kotlin/common/RomRamDecoder.kt:224-260 | the new state is SrcDecodeStep of the old |
| RomRam.RomRamDecoder.WriteIo | src/main/kotlin/common/RomRamDecoder.kt:262-330 | the new state is IoWriteStep of the old; ok is false exactly on a port write without a port |
| RomRam.RomRamDecoder.WriteOutput | src/main/kotlin/common/RomRamDecoder.kt:295-328 | the bus turns inward and the port takes PortWrite; ok iff there is a port |
| RomRam.RomRamDecoder.WriteCharacter | src/main/kotlin/common/RomRamDecoder.kt:265-279 | the bus turns inward and the selected character takes the bus byte when in range, its index going into the address register |
| RomRam.RomRamDecoder.WriteStatus | src/main/kotlin/common/RomRamDecoder.kt:280-293 | the bus turns inward and the selected status character takes the bus byte when in range |
| RomRam.RomRamDecoder.WritePort | src/main/kotlin/common/RomRamDecoder.kt:299-309 | the port becomes PortWrite of the old state; ok iff there is a port |
| RomRam.RomRamDecoder.SelectCharacter | src/main/kotlin/common/RomRamDecoder.kt:332-337 | the new state is CharSelectStep of the old |
| RomRam.RomRamDecoder.Update | src/main/kotlin/common/RomRamDecoder.kt:341-382 | the new state is UpdateStep of the old |
| RomRam.RomRamDecoder.LoadAddress | src/main/kotlin/common/RomRamDecoder.kt:343-349 | the address register becomes AddressLoaded of the old state |
| RomRam.RomRamDecoder.DriveRom | src/main/kotlin/common/RomRamDecoder.kt:351-361 | the internal bus becomes RomDriven of the flags, image and address |
| RomRam.RomRamDecoder.DriveReads | src/main/kotlin/common/RomRamDecoder.kt:362-381 | the internal bus becomes ReadsDriven of the flags, memory and port |
| RomRam.RomRamDecoder.ClockOut | src/main/kotlin/common/RomRamDecoder.kt:384-389 | the new state is ClockOutStep of the old |
| RomRam.RomRamDecoder.Tick | src/main/kotlin/common/RomRamDecoder.kt:11-13 | the new state is TickStep of the old and the edge |
| Roms.Rom4001.constructor | src/main/kotlin/rom4001/Rom4001.kt:10-28 | a new ROM-mode decoder on the given buses and lines |
| Roms.Rom4001.GetClkCount | src/main/kotlin/rom4001/Rom4001.kt:30-32 | the committed phase |
| Roms.Rom4001.SetRomID | src/main/kotlin/rom4001/Rom4001.kt:34-36 | only the chip id changes, and getRomID returns it |
| Roms.Rom4001.GetRomID | src/main/kotlin/rom4001/Rom4001.kt:38-40 | the chip id held in the decoder's state |
| Roms.Rom4001.LoadProgram | src/main/kotlin/rom4001/Rom4001.kt:42-44 | the image becomes the program while in ROM mode |
| Roms.Rom4001.Clock | src/main/kotlin/rom4001/Rom4001.kt:20-27 | a falling edge runs process, any other edge clockOut |
| Roms.Rom4001.Process | src/main/kotlin/rom4001/Rom4001.kt:46-51 | the new state is ProcessStep of the old, SYNC and CM; ok is false exactly on ProcessFaults |
| Rams.Ram4002.constructor | src/main/kotlin/ram4002/Ram4002.kt:10-27 | a new decoder in RAM mode on the given buses and lines |
| Rams.Ram4002.GetClkCount | src/main/kotlin/ram4002/Ram4002.kt:29-31 | the committed phase |
| Rams.Ram4002.SetRamID | src/main/kotlin/ram4002/Ram4002.kt:33-35 | only the chip id changes, and getRamID returns it |
| Rams.Ram4002.GetRamID | src/main/kotlin/ram4002/Ram4002.kt:37-39 | the chip id held in the decoder's state |
| Rams.Ram4002.CreateRamMemory | src/main/kotlin/common/RomRamDecoder.kt:90-99 | a chip in RAM mode gets zeroed banks of the given geometry; ok reports whether it was in RAM mode |
| Rams.Ram4002.Clock | src/main/kotlin/ram4002/Ram4002.kt:19-26 | a falling edge runs process, any other edge clockOut |
| Rams.Ram4002.Process | src/main/kotlin/ram4002/Ram4002.kt:41-46 | the new state is ProcessStep of the old, SYNC and CM; ok is false exactly on ProcessFaults |
| Programs.InstructionByte | src/main/kotlin/instruction/Programs.kt:207 | the appended byte is opcode plus operand for a nybble operand on a clear low nybble, the operand's low byte for opcode 0, and the opcode for operand 0 |
| Programs.InstructionByteIsOr | src/main/kotlin/instruction/Programs.kt:207 | the byte equals the bitwise OR of the opcode and the operand's 32-bit pattern, truncated to eight bits |
| Programs.OrShortcuts | src/main/kotlin/instruction/Programs.kt:207 | OR with zero is the other operand, and OR of a nybble into a clear (or odd-opcode, even-operand) low nybble is addition |
| Programs.ToUInt32Int | src/main/kotlin/instruction/Programs.kt:207 | Int.toUInt keeps the low 32 bits of the two's-complement pattern, so the low byte is the operand mod 256 |
| Programs.AddInstruction | src/main/kotlin/instruction/Programs.kt:206-208 | exactly one byte, InstructionByte(inst, operand), is appended and the earlier bytes stay |
| Programs.FillEmptyProgramData | src/main/kotlin/instruction/Programs.kt:200-204 | the list is padded with zero bytes to 256, the existing bytes stay, and a list of 256 or more is left alone |
| Programs.GenLEDCount | src/main/kotlin/instruction/Programs.kt:5-19 | 256 bytes: sixteen five-byte passes, pass i loading i, then JUN 0 and zero padding |
| Programs.GenLEDCountUsingAdd | src/main/kotlin/instruction/Programs.kt:21-60 | 256 bytes: the set-up, the loop from 5 with ADD r4, the jump back to the loop start at 21-22 and zero padding |
| Programs.ShifterSetup | src/main/kotlin/instruction/Programs.kt:68-87 | the first eight bytes, with the loop counter load LDM (16 - steps) at 4, and the outer-loop label 2 |
| Programs.ShifterInnerLoop | src/main/kotlin/instruction/Programs.kt:89-119 | the inner loop appended, with the back-patched branch target 20 and the jump back to 8 |
| Programs.ShifterLoopCheck | src/main/kotlin/instruction/Programs.kt:121-146 | the loop check appended, with the branch to the outer start and the jump back to the inner loop |
| Programs.GenShifter | src/main/kotlin/instruction/Programs.kt:62-150 | 256 bytes; the JCN at 16 is patched to 20, the one at 29 targets the outer start 2, both JUNs target 8, zero padding from 37 |
| GamePrograms.MainLoopCode | src/main/kotlin/games/game1/programs/MainProgram.kt:70-87 | nine bytes: a JMS whose 12-bit target is the checkJump label, and a closing JUN to address 0 |
| GamePrograms.CheckJumpCode | src/main/kotlin/games/game1/programs/MainProgram.kt:89-110 | sixteen bytes: a jump-if-not-zero to the handleJump label, another to the startJump label, and a closing BBL |
| GamePrograms.GenPass | src/main/kotlin/games/game1/programs/MainProgram.kt:61-68 | a pass is 34 bytes, and the three label operands sit at bytes 1, 11 and 23 |
| GamePrograms.GenPassLayout | src/main/kotlin/games/game1/programs/MainProgram.kt:61-68 | a pass is 34 bytes with its blocks at 0, 9, 25 and 26 whatever the old labels, and the label operands sit at 1, 11 and 23 |
| GamePrograms.FinalLabelsResolve | src/main/kotlin/games/game1/programs/MainProgram.kt:51-68 | in the final listing the call at 0 and the branches at 10 and 22 reach the first instructions of checkJump, handleJump and startJump |
| GamePrograms.MainProgram.constructor | src/main/kotlin/games/game1/programs/MainProgram.kt:43-49 | an empty listing and zero labels |
| GamePrograms.MainProgram.Add | src/main/kotlin/games/game1/programs/MainProgram.kt:136-138 | one byte is appended, AddInstruction of the old listing; the labels stay |
| GamePrograms.MainProgram.MainLoop | src/main/kotlin/games/game1/programs/MainProgram.kt:70-87 | the mainLoop bytes for the current checkJump label are appended |
| GamePrograms.MainProgram.SendPause | src/main/kotlin/games/game1/programs/MainProgram.kt:70-87 | the pause signal and the jump to 0 are appended |
| GamePrograms.MainProgram.CheckJump | src/main/kotlin/games/game1/programs/MainProgram.kt:89-110 | the checkJump label becomes the old length and the checkJump bytes are appended |
| GamePrograms.MainProgram.ReadJumpInput | src/main/kotlin/games/game1/programs/MainProgram.kt:90-97 | the handleJump test and the port read are appended |
| GamePrograms.MainProgram.TestJumpInput | src/main/kotlin/games/game1/programs/MainProgram.kt:98-109 | the rotate-and-test bytes with the startJump target are appended |
| GamePrograms.MainProgram.StartJump | src/main/kotlin/games/game1/programs/MainProgram.kt:112-117 | the startJump label becomes the old length and LDM 1 is appended |
| GamePrograms.MainProgram.HandleJump | src/main/kotlin/games/game1/programs/MainProgram.kt:119-134 | the handleJump label becomes the old length and the handleJump bytes are appended |
| GamePrograms.MainProgram.Gen | src/main/kotlin/games/game1/programs/MainProgram.kt:61-68 | the listing becomes one pass with the old labels, and the labels become 9, 25 and 26 |
| GamePrograms.MainProgram.Create | src/main/kotlin/games/game1/programs/MainProgram.kt:51-58 | two passes give the 34-byte listing whose jump operands are the final labels 9, 26 and 25 |
| LogicAnalyzers.Record | src/main/kotlin/logicanalyzer/LogicAnalyzer.kt:37-42 | the snapshot is the newest entry, and a history of up to 16 becomes the last min(n+1, 16) of history plus snapshot |
| LogicAnalyzers.RecordAllWindow | src/main/kotlin/logicanalyzer/LogicAnalyzer.kt:34-47 | after any run of cycles the history is the last min(n+k, 16) snapshots of the whole sequence, oldest first |
| LogicAnalyzers.LogicAnalyzer.constructor | src/main/kotlin/logicanalyzer/LogicAnalyzer.kt:16-22 | no channels, no history, cycle 0 |
| LogicAnalyzers.LogicAnalyzer.SetChannel | src/main/kotlin/logicanalyzer/LogicAnalyzer.kt:25-32 | slot pos is replaced, or the channel is appended when pos is the row length; history and cycle stay |
| LogicAnalyzers.LogicAnalyzer.RunCycle | src/main/kotlin/logicanalyzer/LogicAnalyzer.kt:34-47 | the history becomes Record of the old one and the row, the cycle count goes up with 32-bit wrap, and the size is 50 per snapshot by 50 per channel |

## Left out

- The clock `Observable` and its subscriptions are left out. The clock becomes explicit calls: for a falling edge, `Process`/`Clock(0)`; for a rising edge, `Tick` and `ClockOut`. The order in which subscribers are notified is not modelled.
- The `MutableList`s that objects own (program images, RAM banks, index registers, stack levels, the analyzer's channels and history) are `seq` fields, reassigned by the methods. Aliasing of a list handed to `loadProgram` is not modelled: the chip keeps a copy.
- Inheritance becomes composition: `Ram4002` and the `Maskable` subclasses hold the object they extend. `Rom4001` is given an I/O bus parameter and passes it to its decoder. In the source, `Rom4001` constructs `RomRamDecoder` without one, which does not match that class's constructor.
- Chip ids are `int`, not `Long`. The unused `romID` fields of `Rom4001` and `Ram4002` are left out.
- Logging (`log.debug`, `log.info` in `create`, the warnings in `AddressStack`) is left out: it affects no state.
- Left out as display-only: the renderer fields (`drivingBus`, the display names and strings, `instChanged`), `valueRegs` with `calculateValueRegisters`, and `LogicAnalyzer.render` with its `ReentrantLock`.
- Concurrency is not modelled: every method runs alone.
- `Bus.kt` as shown has no width, mask or `init`, although its callers use them. The model gives `Bus` a `Maskable` width, and `read` returns the stored value unmasked.
- The handlers `handleFIN_JIN`, `handleBBL`, `handleWMP` and `handleWRR` are not part of this model. Neither are the ALU's `evaluate` and the decoder's `setBusDirectionAToB`. The dispatch routes FIN/JIN, BBL, WMP and WRR to no-ops.
- JCN and ISZ conditions are not computed. Their outcome arrives as the `evalResult` parameter.
- The `IoOps.kt` handlers for write, read, SBM and ADM are modelled on their own. `decodeCurrentInstruction` never calls them: it only sets `decodeAgain` for their family.
- LogicAnalyzers.LogicAnalyzer.RunCycle: the two `Int` products in the reported `Dimension` are not wrapped to 32 bits. They overflow only with more than 2^31 / 50 channels.
- AddressStacks.AddressStack.StackPush: requires the stack pointer to be below 3. A push with the pointer already past the top indexes past the list in the source and throws.
- AddressStacks.AddressStack.StackPop: requires the stack pointer to be below 3, for the same reason.
- AddressStacks.AddressStack.constructor: builds the levels 12 bits wide, the corrected width (see Findings). `AddressStack.AsWritten` builds them with the source's data-bus width.
- `CpuCore.kt` never acts on the decoder's `StackPush` and `StackPop` flags, and no other file calls `stackPush` or `stackPop`. The stack is therefore modelled on its own; `CallAndReturn` composes a push and a pop directly.
- Dispatch.DecodeStep: routes on the numeric family `16 * HighNybble(currInstruction)`. `Decoder.kt` line 176 takes the family as a signed `Byte` and compares it with `UInt` constants; that comparison does not type-check, and read as signed bytes the families from 0x80 up (ADD, SUB, LD, XCH, BBL, LDM, the I/O and accumulator groups) would never match. The model routes every family as the constants intend.
- CpuCores.DecodePhaseStep: passes the internal bus value to the decoder's `calculateFlags`. `CpuCore.kt` line 46 calls `decoder.calculateFlags()` with no argument, which does not match the one-parameter signature at `Decoder.kt` line 93; the model takes the bus the core owns.
- RomRam.RomRamDecoder.constructor, Roms.Rom4001.constructor and Rams.Ram4002.constructor: require the I/O bus to be a different object from the external bus. The source does not check this. The model needs the two distinct to keep a port write from changing the data bus; a chip whose port is its own data bus is not modelled.
- Index.IndexRegisters.Read, ReadDirect, WriteDirect, Write, Increment and IsRegisterZero: require the selected index to be one of the sixteen registers. The source's list indexing throws otherwise.
- Decoders.Decoder.WriteFlag: requires the flag to be in the table. The source's `!!` throws otherwise.
- LogicAnalyzers.LogicAnalyzer.SetChannel: requires `0 <= pos <= size`. The list's `add` and `set` throw outside that range.
- RomRam.RomRamDecoder: the class uses the corrected `resetFlags` (see Findings). Where the source would dereference a missing I/O bus, an exception in the source, the methods return `ok == false`.
- Some long source functions are split into helper methods, each covering a contiguous block of the body, in source order. The split changes no emitted byte and no flag:
  - `genShifter` into `ShifterSetup`, `ShifterInnerLoop` and `ShifterLoopCheck`;
  - `mainLoop` into `SendPause`;
  - `checkJump` into `ReadJumpInput` and `TestJumpInput`;
  - `handleFIM_SRC` into `HandleFim` and `HandleSrc`;
  - `handleJCN_JMS_ISZ_JUN` into `HandleFirstCycle` and `HandleSecondCycle`;
  - the flag part of `calculateFlags` into `WritePhaseFlags`.

## Findings

| source | as written | input that shows it | evidently intended | confidence | as-written member | corrected member |
|---|---|---|---|---|---|---|
| src/main/kotlin/addressstack/AddressStack.kt:25 | the stack levels are `BusWidth` (4 bits) wide, so `stackPush` keeps only bits 0..3 of the PC | a subroutine call from 0x123 returns to 0x003 | levels as wide as the 12-bit PC, so a return restores the whole address | not executed | AddressStacks.AsWrittenPushPopLosesHighBits | AddressStacks.CorrectedPushPopRestoresPc |
| src/main/kotlin/common/RomRamDecoder.kt:101-106 | `resetFlags` clears every read request except `ioRead`, and `update` lets `ioRead` override the ROM byte | `RomRam.StaleReadExample`: a ROM whose port shows 5, byte 0 is 0xDE, one cycle after an RDR; in phase 2 it drives 5 instead of 0xD | `ioRead` cleared with the other requests, so a port read lasts one cycle | not executed | RomRam.AsWrittenRomOutputsStalePort | RomRam.ResetFlagsStep |

# Properties of a 65C02 emulator and its peripherals

A Dafny model of a cycle-stepped 65C02 board emulator and of the cc65 debug info reader
that comes with it, with proofs of what they promise. `dafny verify dfyconfig.toml` checks
everything.

- **The core** (`Words`, `CpuTypes`, `Isa`, `InstructionMachine`, `Future`, `Lift`, `Access`,
  `Cpu`, `Keeping`, `Meaning`, `Opcodes`, `Decoding`, `Runs`, `Driving`, `Calls`, `Playing`,
  `Deviations`). `Isa` says what each of the 256 opcodes does in one go, and in how many cycles,
  through the decoding tables of the core. `Opcodes` says the same a second time by opcode
  number, in bits and numbers, and `Decoding` proves that both agree. `Cpu` is the core as it
  is written, a class whose handlers each do a part of one cycle. The link is `Future`: the
  state that the instruction in progress is going to end in, as a function of any micro-state.
  Each handler keeps it, so each tick of the core is a tick of the `InstructionMachine`, and
  what holds of that machine's runs (`Runs`: progress, RDY stalls, NMI, IRQ masking) holds of
  the core under any votes of the devices (`Driving`). `Access` counts bus accesses, `Meaning`
  says in numbers what the one-shot instructions compute, `Calls` that calls, interrupts and
  register saves nest, and `Playing` that they do so in the core.
- **The clock scheduler** (`IntrusiveList`, `Clock`). The list is a ring of nodes on the
  heap that is walked, changed and decremented in one pass. Each clock's age, as its edges
  and remaining ticks tell it, grows by exactly the time that passes; the number of edges is
  a function of the age.
- **The debug info index** (`Collection`, `SpanIndex`, `Symbols`, `TypeStrings`): the
  in-place quicksort, the five steps that build the index from addresses to spans, the
  searches, and the reader of type strings with the printer it undoes.
- **The socket ring buffer** (`RingSocket`): two threads as interleaved atomic steps.
- **The EEPROM** (`Eeprom`): timed page loads and the nested protection sequences.
- **VIA, ACIA and interrupt votes** (`Bus`, `Via`, `Acia`, `Board`, `Computer`): timer 1, flags,
  votes, and the core on one bus with such devices.
- **SD card and bit-banged SPI** (`SdCard`, `BitbangSpi`): the byte protocol and the bits
  that carry it.

Masks of voters, page places and flags are sets of bit numbers (or of flags). `hide`
statements only narrow what a proof looks at.

## Where the code surprises

The model follows the code where the code and its comments or a datasheet disagree.

- `CPU_PAGE_BOUNDARY` is set on a page crossing and never cleared, so six instructions that
  have a fixed number of cycles take one less after it (`IsaDeviations.FixedCyclesExact` says
  exactly when, `PageFlagExact` that no other opcode is affected). `Isa.Outcome` carries the
  flag; results do not depend on it.
- BRK pushes the address one past its opcode (`CallNesting.BrkReturns`). RMB and SMB shift
  the opcode right by eight and so always change bit 0, BBR and BBS look at the whole byte (a
  logical instead of a bitwise and) and do not sign-extend their offset, decimal ADC drops
  carries out of a digit, and decimal SBC corrects the accumulator it started with.
  Except for BRK, `IsaDeviations` has for each of these the exact condition under which the
  outcome is the documented one all the same, and a case in which it is not.
- BIT immediate sets N and V, and WAI is a NOP (`BitImmediateExact`, `BitImmediateFails`, `WaiIsNop`).
- A comment in `core/src/clock.c:250-251` has the main clock tick before derived clocks. It
  does if and only if no derived clock is due with it; otherwise one derived clock, the head of
  the list, is reported first (`ClockContext.Report`, `ClockContext.HalfTick`, and
  `ClockScheduler.DerivedFirst` for an input).
- The interrupt enable register of the VIA does not gate the interrupt:
  `ViaModel.IerGatesExact` says when that makes no difference, `ViaModel.RequestNotEnabled`
  is a case where it does.
- Writing a data register of the VIA clears the flag of C2 just when C2 is an independent input,
  which is meant to be spared (`ViaModel.IndependentExact`).
- The baud rate table of the ACIA has 364 for 4800 baud, where 1.8432 megahertz ask for 384
  (`AciaModel.BaudExact`).
- With a main clock of one nanosecond and any other clock listed, the loop of the half tick is
  not entered in the high phase, so the main clock stays high and time stops
  (`ClockContext.MainTick`). A derived clock of one nanosecond may be late with a rising edge, and
  always is if it is alone (`ClockScheduler.LateAlone`).
- A mistyped `defaut:` label (`io/sdcard/src/sdcard.c:114`) leaves a command that a ready card
  does not know unanswered, and the card then takes all that comes, filler included, as
  further commands (`SdCardModel.ReadAfterUnknown`). The initialising card does the same.
- The R7 response never sends its first byte (`SdCardModel.Cmd8Echo`).

## Model

| member | source | states |
|---|---|---|
| Words.JoinIsSum | core/src/cpu.c:218 | or-ing a high byte into an address that holds only a low byte is low + 256 * high |
| Words.JoinHalves | core/src/cpu.c:1783-1787 | the two bytes an entry pushes for the program counter join to it again, whatever it is |
| CpuTypes.StatusRoundTrip | core/src/cpu.c:18-45 | packing the eight flags into the status byte and unpacking them loses nothing |
| CpuTypes.StatusByteRoundTrip | core/src/cpu.c:18-45 | every byte is the packing of the flags it unpacks to |
| CpuCore.Emulator.constructor | core/src/cpu.c:1950-1961 | the core starts at the reset entry with all registers zero but the unused status bit, in a reachable state |
| CpuCore.Emulator.AdvanceState | core/src/cpu.c:113-121 | the micro-state changes and, if asked, the cycle is used up; nothing else changes |
| CpuCore.Emulator.Push8 | core/src/cpu.c:82-85 | the byte is at the old stack pointer, which then goes down, wrapping in a byte |
| CpuCore.Emulator.Pull8 | core/src/cpu.c:87-90 | the stack pointer goes up first, wrapping, and the byte there is returned |
| CpuCore.Emulator.GetValue | core/src/cpu.c:500-514 | the accumulator in accumulator mode, else the byte at the effective address |
| CpuCore.Emulator.PutValue | core/src/cpu.c:516-528 | stores to the accumulator in accumulator mode, else to the effective address, and changes nothing else |
| CpuCore.Emulator.Implied | core/src/cpu.c:125-140 | implied and accumulator mode: one dispatch leaves the operand still to be resolved the one that was to be, takes its cycle off what is left, and hands over with what the operation looks at |
| CpuCore.Emulator.Immediate | core/src/cpu.c:142-149 | immediate mode: one dispatch leaves the operand still to be resolved the one that was to be, takes its cycle off what is left, and hands over with what the operation looks at |
| CpuCore.Emulator.ZeroPage | core/src/cpu.c:151-156 | zero page mode: one dispatch leaves the operand still to be resolved the one that was to be, takes its cycle off what is left, and hands over with what the operation looks at |
| CpuCore.Emulator.ZeroPageIndexed | core/src/cpu.c:158-188 | zero page mode indexed by X or Y, wrapping in the page: one dispatch leaves the operand still to be resolved the one that was to be, takes its cycle off what is left, and hands over with what the operation looks at |
| CpuCore.Emulator.Relative | core/src/cpu.c:190-198 | relative mode, with its sign-extended offset: one dispatch leaves the operand still to be resolved the one that was to be, takes its cycle off what is left, and hands over with what the operation looks at |
| CpuCore.Emulator.Absolute | core/src/cpu.c:200-233 | absolute mode, which JSR bypasses and JMP leaves a cycle early: one dispatch leaves the operand still to be resolved the one that was to be, takes its cycle off what is left, and hands over with what the operation looks at |
| CpuCore.Emulator.AbsoluteIndexed | core/src/cpu.c:235-309 | absolute mode indexed by X or Y, with the cycle for a page crossing: one dispatch leaves the operand still to be resolved the one that was to be, takes its cycle off what is left, and hands over with what the operation looks at |
| CpuCore.Emulator.Indirect | core/src/cpu.c:311-341 | the two 16-bit indirect modes (the indexed one is at lines 435-468): one dispatch leaves the operand still to be resolved the one that was to be, takes its cycle off what is left, and hands over with what the operation looks at |
| CpuCore.Emulator.IndexedIndirect | core/src/cpu.c:343-369 | (zp,X), whose pointer wraps in page zero: one dispatch leaves the operand still to be resolved the one that was to be, takes its cycle off what is left, and hands over with what the operation looks at |
| CpuCore.Emulator.IndirectIndexed | core/src/cpu.c:371-410 | (zp),Y, with the cycle for a page crossing: one dispatch leaves the operand still to be resolved the one that was to be, takes its cycle off what is left, and hands over with what the operation looks at |
| CpuCore.Emulator.ZeroPageIndirect | core/src/cpu.c:412-433 | (zp): one dispatch leaves the operand still to be resolved the one that was to be, takes its cycle off what is left, and hands over with what the operation looks at |
| CpuCore.Emulator.ZeroPageRelative | core/src/cpu.c:470-498 | zero page and relative, for the bit branches: one dispatch leaves the operand still to be resolved the one that was to be, takes its cycle off what is left, and hands over with what the operation looks at |
| CpuCore.Emulator.SingleOperand | core/src/cpu.c:575-589 | an operation without a second cycle gets what it looks at, and reads the bus only if it looks |
| CpuCore.Emulator.SingleCycle | core/src/cpu.c:575-589 | the operations without a second cycle (this one and those like it, to line 1562): one dispatch uses up the cycle, leaves the registers of the one-shot instruction and reads the bus just if the operation has an operand to look at |
| CpuCore.Emulator.AddIn | core/src/cpu.c:538-554 | the binary sum and its flags, and whether a decimal correction is still to follow |
| CpuCore.Emulator.AddSubtract | core/src/cpu.c:530-573 | ADC and, at lines 1319-1360, SBC: each dispatch keeps the final registers and memory the operation was heading for, takes its cycle off what is left and makes its bus accesses; the last one leaves just those registers and memory |
| CpuCore.Emulator.Shift | core/src/cpu.c:591-629 | ASL and, at lines 1046-1086 and 1184-1258, LSR, ROL and ROR: each dispatch keeps the final registers and memory the operation was heading for, takes its cycle off what is left and makes its bus accesses; the last one leaves just those registers and memory |
| CpuCore.Emulator.Branch | core/src/cpu.c:631-721 | conditional branches and BRA and, at lines 1682-1768, BBR and BBS: each dispatch keeps the final registers and memory the operation was heading for, takes its cycle off what is left and makes its bus accesses; the last one leaves just those registers and memory |
| CpuCore.Emulator.TakeBranch | core/src/cpu.c:645-676 | the cycles of a taken branch, one more if it leaves the page |
| CpuCore.Emulator.Break | core/src/cpu.c:723-729 | BRK turns into an entry through its vector that skips the two discarded reads |
| CpuCore.Emulator.Latch | core/src/cpu.c:600-606 | the modified value and its flags are latched from what the instruction looks at; nothing is stored yet |
| CpuCore.Emulator.PutResult | core/src/cpu.c:625-628 | storing the latched value ends the operation, with the machine the one-shot store leaves |
| CpuCore.Emulator.StartStep | core/src/cpu.c:824-838 | the first dispatch of INC and DEC takes its fixed penalty cycle just if it has not been paid by a page crossing, and reads the bus just then |
| CpuCore.Emulator.IncDec | core/src/cpu.c:818-867 | DEC and, at lines 904-951, INC: each dispatch keeps the final registers and memory the operation was heading for, takes its cycle off what is left and makes its bus accesses; the last one leaves just those registers and memory |
| CpuCore.Emulator.JumpSubroutine | core/src/cpu.c:979-1008 | JSR, which reads its high byte after both pushes: each dispatch keeps the final registers and memory the operation was heading for, takes its cycle off what is left and makes its bus accesses; the last one leaves just those registers and memory |
| CpuCore.Emulator.PushReg | core/src/cpu.c:1108-1137 | PHA, PHP, PHX and PHY: each dispatch keeps the final registers and memory the operation was heading for, takes its cycle off what is left and makes its bus accesses; the last one leaves just those registers and memory |
| CpuCore.Emulator.PullReg | core/src/cpu.c:1139-1182 | PLA, PLP, PLX and PLY: each dispatch keeps the final registers and memory the operation was heading for, takes its cycle off what is left and makes its bus accesses; the last one leaves just those registers and memory |
| CpuCore.Emulator.ReturnInterrupt | core/src/cpu.c:1260-1287 | RTI: each dispatch keeps the final registers and memory the operation was heading for, takes its cycle off what is left and makes its bus accesses; the last one leaves just those registers and memory |
| CpuCore.Emulator.ReturnSubroutine | core/src/cpu.c:1289-1317 | RTS: each dispatch keeps the final registers and memory the operation was heading for, takes its cycle off what is left and makes its bus accesses; the last one leaves just those registers and memory |
| CpuCore.Emulator.Save | core/src/cpu.c:1380-1509 | STA, STX, STY and STZ, with the extra cycle that depends on the sticky page flag: each dispatch keeps the final registers and memory the operation was heading for, takes its cycle off what is left and makes its bus accesses; the last one leaves just those registers and memory |
| CpuCore.Emulator.ChangeBits | core/src/cpu.c:1568-1680 | TRB, TSB, RMB and SMB: each dispatch keeps the final registers and memory the operation was heading for, takes its cycle off what is left and makes its bus accesses; the last one leaves just those registers and memory |
| CpuCore.Emulator.SaveState | core/src/cpu.c:1782-1809 | the three pushes of an entry keep the state the entry will end in and take a cycle each |
| CpuCore.Emulator.Vector | core/src/cpu.c:1770-1837 | each step of an entry keeps the state it will end in; the last one leaves it |
| CpuCore.Emulator.OperandPhase | core/src/cpu.c:1997-2000 | whatever the addressing mode, one dispatch of its handler is progress of the operand and never a dead end |
| CpuCore.Emulator.ValuePhase | core/src/cpu.c:1900-1919 | single-cycle operations, ADC, SBC and stores: one dispatch is progress |
| CpuCore.Emulator.ModifyPhase | core/src/cpu.c:1900-1919 | shifts and bit changes: one dispatch is progress |
| CpuCore.Emulator.StepPhase | core/src/cpu.c:1900-1919 | INC and DEC: one dispatch is progress |
| CpuCore.Emulator.StackPhase | core/src/cpu.c:1900-1919 | branches, pushes and pulls: one dispatch is progress |
| CpuCore.Emulator.ControlPhase | core/src/cpu.c:1900-1919 | calls, returns and BRK: one dispatch is progress |
| CpuCore.Emulator.OperationPhase | core/src/cpu.c:2001-2004 | whatever the operation, one dispatch of its handler is progress of the operation and never a dead end, with the bus accesses of that operation and state |
| CpuCore.Emulator.Dispatch | core/src/cpu.c:1997-2008 | one handler dispatch leaves the outcome of the instruction in progress as it was, takes just the cycle it consumed off the rest, gets strictly closer to consuming a cycle, and makes just the bus accesses it takes off those due in the cycle |
| CpuCore.Emulator.Begin | core/src/cpu.c:1977-1996 | at a boundary a pending NMI edge goes first, then an unmasked IRQ, then the next instruction; what will then have happened is the one-shot entry or instruction, in exactly its number of cycles |
| CpuCore.Emulator.Tick | core/src/cpu.c:1963-2012 | every tick of the core, from every reachable micro-state, is one tick of the instruction machine, in at most three handlers; while RDY is held registers, latches, memory and the pending edge stay as they are and the last bus operation is repeated; else there is exactly one bus operation, or none if the core only thinks |
| CpuCore.Emulator.Step | core/src/cpu.c:2014-2034 | from one instruction boundary to the next the core does exactly what the account by opcode number says of the opcode there, or enters through FFFA for a pending edge and FFFE for an unmasked request, in exactly the cycles it says |
| Lifting.OperateAgrees | core/src/cpu.c:1879-1919 | an operation depends on its operand only in what that kind of operation uses |
| Lifting.DeliveredAgrees | core/src/cpu.c:1879-1919 | for all 256 opcodes, what the addressing mode leaves in the latches is all that the operation looks at |
| Lifting.StartsWhole | core/src/cpu.c:2001-2004 | an operation about to start has exactly the whole one-shot operation still to do |
| Lifting.StartsAllTicks | core/src/cpu.c:2001-2004 | and exactly the whole number of its cycles |
| Lifting.OperandLifts | core/src/cpu.c:1997-2000 | progress of the operand is progress of the instruction: same final state, one cycle less |
| Lifting.Unfinished | core/src/cpu.c:2027-2031 | between boundaries at least one cycle is left |
| Lifting.StartsEntry | core/src/cpu.c:1979-1989 | turning to the first entry state is the whole one-shot entry still to come, in seven cycles |
| Lifting.StartsInstruction | core/src/cpu.c:1992-1994 | after the opcode fetch, what is still to come is the whole one-shot instruction |
| Decoding.ModeIs | core/src/cpu.c:1879-1898 | the table of addressing modes by column and line of the opcode, for all 256 |
| Decoding.HandlerIs | core/src/cpu.c:1900-1919 | the table of handlers by column and line of the opcode, for all 256 |
| Decoding.PlaceIs | core/src/cpu.c:1859-1877 | length, operand address and page crossing of every opcode, column by column, are those of its addressing mode |
| Decoding.Found | core/src/cpu.c:123-498 | where every opcode finds its operand, how long it is and whether it crosses a page, in numbers |
| Decoding.AddIs | core/src/cpu.c:530-573 | ADC, binary and decimal, as sums of numbers |
| Decoding.SubIs | core/src/cpu.c:1319-1360 | SBC, binary and decimal, as differences of numbers |
| Decoding.AluEffect | core/src/cpu.c:530-1562 | the 71 opcodes that work on the accumulator: or, and, exclusive or, sum, store, load, comparison and difference, by line |
| Decoding.ColumnEffect | core/src/cpu.c:591-1509 | the shifts, INC, DEC and the loads and stores of X in memory, by opcode |
| Decoding.AccEffect | core/src/cpu.c:591-1258 | the shifts, INC and DEC of the accumulator, by opcode |
| Decoding.BitEffect | core/src/cpu.c:1625-1680 | RMB and SMB, by opcode, as they are |
| Decoding.BitBranchEffect | core/src/cpu.c:1682-1768 | BBR and BBS, by opcode, as they are |
| Decoding.BranchEffect | core/src/cpu.c:631-721 | each branch opcode looks at its own flag, and goes to its signed offset |
| Decoding.OperandEffect | core/src/cpu.c:679-1620 | BIT, TSB, TRB, STZ, STY, the other loads and comparisons, by opcode |
| Decoding.StackEffect | core/src/cpu.c:1108-1182 | which register each push and pull opcode moves, and the status byte bit by bit |
| Decoding.TransferEffect | core/src/cpu.c:723-1317 | BRK through FFFE, JSR, RTI, RTS and the three jumps, by opcode |
| Decoding.ImpliedEffect | core/src/cpu.c:731-1566 | flag operations, transfers and counts by opcode; all other opcodes only skip their bytes |
| Decoding.EveryOpcode | core/src/cpu.c:1879-1919 | whatever the opcode and the state, the instruction does exactly what the independent account by opcode number says, in bits and numbers |
| Decoding.EveryOpcodesClocks | core/src/cpu.c:123-1768 | and takes exactly the clock cycles that account says |
| Decoding.EveryEntry | core/src/cpu.c:1770-1837 | NMI goes through FFFA, reset through FFFC and IRQ through FFFE; address and status are pushed, I is set, and D cleared by reset alone |
| Decoding.EveryTurn | core/src/cpu.c:1977-1996 | what the core turns to at an instruction's end, and for how long: a pending edge, an unmasked request or the instruction |
| BusAccess.OneAccess | core/src/cpu.c:1975-2009 | for all 256 opcodes and all micro-states between ticks, what is due on the bus in the cycle is one access, but for the second cycle of decimal ADC and SBC and the last cycle of a NOP with an operand |
| BusAccess.OperandTakesDue | core/src/cpu.c:1997-2000 | a dispatch of the operand phase makes just the accesses it takes off those due |
| BusAccess.OperationTakesDue | core/src/cpu.c:2001-2004 | so does one of the operation phase |
| BusAccess.OperandRests | core/src/cpu.c:1997-2000 | after an operand dispatch that used up its cycle the core is in a micro-state that occurs between ticks |
| BusAccess.OperationRests | core/src/cpu.c:2001-2004 | so it is after an operation dispatch |
| BusAccess.LookingOps | core/src/cpu.c:1879-1919 | every opcode with an operand, but NOP, looks at it, or is a call or a branch |
| CoreRuns.CycleBounds | core/src/cpu.c:1963-2012 | all 256 opcodes take two to seven cycles |
| CoreRuns.TimeIsConserved | core/src/cpu.c:1963-2012 | over any run, the cycles that were not stalled are exactly those of the work begun, less what is still to do |
| CoreRuns.Progress | core/src/cpu.c:1963-2012 | over any run, some work begins at least every seven cycles that are not stalled |
| CoreRuns.StallsVanish | core/src/cpu.c:1967-1973 | any run of the instruction machine with any number of RDY stalls in any places ends as the run without them does |
| CoreRuns.NmiServedOnce | core/src/cpu.c:1979-1984 | over any run, the edges that came while none was waiting are the NMI entries made, plus the one that still waits |
| CoreRuns.NmiLatency | core/src/cpu.c:1979-1990 | a waiting edge is served by the next work begun, right after the work in progress, whatever IRQ and stalls do |
| CoreRuns.MaskKept | core/src/cpu.c:530-1768 | no instruction but CLI, PLP and RTI clears the interrupt mask |
| CoreRuns.MaskedCycle | core/src/cpu.c:1985-1990 | a cycle that begins with the mask set serves no IRQ, and keeps it set unless CLI, PLP or RTI begins |
| CoreRuns.MaskedIrq | core/src/cpu.c:1985-1990 | over any run, once the mask is set no IRQ is served until CLI, PLP or RTI has been executed |
| CoreDriving.SevenTicksAtMost | core/src/cpu.c:1963-2012 | no reachable micro-state is more than seven cycles from an instruction boundary |
| CoreDriving.CastVotes | core/src/bus.c:488-534 | any sequence of votes by any devices: the lines are those votes folded, and an edge is pending just if one was or some vote took the NMI votes from none to some |
| CoreDriving.Cycle | core/src/cpu.c:1963-2012 | votes and a tick are one tick of the instruction machine on what the core senses of them; while RDY is held core and memory stay as they are |
| CoreDriving.Drive | core/src/cpu.c:1963-2012 | every run of the cycle-stepped core, whatever the devices vote, is a run of the instruction machine; through each stalled cycle core and memory stay as they are; the run ends as the one without its stalls; the bus is accessed once a cycle, less the cycles the core only thinks |
| CoreDriving.ServeNmiFirst | core/src/cpu.c:1979-1984 | the cycle-stepped core with an NMI edge pending starts the entry from the state the current work ends in, through the vector at FFFA, within eight cycles that are not stalled, whatever the devices vote |
| CoreDriving.EveryInput | core/src/bus.c:488-534 | every sequence of edges, stalls and requests is what the core senses of some votes |
| Computer.TickCore | core/src/cpu.c:1963-2012 | a tick of the core leaves the devices of a board and their votes as they are |
| Computer.Cycle | core/src/cpu.c:1985 | a cycle of a board of VIAs and ACIAs is a tick of the instruction machine with a request just if some device asks after the events of the cycle |
| Computer.RunCycles | core/src/cpu.c:1985 | every run of core and devices is the run of the instruction machine on the requests that follow from the events, which change the devices as they say |
| Computer.Served | core/src/cpu.c:1985-1990 | at a boundary with interrupts enabled and no NMI waiting, the core enters the handler at the address in FFFE just if some device asks, and otherwise executes the next instruction as its opcode number says |
| IsaKeeping.OperateKeeps | core/src/cpu.c:530-1768 | no operation moves the program counter but the jumps, calls, returns, branches and BRK; none clears the mask but CLI, PLP and RTI |
| IsaMeaning.SumFlagsMeaning | core/src/cpu.c:48-79 | after an addition V says that the signed sum does not fit in a byte, C that the unsigned one does not, and N and Z describe the byte |
| IsaMeaning.AddMeaning | core/src/cpu.c:530-554 | binary ADC: accumulator + 256 * carry is the sum of operands and carry; V just when the signed result is wrong |
| IsaMeaning.SubMeaning | core/src/cpu.c:1319-1342 | binary SBC: the same for a difference with borrow |
| IsaMeaning.AslMeaning | core/src/cpu.c:591-629 | ASL: result + 256 * carry is twice the operand |
| IsaMeaning.LsrMeaning | core/src/cpu.c:1046-1086 | LSR: twice the result + carry is the operand |
| IsaMeaning.RorUndoesRol | core/src/cpu.c:1184-1258 | ROR takes ROL back, byte and carry |
| IsaMeaning.RolUndoesRor | core/src/cpu.c:1184-1258 | ROL takes ROR back, byte and carry |
| IsaMeaning.StepMeaning | core/src/cpu.c:818-951 | INC and DEC take each other back |
| IsaMeaning.CompareMeaning | core/src/cpu.c:755-816 | a comparison sets C for not below, Z for equal, as unsigned bytes, and leaves V, D and I |
| IsaMeaning.BranchMeaning | core/src/cpu.c:631-677 | a taken branch adds its two's complement offset modulo 65536 |
| IsaMeaning.PageZeroAddresses | core/src/cpu.c:158-188 | the page zero modes (also lines 343-433), as arithmetic: indexing and pointers wrap in the page, (zp),Y modulo 65536 |
| IsaMeaning.AbsoluteAddresses | core/src/cpu.c:200-341 | the absolute and 16-bit indirect modes (also lines 435-468), as arithmetic modulo 65536 |
| IsaMeaning.OperandSkipsBytes | core/src/cpu.c:1859-1877 | every mode but the 16-bit indirect ones leaves the program counter after the instruction's own bytes |
| IsaMeaning.NextInstruction | core/src/cpu.c:1859-1877 | every instruction that does not transfer control continues at its address plus its length |
| CallNesting.PushSlots | core/src/cpu.c:82-85 | a push puts its byte on top and moves every other byte of the 256-byte stack one up |
| CallNesting.ExecKeepsMap | core/src/cpu.c:1963-2012 | no instruction changes which addresses are memory |
| CallNesting.JsrPushes | core/src/cpu.c:979-1008 | JSR leaves the address of its own last byte on top of the stack and the rest as it was |
| CallNesting.EntryPushes | core/src/cpu.c:1782-1808 | an entry leaves status and return address on top of the stack and the rest as it was |
| CallNesting.RtsRestores | core/src/cpu.c:1289-1317 | RTS goes to one past the address in the two top slots, with the stack pointer two up, modulo 256 |
| CallNesting.CallReturns | core/src/cpu.c:979-1008 | JSR, then anything that leaves the stack as it found it, then RTS: on at the JSR + 3, with the stack as before |
| CallNesting.RtiRestores | core/src/cpu.c:1260-1287 | RTI takes back the status and the address from the three top slots |
| CallNesting.InterruptReturns | core/src/cpu.c:1770-1837 | an entry, then anything that leaves the stack as it found it, then RTI: program counter and status are exactly what they were |
| CallNesting.BrkReturns | core/src/cpu.c:723-729 | BRK returns to the byte after its opcode, not the second one, with B set |
| CallNesting.PullReturns | core/src/cpu.c:1108-1182 | a register push, then anything that leaves the stack as it found it, then a pull: the pull takes just what was pushed |
| CallNesting.RegisterRestored | core/src/cpu.c:1108-1182 | PLA, PLX and PLY give back what PHA, PHX and PHY saved; PLP gives back the status with B and the unused bit set |
| CallNesting.NestedRunsReturn | core/src/cpu.c:979-1008 | calls, interrupts and register saves nested to any depth that fits the stack: at every level the return goes back to where it came from, with the stack as it was there |
| CorePlaying.PowerOn | core/src/cpu.c:1950-1961 | after power-on the core is in seven cycles where the reset vector at FFFC says, with interrupts masked and the stack pointer at FD |
| CorePlaying.Instruction | core/src/cpu.c:2014-2034 | a step of the cycle-stepped core with nothing waiting is one instruction, as its opcode number says, and it is as quiet afterwards |
| CorePlaying.Request | core/src/cpu.c:1977-1990 | a device that votes for an NMI, or for an IRQ that is not masked, and takes its vote back after one step, has the core enter the handler once, at the address in FFFA or FFFE |
| CorePlaying.Play | core/src/cpu.c:2014-2034 | cycle by cycle the core goes through nested calls, interrupts and register saves just as the one-shot instructions do |
| CorePlaying.PlayAndReturn | core/src/cpu.c:1770-1837 | so in every such run of the core each return at each level goes back to where its call or interrupt came from, and the stack ends as it was |
| IsaDeviations.DecimalAddExact | core/src/cpu.c:545-571 | decimal ADC of valid digits is right if and only if neither pair of digits, with the carries, adds up to more than fifteen |
| IsaDeviations.DecimalAddFails | core/src/cpu.c:555-571 | 9 + 9 comes out as 12 without carry |
| IsaDeviations.DecimalSubIgnoresOperand | core/src/cpu.c:1333-1359 | the digits and the carry of decimal SBC do not depend on the operand |
| IsaDeviations.DecimalSubExact | core/src/cpu.c:1333-1359 | decimal SBC of valid digits is right if and only if the accumulator is below 60 and the operand with the borrow is 6 or 0, as the low digit of the accumulator is at least six or not |
| IsaDeviations.DecimalSubFails | core/src/cpu.c:1343-1359 | 10 - 1 leaves 10 without borrow |
| IsaDeviations.DecimalSubAtMostOne | core/src/cpu.c:1333-1359 | whatever the accumulator, of any two different operands at least one is subtracted wrongly |
| IsaDeviations.ResetBitExact | core/src/cpu.c:1633-1637 | RMB clears the bit it names if and only if that is bit 0 or both bits are clear anyway |
| IsaDeviations.SetBitExact | core/src/cpu.c:1654-1680 | SMB sets the bit it names if and only if that is bit 0 or both bits are set anyway |
| IsaDeviations.ResetBitFails | core/src/cpu.c:1633-1637 | RMB1 takes FF to FE |
| IsaDeviations.SetBitFails | core/src/cpu.c:1654-1680 | SMB1 takes 00 to 01 |
| IsaDeviations.BranchOnBitExact | core/src/cpu.c:1682-1768 | BBR and BBS decide by the bit they name if and only if the byte is zero or that bit is set |
| IsaDeviations.BitBranchTargetExact | core/src/cpu.c:490-497 | BBR and BBS go where a signed offset says if and only if the offset is below 128 |
| IsaDeviations.BranchOnBitFails | core/src/cpu.c:1682-1768 | BBR1 falls through and BBS1 branches on a byte whose bit 1 is clear but not bit 0 |
| IsaDeviations.BitBranchTargetFails | core/src/cpu.c:490-497 | BBR0 with an offset of -2 at address 0 goes on at 257 |
| IsaDeviations.BitImmediateExact | core/src/cpu.c:679-690 | BIT immediate changes Z alone if and only if the two top bits of its operand are N and V already |
| IsaDeviations.BitImmediateFails | core/src/cpu.c:679-690 | BIT with the immediate operand C0 sets N and V |
| IsaDeviations.WaiIsNop | core/src/cpu.c:1562-1566 | WAI goes on with the next instruction after two cycles |
| IsaDeviations.FixedCyclesExact | core/src/cpu.c:1386-1404 | the stores and INC/DEC that always pay for a page crossing take their documented cycles if and only if no page was crossed before or this instruction crosses one, else one less |
| IsaDeviations.PageFlagExact | core/src/cpu.c:253-257 | for all 256 opcodes: the cycles depend on an earlier page crossing if and only if the opcode is one of those six and does not cross a page itself |
| IsaDeviations.FixedCyclesFail | core/src/cpu.c:1386-1404 | STA 1000,X takes four cycles after an earlier page crossing, five before |
| BusModel.Bus.constructor | core/src/bus.c:169-178 | nobody is registered, no signal is voted, and there is no last write to repeat |
| BusModel.Bus.ReadByte | core/src/bus.c:103-160 | the byte of memory, FF where there is none, and the operation is remembered |
| BusModel.Bus.WriteByte | core/src/bus.c:282-314 | the byte is written where memory answers, and the operation is remembered |
| BusModel.Bus.Replay | core/src/bus.c:321-331 | repeating the last operation leaves memory as it is |
| BusModel.Bus.RegisterVoter | core/src/bus.c:441-464 | hands out a voter nobody has, and fails only when all 32 are taken |
| BusModel.Bus.UnregisterVoter | core/src/bus.c:471-479 | the voter is free again and no other is |
| BusModel.Bus.SigVote | core/src/bus.c:488-534 | changes the voter's own vote on the one signal; an NMI edge is pending exactly if one was or the NMI votes went from none to some |
| IntrusiveList.AddTail | core/util/inc/util.h:67-73 | the list is well linked both ways round with the node at its end, all other nodes in their places |
| IntrusiveList.Remove | core/util/inc/util.h:94-98 | the list without the node, the others in their places |
| IntrusiveList.InsertBefore | core/util/inc/util.h:100-106 | the list with the node just before the given entry |
| ClockScheduler.PeriodIsNearest | core/src/clock.c:17-47 | refused are a period of nought, and frequencies of nought or above 1000000000 hertz; the period of any other frequency is the nearest whole number of nanoseconds |
| ClockScheduler.Clk.constructor | core/src/clock.c:49-51 | a new clock is in its low phase, with half its period, rounded down, to go |
| ClockScheduler.Clk.Fire | core/src/clock.c:229-241 | a firing clock starts its other phase and reports the edge; the phases add up to the period |
| ClockScheduler.Clk.FiringAges | core/src/clock.c:229-241 | firing a clock that had t nanoseconds to go makes it exactly t nanoseconds older |
| ClockScheduler.EdgesFollowAge | core/src/clock.c:174-304 | a clock of period p that is t nanoseconds old has reported floor(t/p) falling and floor((t + ceil(p/2))/p) rising edges, however time was divided; only a clock of one nanosecond may be one rising edge late, which then is still due |
| ClockScheduler.EdgesAreEnds | core/src/clock.c:229-241 | at the age a clock has with some ticks of a phase to go it has an edge just if the phase begins or ends there |
| ClockScheduler.ClockContext.constructor | core/src/clock.c:124-144 | an empty list and a main clock that has not ticked |
| ClockScheduler.ClockContext.Visit | core/src/clock.c:267-292 | one entry of the walk: time is taken off just that entry, and the pending clock goes before it just if the entry is not due first |
| ClockScheduler.ClockContext.Sweep | core/src/clock.c:266-292 | the walk takes the time off every listed clock once, even though it inserts into the list it walks, and reports whether any is due now |
| ClockScheduler.ClockContext.Consume | core/src/clock.c:266-299 | after the walk the list is well linked and sorted, has the clock that was taken out again, and every other clock has the time taken off |
| ClockScheduler.ClockContext.PassTime | core/src/clock.c:266-301 | all listed clocks are older by the time passed, none has less than no time to go |
| ClockScheduler.ClockContext.ReportHead | core/src/clock.c:221-242 | the first clock is taken off the list and is older by its time to go, which no listed clock has less of |
| ClockScheduler.ClockContext.TickMain | core/src/clock.c:252-264 | the main clock reports one edge and changes phase |
| ClockScheduler.ClockContext.FirstEdge | core/src/clock.c:216-247 | if no edge is nearer, the first clock has one there just if any listed clock has |
| ClockScheduler.ClockContext.Report | core/src/clock.c:216-265 | the edges due next are reported, of the first listed clock and of the main clock, in this order: the main clock's comes first just if no listed clock is due with it |
| ClockScheduler.ClockContext.Turn | core/src/clock.c:212-302 | one turn keeps the list sorted with the same clocks, ages all of them by the same time, reports just the edges of the order returned, and either takes time or leaves fewer clocks due (or as many, of which fewer are to fall) |
| ClockScheduler.ClockContext.OrderedTurn | core/src/clock.c:212-302 | over the turns so far the edges reported add up to those of every clock, and of those at the end of the half tick the main clock's comes first, or second just if some listed clock has one there |
| ClockScheduler.ClockContext.Turns | core/src/clock.c:212-302 | the loop ends, on (time left, clocks due, clocks due to fall); all clocks have aged by the half tick none is due but a low phase of no length, and the edges are in the order stated for the half tick |
| ClockScheduler.ClockContext.HalfTick | core/src/clock.c:174-304 | every clock ages by exactly the main clock's phase, the main clock reports exactly one edge if that phase takes time or no other clock is listed, the list stays a sorted ring of the same clocks; of the edges at the end of the phase the main clock's is reported first if and only if no listed clock has one then, and else second, after one listed clock's |
| ClockScheduler.ClockContext.MainTick | core/src/clock.c:312-316 | every clock ages by exactly one main period and the main clock reports both its edges once; with a main period of one nanosecond and other clocks listed the main clock does not fall again and time stops |
| ClockScheduler.ClockContext.Run | core/src/clock.c:312-316 | after any n main ticks every listed clock is n periods older and has reported exactly the edges its own period calls for at its age: no drift, whatever other clocks there are (time stops beside a main clock of one nanosecond) |
| ClockScheduler.ClockContext.EdgesFollow | core/src/clock.c:312-316 | the same, of all listed clocks at once |
| ClockScheduler.ClockContext.FirstFrom | core/src/clock.c:337-347 | finds the first clock that is not due before a given time |
| ClockScheduler.ClockContext.Place | core/src/clock.c:335-353 | the new clock joins the list, which stays sorted and well linked |
| ClockScheduler.ClockContext.Add | core/src/clock.c:326-362 | adds a clock of age zero with the period asked for, or the one nearest to the frequency, and keeps all others; refuses a period of nought and frequencies of nought or above 1000000000 hertz, and nothing else |
| ClockScheduler.ClockContext.AddAndRun | core/src/clock.c:326-362 | whatever period or frequency that is not refused: a clock of period p added to a main clock of period P with P at least 2 has after n ticks reported floor(nP/p) falling and floor((nP + ceil(p/2))/p) rising edges, one fewer only if p is 1 and the edge is still due; with P = 1 it gets no older than 1 |
| ClockScheduler.DerivedFirst | core/src/clock.c:221-264 | with main and derived clock of two nanoseconds the derived clock is reported before the main clock |
| ClockScheduler.LateAlone | core/src/clock.c:266-299 | a clock of one nanosecond that is alone in the list is, after any number of ticks of a main clock of at least two, one rising edge late |
| CollectionSort.Partition | dbginfo/dbginfo.c:924-947 | the range is rearranged around its first item: none after the split point is at or before it, none before it is after it |
| CollectionSort.QuickSort | dbginfo/dbginfo.c:915-956 | the range comes out sorted and is a rearrangement of itself, nothing outside it changes, and calls nest at most 1 + log2(n + 1) deep |
| CollectionSort.Sort | dbginfo/dbginfo.c:960-966 | the collection comes out as a sorted permutation of itself, for any total preorder |
| CollectionSort.SelectIsExact | dbginfo/dbginfo.c:960-966 | what a property picks out of a sorted collection is what it picks out of the unsorted one, in order |
| SpanIndex.CompareByAddrOrders | dbginfo/dbginfo.c:1750-1771 | the comparison of spans is a total preorder |
| SpanIndex.Placed | dbginfo/dbginfo.c:2262-2274 | a span's start index is where its addresses begin in the list of all covered addresses |
| SpanIndex.AddrsAscend | dbginfo/dbginfo.c:2194-2342 | the covered addresses are listed once each, ascending |
| SpanIndex.AddrsCovered | dbginfo/dbginfo.c:2194-2342 | an address is listed just when some span covers it |
| SpanIndex.Stretch | dbginfo/dbginfo.c:2275-2278 | a span covers exactly the listed addresses of the stretch from its start index on |
| SpanIndex.CountAddrs | dbginfo/dbginfo.c:2215-2233 | step 1 counts exactly the different addresses |
| SpanIndex.CountSpan | dbginfo/dbginfo.c:2275-2278 | one span is counted at each of its addresses and at no other |
| SpanIndex.CountSpans | dbginfo/dbginfo.c:2242-2279 | step 3 counts at every address the spans that cover it |
| SpanIndex.NextIndex | dbginfo/dbginfo.c:2262-2274 | the running start index and end are those of the next span |
| SpanIndex.AllocateTables | dbginfo/dbginfo.c:2281-2294 | step 4 gives each address with several spans an empty table of just their number |
| SpanIndex.EnterSpan | dbginfo/dbginfo.c:2333-2340 | one span is entered at each of its addresses, where there is always room for it |
| SpanIndex.EnterSpans | dbginfo/dbginfo.c:2296-2341 | step 5 enters at every address just the spans that cover it, in order |
| SpanIndex.CreateSpanInfoList | dbginfo/dbginfo.c:2194-2342 | every entry of the index holds exactly the spans that cover its address, in order |
| SpanIndex.IndexIsUnion | dbginfo/dbginfo.c:2194-2342 | the index has one entry for each address of the union of the spans, strictly ascending |
| SpanIndex.FindSpanInfoByAddr | dbginfo/dbginfo.c:4706-4735 | finds the entry of an address just when some span covers it |
| SpanIndex.SpanByAddr | dbginfo/dbginfo.c:6513-6550 | returns exactly the spans that cover the address, in order; none if none does |
| SpanIndex.ProcessSpanInfo | dbginfo/dbginfo.c:5371-5428 | start and end of every span have its segment's start added, modulo 2^32, and nothing else about it changes, unknown segments are reported, and the index is that of the sorted spans |
| SpanIndex.CoveringIsExact | dbginfo/dbginfo.c:5420-5424 | the spans found are those of the unsorted collection that cover the address, sorted |
| SpanIndex.FindSpans | dbginfo/dbginfo.c:6513-6550 | from unsorted, unrelocated spans to the answer: start and end of every span have its segment's start added, and just those that cover the address are found, in order of start and end, none just when none does |
| Symbols.StrCmpEqual | dbginfo/dbginfo.c:1864-1870 | strcmp is zero just for equal names, and its sign turns with its arguments |
| Symbols.StrCmpOrders | dbginfo/dbginfo.c:1864-1870 | a name is before another just if it is its first part or has the smaller character where they first differ |
| Symbols.StrCmpTransitive | dbginfo/dbginfo.c:1864-1870 | strcmp orders names |
| Symbols.ComparesOrder | dbginfo/dbginfo.c:1864-1887 | both comparisons of symbols are total preorders |
| Symbols.FindSymInfoByName | dbginfo/dbginfo.c:4860-4900 | the index is the lower bound of the name whether or not it is there; found just when it is |
| Symbols.SymbolByName | dbginfo/dbginfo.c:7163-7209 | exactly the symbols of the name |
| Symbols.FindSymInfoByValue | dbginfo/dbginfo.c:4904-4941 | the index is the lower bound of the value whether or not it is there; found just when it is |
| Symbols.SymbolInRange | dbginfo/dbginfo.c:7255-7324 | exactly the labels from one value to another, the last included |
| Symbols.SortAndFind | dbginfo/dbginfo.c:5587-5589 | sorting the collections in place and searching them answers for the symbols as they were, the labels by value and then by name |
| TypeStrings.ParseSpells | dbginfo/dbginfo.c:1979-2080 | the parse of a string is a type and takes all of it just when the string spells that type |
| TypeStrings.PassesAgree | dbginfo/dbginfo.c:2127-2155 | the counting pass counts the nodes of the parsed type plus those of what is left over |
| TypeStrings.CountIsExact | dbginfo/dbginfo.c:2157-2171 | the count equals the nodes of the parsed type just when the parse used up the string |
| TypeStrings.TypeParse.constructor | dbginfo/dbginfo.c:1963-1975 | an unread string and that many free items |
| TypeStrings.TypeParse.ReadCount | dbginfo/dbginfo.c:2048-2063 | an array count of one to four bytes, which never exceeds 32 bits |
| TypeStrings.TypeParse.TypeFromString | dbginfo/dbginfo.c:1979-2080 | succeeds just when the rest starts with a type whose nodes there is room for; then its nodes represent that type, sizes modulo 2^32, earlier nodes are kept, and the position is after it |
| TypeStrings.DenotesDecoded | dbginfo/dbginfo.c:2095-2122 | a string is decoded just if it is made of hex digits, small or capital, and to just the bytes they stand for |
| TypeStrings.DecodeInPlace | dbginfo/dbginfo.c:2115-2122 | decoding over the digits themselves gives the decoding of the digits as they were |
| TypeStrings.CountItems | dbginfo/dbginfo.c:2127-2161 | the loop computes the recursive count, and fails just when the string does not divide up |
| TypeStrings.ParseTypeString | dbginfo/dbginfo.c:2085-2175 | succeeds just on the hex strings that spell a type, and then the result represents that type node for node |
| TypeStrings.ParseBinary | dbginfo/dbginfo.c:2124-2174 | the same, of the decoded string |
| TypeStrings.CountBytesExact | dbginfo/dbginfo.c:2048-2063 | a count printed in as few bytes as it needs is the count again, in at most four bytes below 2^32 |
| TypeStrings.PrintSpells | dbginfo/dbginfo.c:1979-2080 | what is printed for a type spells it |
| TypeStrings.ParsePrints | dbginfo/dbginfo.c:1979-2080 | parsing what is printed for a type gives the type |
| TypeStrings.HexRoundTrip | dbginfo/dbginfo.c:2115-2122 | decoding the hex digits of bytes gives the bytes |
| TypeStrings.PrintAndParse | dbginfo/dbginfo.c:2085-2175 | a type printed in hex is accepted and read back, whatever it is |
| RingSocket.UnixSocket.constructor | io/acia/src/acia_unix_sock.c:226-238 | an empty ring satisfies the invariant |
| RingSocket.UnixSocket.DataReady | io/acia/src/acia_unix_sock.c:73-83 | the thread goes to wait just if the ring is full and no shutdown is asked for (with the conservation and wake-up invariant kept) |
| RingSocket.UnixSocket.Wake | io/acia/src/acia_unix_sock.c:77-83 | woken with or without a signal, it waits again just if there still is no space (with the conservation and wake-up invariant kept) |
| RingSocket.UnixSocket.CheckShutdown | io/acia/src/acia_unix_sock.c:85-95 | a shutdown stops it; otherwise it reads at least one byte and no further than the space seen and the buffer's end (with the conservation and wake-up invariant kept) |
| RingSocket.UnixSocket.CopyByte | io/acia/src/acia_unix_sock.c:97 | a byte is put where it overwrites no unread one (with the conservation and wake-up invariant kept) |
| RingSocket.UnixSocket.ReadReturns | io/acia/src/acia_unix_sock.c:97-118 | a read that got something goes on to be counted, one that got nothing ends the client (with the conservation and wake-up invariant kept) |
| RingSocket.UnixSocket.Advance | io/acia/src/acia_unix_sock.c:101-104 | the write index moves, wrapping, while the count is still the old one (with the conservation and wake-up invariant kept) |
| RingSocket.UnixSocket.Publish | io/acia/src/acia_unix_sock.c:107-111 | just the bytes read become available (with the conservation and wake-up invariant kept) |
| RingSocket.UnixSocket.CheckCount | io/acia/src/acia_unix_sock.c:326-327 | empty just when the count says so (with the conservation and wake-up invariant kept) |
| RingSocket.UnixSocket.TakeByte | io/acia/src/acia_unix_sock.c:329-332 | the byte taken is the oldest one not delivered (with the conservation and wake-up invariant kept) |
| RingSocket.UnixSocket.Release | io/acia/src/acia_unix_sock.c:334-343 | the byte is delivered, its slot is free again, and a waiting thread is signalled (with the conservation and wake-up invariant kept) |
| RingSocket.UnixSocket.Shutdown | io/acia/src/acia_unix_sock.c:375-383 | a shutdown is asked for and signalled (with the conservation and wake-up invariant kept) |
| RingSocket.PlayedBytes | io/acia/src/acia_unix_sock.c:40-137 | over any schedule the bytes received grow by just those the socket gave and the bytes delivered by just those the emulator got |
| RingSocket.UnixSocket.Step | io/acia/src/acia_unix_sock.c:40-137 | any step of either thread keeps the invariant and does to indices, count, threads and bytes just what that step is, or nothing if it cannot be taken |
| RingSocket.UnixSocket.Run | io/acia/src/acia_unix_sock.c:40-137 | every interleaving ends where its steps lead, having received just the bytes the socket gave and delivered just those the emulator got; what was delivered is the first part of what was received, the rest is in the ring or in flight, and a thread that waits unsignalled faces a full ring and no shutdown |
| RingSocket.UnixSocket.Read | io/acia/src/acia_unix_sock.c:318-344 | the oldest byte not delivered, or FF if none is counted |
| RingSocket.UnixSocket.Drain | io/acia/src/acia_unix_sock.c:318-344 | with nothing in flight, reading until empty yields all that was received |
| Eeprom.WriteKeeps | io/at28c256/src/at28c256.c:274-406 | no write changes the image, and every write keeps the device valid (write permission only in a load or write cycle) |
| Eeprom.TicksAdd | io/at28c256/src/at28c256.c:425-496 | tick(a + b) is tick(a) and then tick(b), from every valid state |
| Eeprom.ImageChanges | io/at28c256/src/at28c256.c:461-487 | the image changes exactly when the write cycle ends unblocked, to the loaded places of the one page |
| Eeprom.ChangesAreLoads | io/at28c256/src/at28c256.c:469-480 | an image byte that differs after any step was loaded, lies in the loaded page, and now has the loaded value |
| Eeprom.StaysProtected | io/at28c256/src/at28c256.c:283-521 | a protected image stays protected and the same through any step but the last write of an enable or disable sequence or the manual switch |
| Eeprom.ProtectedRun | io/at28c256/src/at28c256.c:283-521 | so it does through any run without such a step |
| Eeprom.SequenceStep | io/at28c256/src/at28c256.c:304-371 | a step that ends inside a sequence was the write the sequence asks for next, or no write |
| Eeprom.TickInSequence | io/at28c256/src/at28c256.c:439-460 | time leaves the place in a sequence or ends the sequence |
| Eeprom.SequenceIsWritten | io/at28c256/src/at28c256.c:304-371 | in every run, the place in the sequence tells exactly the writes since the last time outside it |
| Eeprom.CompleteSequence | io/at28c256/src/at28c256.c:304-371 | what completes a sequence is the last of exactly the three enable writes or the six disable writes, in order and with none in between |
| Eeprom.LoadOne | io/at28c256/src/at28c256.c:384-396 | a write to the page overlays one byte of what the load will leave |
| Eeprom.LoadedSoFar | io/at28c256/src/at28c256.c:384-396 | during a load, image and page buffer together are the old image with the last value written to each address |
| Eeprom.SequenceSets | io/at28c256/src/at28c256.c:319-369 | what completes a sequence protects the image if it says A0 and else unprotects it, leaves the image, and lets the next load through |
| Eeprom.SequenceHolds | io/at28c256/src/at28c256.c:319-369 | 10.15 milliseconds later, nothing having been loaded, the image is as it was, protected just if the sequence said A0 |
| Eeprom.SwitchSets | io/at28c256/src/at28c256.c:498-521 | the manual switch sets the protection as told in the idle state and does nothing in any other |
| Eeprom.InSequence | io/at28c256/src/at28c256.c:304-371 | each write of a sequence, in time, takes an idle chip on to the next place |
| Eeprom.Enables | io/at28c256/src/at28c256.c:304-328 | AA to 5555, 55 to 2AAA and A0 to any address, less than 150 microseconds apart, protect an idle chip, whether it was protected or not |
| Eeprom.Disables | io/at28c256/src/at28c256.c:304-369 | the six writes of the disable sequence, less than 150 microseconds apart, unprotect an idle chip |
| Eeprom.BreaksSequence | io/at28c256/src/at28c256.c:362-369 | a write that the sequence does not ask for ends it and changes nothing else |
| Eeprom.Abandoned | io/at28c256/src/at28c256.c:425-487 | the first write of a sequence that nothing follows is loaded as one byte |
| Eeprom.BurstIsWritten | io/at28c256/src/at28c256.c:425-496 | any load of one 64-byte page with gaps under 150 microseconds leaves, 10.15 milliseconds after its last write and not before, the old image with the last value written to each address |
| Eeprom.ImageReads | io/at28c256/src/at28c256.c:408-423 | any read but a polling one is of the image, whose 32 kilobytes repeat, and changes nothing |
| Eeprom.OtherPageIgnored | io/at28c256/src/at28c256.c:384-396 | during a load a write to another page is ignored |
| Eeprom.BusyIgnores | io/at28c256/src/at28c256.c:398-405 | during a write cycle a write is only remembered for polling |
| Eeprom.PollingToggles | io/at28c256/src/at28c256.c:413-420 | while busy, reads of the last address toggle bit 6, show the complement of bit 7 and the other bits as written |
| Eeprom.At28c256.constructor | io/at28c256/src/at28c256.c:201-232 | idle, with an image of zeros and protection as asked for |
| Eeprom.At28c256.HandlePageWrite | io/at28c256/src/at28c256.c:123-135 | one place of the page buffer is set and marked, unless a sequence is past its first write |
| Eeprom.At28c256.HandleSdpWrite | io/at28c256/src/at28c256.c:304-369 | the sequence goes on, completes or breaks off just as its table of expected writes says |
| Eeprom.At28c256.Write | io/at28c256/src/at28c256.c:274-406 | the device changes as one write of a run does, and stays valid |
| Eeprom.At28c256.WriteLocal | io/at28c256/src/at28c256.c:283-405 | the same, of an address in the image |
| Eeprom.At28c256.Read | io/at28c256/src/at28c256.c:408-423 | the image byte, or while busy the polling value, which alone changes the device |
| Eeprom.At28c256.WritePage | io/at28c256/src/at28c256.c:473-479 | exactly the marked places of the page are put into the image |
| Eeprom.At28c256.EndState | io/at28c256/src/at28c256.c:444-453 | the end of a load starts the write cycle, the end of that writes unless blocked |
| Eeprom.At28c256.Tick | io/at28c256/src/at28c256.c:425-496 | the loop over the nanoseconds ends where the recursive passing of time does, in a valid state |
| Eeprom.At28c256.SetSdpEnable | io/at28c256/src/at28c256.c:498-521 | the manual switch works in the idle state only |
| ViaModel.FlagNumber | io/via/src/via.c:86-92 | the flag register as a number is a byte whose bits are the flags |
| ViaModel.WriteBackClears | io/via/src/via.c:777-779 | writing back what the flag register was read as clears just the flags it showed, and bit 7 with the last of them |
| ViaModel.PeriodSteps | io/via/src/via.c:460-528 | one clock cycle of the timer, at every point of its period |
| ViaModel.ClosedForm | io/via/src/via.c:460-528 | loaded with N below FFFF, after n cycles the counter is where n mod (N + 2) says, and it has expired floor(n/(N + 2)) times, at most once in one shot mode |
| ViaModel.Pb7IsParity | io/via/src/via.c:464-470 | PB7 is the parity of the expiries |
| ViaModel.LoadsWhatIsWritten | io/via/src/via.c:694-713 | the two writes of a load put the value into counter and latch and arm the timer |
| ViaModel.FlagsAreBits | io/via/src/via.c:86-92 | which bit of a byte stands for which flag |
| ViaModel.ClearsAre | io/via/src/via.c:650-849 | which flags a write and a read of each register clear, bit by bit |
| ViaModel.LoadsRegister | io/via/src/via.c:694-720 | what a write to each register makes of counter, latch and arming of the timer, in numbers |
| ViaModel.ReadsAsNumber | io/via/src/via.c:86-92 | the flag register reads as the sum of the weights of its flags |
| ViaModel.LimitForm | io/via/src/via.c:460-528 | loaded with FFFF, the timer expires in every cycle, or once |
| ViaModel.IndependentExact | io/via/src/via.c:655-690 | a write to a data register clears the flag of C2 just if C2 is an independent input, so it leaves the flag as such an input should if and only if it was not set |
| ViaModel.IerGatesExact | io/via/src/via.c:320-354 | a device's vote is what one gated by the interrupt enable register would be if and only if no flag is set or one of those set is enabled |
| ViaModel.RequestNotEnabled | io/via/src/via.c:320-337 | an edge on CA1 has the device vote for an interrupt though none is enabled |
| ViaModel.Via.constructor | io/via/src/via.c:531-560 | no flags, no voter, an unarmed timer with PB7 high, all control registers zero and both inputs low |
| ViaModel.Via.RegisterIrq | io/via/src/via.c:609-622 | the device gets a voter nobody has, or none |
| ViaModel.Via.SetIfr | io/via/src/via.c:320-337 | the flags are raised with bit 7, and the device's vote on the bus is again just bit 7; no other vote changes |
| ViaModel.Via.ClearIfr | io/via/src/via.c:339-354 | the flags are lowered, bit 7 with the last of them, and the vote is again just bit 7; no other vote changes |
| ViaModel.Via.ClockTick | io/via/src/via.c:460-528 | the timer part of both edges: an armed timer at FFFF expires at the rising edge, flags it and turns PB7; the falling edge counts; all else stays |
| ViaModel.Via.WriteC1 | io/via/src/via.c:380-402 | a change of a C1 input, at lines 915-961, raises its flag just if it is the edge that the peripheral control register selects, and changes nothing else |
| ViaModel.Via.WriteTimer | io/via/src/via.c:694-720 | the timer's registers, and the flag that writing to them clears |
| ViaModel.Via.Write | io/via/src/via.c:627-786 | what a write to any register does to timer, flags, interrupt enables, vote, control registers and inputs, register by register and bit by bit |
| ViaModel.Via.WriteRegister | io/via/src/via.c:627-786 | the same, in terms of the state before |
| ViaModel.Via.WriteControl | io/via/src/via.c:721-776 | the auxiliary and peripheral control registers, and setting and clearing interrupt enables |
| ViaModel.Via.Read | io/via/src/via.c:788-849 | what a read of any register but the ports returns, the flag it clears, and that it changes nothing else |
| ViaModel.Via.ClockCycle | io/via/src/via.c:414-529 | a cycle is the rising edge, then the falling one; the timer's flag is set just if it was or the timer expired |
| ViaModel.Via.LoadAndRun | io/via/src/via.c:694-713 | loaded through its registers and clocked n times, the timer has expired floor(n/(N + 2)) times, or n times if N is FFFF (at most once unless bit 6 of the control register is set), PB7 is the parity of that, and the flag is set just if there was an expiry |
| AciaModel.Acia.constructor | io/acia/src/acia.c:208-258 | nothing received or sent, no voter, all registers zero |
| AciaModel.Acia.RegisterIrq | io/acia/src/acia.c:283-291 | the device gets a voter nobody has, or none |
| AciaModel.Acia.Receive | io/acia/src/acia.c:427-450 | an arriving byte is taken, or lost with the overrun flag if the last one was not read; it asks for an interrupt just if it is taken and interrupts are enabled |
| AciaModel.Acia.Tick | io/acia/src/acia.c:415-468 | both directions take exactly their number of ticks; the vote stays what the interrupt bit says; no other vote changes |
| AciaModel.WordIs | io/acia/src/acia.c:179-206 | the ticks of a word: a start bit, eight to five data bits, and one, one and a half or two stop bits |
| AciaModel.BaudExact | io/acia/src/acia.c:64-82 | the ticks of a bit are the nearest whole number for the rate of its field at 1.8432 megahertz if and only if the field is not 12, 4800 baud, where they are 364 instead of 384 |
| AciaModel.StatusByte | io/acia/src/acia.c:366-368 | the status register has the interrupt, full and overrun bits and the one that is always set, and no others |
| AciaModel.Acia.Write | io/acia/src/acia.c:306-347 | what a write to any register does to every field; a byte to send is ignored while one is under way |
| AciaModel.Acia.Transmit | io/acia/src/acia.c:459-467 | a byte written while nothing is being sent goes to the transport exactly once, after exactly the ticks of a word, whatever arrives meanwhile |
| AciaModel.Acia.Read | io/acia/src/acia.c:349-386 | what a read of any register returns, what it clears and that it changes nothing else; reading the status takes back interrupt bit and vote |
| BoardModel.Board.AddVia | io/via/src/via.c:589-625 | a further VIA gets a voter of its own, if there is one, and keeps the board wired |
| BoardModel.Board.AddAcia | io/acia/src/acia.c:260-304 | a further ACIA gets a voter of its own, if there is one, and keeps the board wired |
| BoardModel.Board.LineIsWiredOr | core/src/bus.c:488-534 | some device votes for IRQ just when some VIA flag or some ACIA interrupt bit is set |
| BoardModel.Board.Step | core/src/bus.c:488-534 | any event changes its device as that device's own registers say and no other, and keeps each device's vote equal to its flags, the voters distinct, no stray votes and the other lines |
| BoardModel.Board.Run | core/src/bus.c:488-534 | over every run the devices become what the events make of each, and the IRQ line is asserted just when one of them then asks |
| SdCardModel.SectorRead | io/sdcard/src/sdcard.c:93-112 | a block is read as exactly its 512 bytes as far as the image goes, and what was in the buffer from there on |
| SdCardModel.Continued | io/sdcard/src/sdcard.c:172-269 | bytes exchanged one after the other: state and answers of a longer exchange are those of its parts |
| SdCardModel.ReceivesCommand | io/sdcard/src/sdcard.c:190-198 | the card collects the six bytes of a command |
| SdCardModel.Stream | io/sdcard/src/sdcard.c:236-262 | once a block was read, the answers are exactly the response, token, data and checksum bytes, in order, whatever the master sends until the card is idle again |
| SdCardModel.ReadBlock | io/sdcard/src/sdcard.c:87-113 | after CMD17 the card answers 00 FF FE, the 512 bytes of the block and 00 00 (section 7.2.3 of the SD Physical Layer Simplified Specification), and is ready again, whatever the master sends until the card is idle again |
| SdCardModel.Resets | io/sdcard/src/sdcard.c:61-72 | in SD mode CMD0 starts the initialisation, and any command is answered 01 |
| SdCardModel.Announces | io/sdcard/src/sdcard.c:80-86 | CMD55 is answered 01 and announces an application command |
| SdCardModel.Counts | io/sdcard/src/sdcard.c:126-152 | ACMD41 is answered 01, and the sixth 00 with the card ready |
| SdCardModel.Refuses | io/sdcard/src/sdcard.c:126-152 | outside the initialisation an application command is answered 40 |
| SdCardModel.Initialises | io/sdcard/src/sdcard.c:126-152 | after n rounds of CMD55 and ACMD41 a card that was reset is ready just if n is six |
| SdCardModel.Cmd8Echo | io/sdcard/src/sdcard.c:74-79 | CMD8 is answered with FF and its own argument; the 01 put in front of it is never sent |
| SdCardModel.UnknownCommand | io/sdcard/src/sdcard.c:87-118 | an idle card is not idle after a command if and only if it does not know it; it then still collects one, all else unchanged |
| SdCardModel.StuckCollects | io/sdcard/src/sdcard.c:190-206 | such a card takes any bytes that come as commands: of n bytes the last n mod 6 are in its buffer, as long as none of the commands is known |
| SdCardModel.AnsweredAgain | io/sdcard/src/sdcard.c:190-206 | after n bytes of filler FF such a card executes a known command if and only if n is a multiple of six, else it still collects |
| SdCardModel.ReadAfterUnknown | io/sdcard/src/sdcard.c:87-118 | a ready card sent an unknown command and n bytes of filler starts to answer CMD17 if and only if n is a multiple of six |
| SdCardModel.SdCard.constructor | io/sdcard/src/sdcard.c:154-170 | an idle card in SD mode that has not been asked to initialise |
| SdCardModel.SdCard.HandleCmd | io/sdcard/src/sdcard.c:54-124 | a complete command changes the card as the command table of its state says |
| SdCardModel.SdCard.HandleAcmd | io/sdcard/src/sdcard.c:126-152 | a complete application command; the sixth ACMD41 makes the card ready |
| SdCardModel.SdCard.SpiWrite | io/sdcard/src/sdcard.c:172-208 | a byte from the master is ignored, collected, or completes a command |
| SdCardModel.SdCard.SpiGet | io/sdcard/src/sdcard.c:210-269 | the byte sent is the one prepared before, and the next is prepared |
| BitbangSpi.ShiftIn | plat/cb6502/bitbang_spi.c:81-82 | k bits shifted in, the top one first, are the byte divided by 2^(8-k) |
| BitbangSpi.ShiftOut | plat/cb6502/bitbang_spi.c:77 | k bits shifted out leave the low bits at the top |
| BitbangSpi.TopBit | plat/cb6502/bitbang_spi.c:34-37 | after k shifts the bit on the line is bit 7-k of the byte |
| BitbangSpi.BitsSoFar | plat/cb6502/bitbang_spi.c:58-97 | k rising edges into a byte: the card has been asked once, both shift registers hold their k bits, and only the eighth gives the card a byte |
| BitbangSpi.Pins | plat/cb6502/bitbang_spi.c:7-11 | which bit of the port is which pin |
| BitbangSpi.PortBits | plat/cb6502/bitbang_spi.c:7-11 | the port values by which a bit is clocked out |
| BitbangSpi.Spi.constructor | plat/cb6502/bitbang_spi.c:112-132 | between bytes, with the clock low and the card not selected |
| BitbangSpi.Spi.UpdateOutputs | plat/cb6502/bitbang_spi.c:28-51 | the input line has the card's bit while it is selected and is pulled up otherwise |
| BitbangSpi.Spi.PortbWrite | plat/cb6502/bitbang_spi.c:53-102 | only a rising edge of the clock bit moves bits, one each way |
| BitbangSpi.Spi.TransferBit | plat/cb6502/bitbang_spi.c:53-102 | setting a bit, raising the clock and looking at the input is one rising edge and one bit sampled |
| BitbangSpi.Spi.TransferByte | plat/cb6502/bitbang_spi.c:53-102 | eight bits, top first: the card gets exactly the byte, the master samples exactly the card's byte |
| BitbangSpi.Spi.Transfer | plat/cb6502/bitbang_spi.c:53-102 | for every byte sequence with the card selected, the card gets exactly those bytes and the master exactly the bytes the card sends |
| BitbangSpi.Spi.BringUp | plat/cb6502/bitbang_spi.c:53-102 | a card just powered up is taken through the port bit by bit to where blocks can be read |
| BitbangSpi.Spi.ReadBlockBits | plat/cb6502/bitbang_spi.c:53-102 | CMD17 for any block of the image, through the port bit by bit, yields 00 FF FE, the block and 00 00 |

## Left out

- Emulator: memory only; devices that react to bus reads and peeks are not modelled. Of the bus accesses the number in each cycle is stated, not each address.
- Bus.ReadByte: several connections at one address, tracers and reads with side effects are not modelled.
- Bus.WriteByte: writes to several connections and tracers are not modelled.
- Emulator.Step: only with RDY released, as the original would not return otherwise; the cycle count is not cut to eight bits, which it always fits.
- Emulator.SingleCycle: one method for the operations without a second cycle, as the handler families with one shape (shifts, stores, branches, INC/DEC, bit changes) each are one method; the flag macros are functions.
- Emulator.OperationPhase: the `default` branches of the handlers for micro-states they never get into are not written out; that no reachable state gets to one is what its contract shows.
- Cpu: disassembly, the tick table, register getters and the stale reset function are not modelled.
- Bus.SigVote: a vote made with the invalid handle or with several bits at once, which no device does, is not modelled.
- Bus.UnregisterVoter: a voter that still holds a vote keeps it in the original too; the board never gives a voter back.
- ClockContext: removing clocks, and changing the list from within callbacks, are not modelled, nor are the callbacks themselves, which are counted; a list node owns its clock instead of being embedded in it.
- Clk: widths of 32 bits; no count exceeds a period.
- QuickSort: indices are unbounded, so the overflow of (Hi + Lo) beyond 2^30 items does not show.
- SpanIndex: spans whose relocated last address is the highest of the 32-bit space, for which the original loops do not end, and spans that run backwards by more than one address, are outside `Fits`; spans, symbols and types are values rather than objects that refer to each other.
- ProcessSpanInfo: the type a span refers to, and the error for an unknown one, are not modelled.
- TypeStrings: freeing, error messages, and the character set beyond byte codes are not modelled.
- dbginfo: the line by line parsers of the debug file and the getters that only copy are not modelled.
- UnixSocket.CheckShutdown: a polling thread that is told to stop through its event descriptor is modelled by the shutdown flag alone.
- UnixSocket: accepting clients, `poll`, thread creation and sending are not modelled; read() copies byte by byte; steps are atomic and seen in order by both threads, also where the original reads its counters without the lock.
- At28c256: bus decoding, loading an image and logging are not modelled; nanoseconds are unbounded.
- Via.RegisterIrq: the bus connection that is registered before the voter is not modelled.
- Via.ClockTick: the C2 pulses and callbacks of the two edges, timer 2 and the shift register are not modelled.
- Via.WriteC1: input latching and the handshake output are not modelled.
- Via.Write: output and direction registers, handshakes and callbacks are not modelled.
- Via.WriteControl: the C2 outputs that a write to the peripheral control register drives are not modelled.
- Via.Read: the values of the ports and of their direction registers are not modelled.
- Acia.RegisterIrq: the bus connection that is registered before the voter is not modelled.
- Acia: the transport is a parameter of each tick; parity and framing errors do not occur; the control register, which the original's bus decoding never reaches, is modelled as the register functions have it.
- Board.AddVia: the bus connection of the device, and taking it back when there is no voter, are not modelled.
- Board.AddAcia: the bus connection of the device, and taking it back when there is no voter, are not modelled.
- Board: VIAs and ACIAs only; all of them are registered for interrupts.
- SdCard.HandleCmd: seek and read errors of the image file, which answer 20, are not modelled; blocks beyond the image leave the buffer as it was.
- Spi: the card stays selected throughout a transfer and is always detected.

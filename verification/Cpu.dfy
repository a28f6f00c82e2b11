// The cycle-stepped core.  Each handler does part of one clock cycle; its contract says
// that what the instruction in progress will have done stays the same and that the time
// until then shrinks by exactly the cycle consumed.
module CpuCore {
  import opened Words
  import opened CpuTypes
  import opened Isa
  import opened FutureState
  import opened BusAccess
  import opened BusModel
  import opened InstructionMachine
  import opened Lifting
  import Decoding
  import OpcodeMap

  class Emulator {
    const bus: Bus
    var cpu: CpuState
    var cycleConsumed: bool

    ghost predicate Ready()
      reads this, bus
    {
      bus.Valid() && !cycleConsumed
    }

    // Power-on: registers zero, about to run the reset vector sequence.
    constructor (b: Bus)
      requires b.Valid()
      ensures Ready() && bus == b && Reachable(cpu)
      ensures cpu.opState == VEC0 && cpu.vecSrc == RST_VEC && !cpu.pageBoundary
      ensures cpu.regs == Regs(0, 0, 0, 0, 0, Flags(false, false, true, false, false, false, false, false))
    {
      bus := b;
      cpu := CpuState(
        Regs(0, 0, 0, 0, 0, Flags(false, false, true, false, false, false, false, false)),
        0, 0, 0, 0, 0, 0, RST_VEC, VEC0, false);
      cycleConsumed := false;
    }

    method AdvanceState(st: OpState, memcycle: bool)
      modifies this
      ensures cpu == old(cpu).(opState := st) && cycleConsumed == (old(cycleConsumed) || memcycle)
    {
      if memcycle {
        cycleConsumed := true;
      }
      cpu := cpu.(opState := st);
    }

    // Reads the byte at the program counter, stepping past it if asked to.
    method ReadPC(step: bool) returns (v: Byte)
      modifies this`cpu, bus`lastop, bus`accesses
      ensures bus.Valid() && v == Read(bus.mem, old(cpu.regs.pc)) && bus.accesses == old(bus.accesses) + 1
      ensures cpu == if step then old(cpu).(regs := old(cpu.regs).(pc := Inc16(old(cpu.regs.pc)))) else old(cpu)
    {
      v := bus.ReadByte(cpu.regs.pc, false);
      if step {
        cpu := cpu.(regs := cpu.regs.(pc := Inc16(cpu.regs.pc)));
      }
    }

    method Push8(v: Byte)
      modifies this`cpu, bus`mem, bus`lastop, bus`accesses
      ensures bus.accesses == old(bus.accesses) + 1
      ensures bus.Valid() && bus.mem == PushTo(old(bus.mem), old(cpu.regs.sp), v)
      ensures cpu == old(cpu).(regs := old(cpu.regs).(sp := Dec8(old(cpu.regs.sp))))
    {
      bus.WriteByte(StackAddr(cpu.regs.sp), v);
      cpu := cpu.(regs := cpu.regs.(sp := Dec8(cpu.regs.sp)));
    }

    method Pull8() returns (v: Byte)
      modifies this`cpu, bus`lastop, bus`accesses
      ensures bus.Valid() && v == Read(bus.mem, StackAddr(cpu.regs.sp)) && bus.accesses == old(bus.accesses) + 1
      ensures cpu == old(cpu).(regs := old(cpu.regs).(sp := Inc8(old(cpu.regs.sp))))
    {
      cpu := cpu.(regs := cpu.regs.(sp := Inc8(cpu.regs.sp)));
      v := bus.ReadByte(StackAddr(cpu.regs.sp), false);
    }

    method GetValue(mode: AddrMode) returns (v: Byte)
      requires bus.Valid()
      modifies bus`lastop, bus`accesses
      ensures bus.Valid() && v == ValueAt(mode, cpu.regs, bus.mem, cpu.ea)
      ensures bus.accesses == old(bus.accesses) + MemoryTouch(mode)
    {
      if mode.ACC? {
        v := cpu.regs.a;
      } else {
        v := bus.ReadByte(cpu.ea, false);
      }
    }

    method PutValue(mode: AddrMode, v: Byte)
      requires bus.Valid()
      modifies this`cpu, bus`mem, bus`lastop, bus`accesses
      ensures bus.Valid() && cpu == old(cpu).(regs := cpu.regs)
      ensures bus.accesses == old(bus.accesses) + MemoryTouch(mode)
      ensures Machine(cpu.regs, bus.mem) == Store(mode, old(cpu.regs), old(bus.mem), old(cpu.ea), v)
    {
      if mode.ACC? {
        cpu := cpu.(regs := cpu.regs.(a := v));
      } else {
        bus.WriteByte(cpu.ea, v);
      }
    }

    // ----- operand handlers -----

    twostate predicate OperandAdvanced(mode: AddrMode)
      requires ParamReachable(mode, old(cpu.opcode), old(cpu.opState))
      reads this, bus
    {
      && bus.Valid() && OperandStep(mode, old(cpu), cpu, bus.mem, cycleConsumed)
      && bus.accesses == old(bus.accesses) + OperandTouches(mode, old(cpu.opcode))
    }

    method Implied(mode: AddrMode)
      requires mode.IMP? || mode.ACC?
      requires Ready() && ParamReachable(mode, cpu.opcode, cpu.opState)
      modifies this, bus`lastop, bus`accesses
      ensures OperandAdvanced(mode)
    {
      var _ := ReadPC(false);
      AdvanceState(OP0, false);
    }

    method Immediate()
      requires Ready() && ParamReachable(IMM, cpu.opcode, cpu.opState)
      modifies this
      ensures OperandAdvanced(IMM)
    {
      cpu := cpu.(ea := cpu.regs.pc, regs := cpu.regs.(pc := Inc16(cpu.regs.pc)));
      AdvanceState(OP0, false);
    }

    method ZeroPage()
      requires Ready() && ParamReachable(ZP, cpu.opcode, cpu.opState)
      modifies this, bus`lastop, bus`accesses
      ensures OperandAdvanced(ZP)
    {
      var lo := ReadPC(true);
      cpu := cpu.(ea := lo);
      AdvanceState(OP0, true);
    }

    method ZeroPageIndexed(mode: AddrMode)
      requires mode.ZPX? || mode.ZPY?
      requires Ready() && ParamReachable(mode, cpu.opcode, cpu.opState)
      modifies this, bus`lastop, bus`accesses
      ensures OperandAdvanced(mode)
    {
      hide Inc16, ZpAdd, Read;
      if cpu.opState.PARAM0? {
        var lo := ReadPC(false);
        cpu := cpu.(ea := lo);
        AdvanceState(PARAM1, true);
      } else {
        cpu := cpu.(ea := ZpAdd(cpu.ea, if mode.ZPX? then cpu.regs.x else cpu.regs.y));
        var _ := ReadPC(true);
        AdvanceState(OP0, true);
      }
    }

    method Relative()
      requires Ready() && ParamReachable(REL, cpu.opcode, cpu.opState)
      modifies this, bus`lastop, bus`accesses
      ensures OperandAdvanced(REL)
    {
      var offset := ReadPC(true);
      cpu := cpu.(reladdr := offset);
      if Has(offset, 0x80) {
        cpu := cpu.(reladdr := OrHigh(offset, 0xFF));
        JoinIsSum(offset, 0xFF);
      }
      AdvanceState(OP0, false);
    }

    method Absolute()
      requires Ready() && ParamReachable(ABSO, cpu.opcode, cpu.opState)
      modifies this, bus`lastop, bus`accesses
      ensures OperandAdvanced(ABSO)
    {
      hide Inc16, OrHigh, Read;
      if cpu.opcode == 0x20 {
        // JSR fetches its own operand.
        AdvanceState(OP0, false);
      } else if cpu.opState.PARAM0? {
        var lo := ReadPC(true);
        cpu := cpu.(ea := lo);
        AdvanceState(PARAM1, true);
      } else {
        var hi := ReadPC(true);
        cpu := cpu.(ea := OrHigh(cpu.ea, hi));
        AdvanceState(OP0, cpu.opcode != 0x4C);
      }
    }

    method AbsoluteIndexed(mode: AddrMode)
      requires mode.ABSX? || mode.ABSY?
      requires Ready() && ParamReachable(mode, cpu.opcode, cpu.opState)
      modifies this, bus`lastop, bus`accesses
      ensures OperandAdvanced(mode)
    {
      hide Inc16, OrHigh, Add16, SamePage, Read;
      if cpu.opState.PARAM0? {
        var lo := ReadPC(true);
        cpu := cpu.(ea := lo);
        AdvanceState(PARAM1, true);
      } else if cpu.opState.PARAM1? {
        var hi := ReadPC(false);
        var start := OrHigh(cpu.ea, hi);
        cpu := cpu.(ea := Add16(start, if mode.ABSX? then cpu.regs.x else cpu.regs.y));
        if !SamePage(start, cpu.ea) {
          cpu := cpu.(pageBoundary := true);
          AdvanceState(PARAM2, true);
        } else {
          cpu := cpu.(regs := cpu.regs.(pc := Inc16(cpu.regs.pc)));
          AdvanceState(OP0, true);
        }
      } else {
        var _ := ReadPC(true);
        AdvanceState(OP0, true);
      }
    }

    // Both 16-bit indirect modes: (a) and (a,x).
    method Indirect(mode: AddrMode)
      requires mode.IND? || mode.ABIN?
      requires Ready() && ParamReachable(mode, cpu.opcode, cpu.opState)
      modifies this, bus`lastop, bus`accesses
      ensures OperandAdvanced(mode)
    {
      hide Inc16, OrHigh, Add16, Read;
      if cpu.opState.PARAM0? {
        var lo := ReadPC(true);
        cpu := cpu.(tmpval := lo);
        AdvanceState(PARAM1, true);
      } else if cpu.opState.PARAM1? {
        var hi := ReadPC(false);
        cpu := cpu.(tmpval := OrHigh(cpu.tmpval, hi));
        AdvanceState(PARAM2, true);
      } else if cpu.opState.PARAM2? {
        var _ := ReadPC(false);
        if mode.ABIN? {
          cpu := cpu.(tmpval := Add16(cpu.tmpval, cpu.regs.x));
        }
        AdvanceState(PARAM3, true);
      } else if cpu.opState.PARAM3? {
        var lo := bus.ReadByte(cpu.tmpval, false);
        cpu := cpu.(ea := lo);
        AdvanceState(PARAM4, true);
      } else {
        var hi := bus.ReadByte(Inc16(cpu.tmpval), false);
        cpu := cpu.(ea := OrHigh(cpu.ea, hi));
        AdvanceState(OP0, false);
      }
    }

    method IndexedIndirect()
      requires Ready() && ParamReachable(INDX, cpu.opcode, cpu.opState)
      modifies this, bus`lastop, bus`accesses
      ensures OperandAdvanced(INDX)
    {
      hide Inc16, OrHigh, ZpAdd, ZpInc, Read;
      if cpu.opState.PARAM0? {
        var lo := ReadPC(false);
        cpu := cpu.(tmpval := lo);
        AdvanceState(PARAM1, true);
      } else if cpu.opState.PARAM1? {
        cpu := cpu.(tmpval := ZpAdd(cpu.tmpval, cpu.regs.x));
        var _ := ReadPC(true);
        AdvanceState(PARAM2, true);
      } else if cpu.opState.PARAM2? {
        var lo := bus.ReadByte(cpu.tmpval, false);
        cpu := cpu.(ea := lo, tmpval := ZpInc(cpu.tmpval));
        AdvanceState(PARAM3, true);
      } else {
        var hi := bus.ReadByte(cpu.tmpval, false);
        cpu := cpu.(ea := OrHigh(cpu.ea, hi));
        AdvanceState(OP0, true);
      }
    }

    method IndirectIndexed()
      requires Ready() && ParamReachable(INDY, cpu.opcode, cpu.opState)
      modifies this, bus`lastop, bus`accesses
      ensures OperandAdvanced(INDY)
    {
      hide Inc16, OrHigh, Add16, ZpInc, SamePage, Read;
      if cpu.opState.PARAM0? {
        var lo := ReadPC(true);
        cpu := cpu.(tmpval := lo);
        AdvanceState(PARAM1, true);
      } else if cpu.opState.PARAM1? {
        var lo := bus.ReadByte(cpu.tmpval, false);
        cpu := cpu.(ea := lo, tmpval := ZpInc(cpu.tmpval));
        AdvanceState(PARAM2, true);
      } else if cpu.opState.PARAM2? {
        var hi := bus.ReadByte(cpu.tmpval, false);
        var start := OrHigh(cpu.ea, hi);
        cpu := cpu.(ea := Add16(start, cpu.regs.y));
        if !SamePage(start, cpu.ea) {
          cpu := cpu.(pageBoundary := true);
          AdvanceState(PARAM3, true);
        } else {
          AdvanceState(OP0, true);
        }
      } else {
        var _ := bus.ReadByte(cpu.tmpval, false);
        AdvanceState(OP0, true);
      }
    }

    method ZeroPageIndirect()
      requires Ready() && ParamReachable(INDZ, cpu.opcode, cpu.opState)
      modifies this, bus`lastop, bus`accesses
      ensures OperandAdvanced(INDZ)
    {
      hide Inc16, OrHigh, ZpInc, Read;
      if cpu.opState.PARAM0? {
        var lo := ReadPC(true);
        cpu := cpu.(tmpval := lo);
        AdvanceState(PARAM1, true);
      } else if cpu.opState.PARAM1? {
        var lo := bus.ReadByte(cpu.tmpval, false);
        cpu := cpu.(ea := lo, tmpval := ZpInc(cpu.tmpval));
        AdvanceState(PARAM2, true);
      } else {
        var hi := bus.ReadByte(cpu.tmpval, false);
        cpu := cpu.(ea := OrHigh(cpu.ea, hi));
        AdvanceState(OP0, true);
      }
    }

    method ZeroPageRelative()
      requires Ready() && ParamReachable(ZPREL, cpu.opcode, cpu.opState)
      modifies this, bus`lastop, bus`accesses
      ensures OperandAdvanced(ZPREL)
    {
      hide Inc16, Read;
      if cpu.opState.PARAM0? {
        var lo := ReadPC(true);
        cpu := cpu.(ea := lo);
        AdvanceState(PARAM1, true);
      } else if cpu.opState.PARAM1? {
        var v := bus.ReadByte(cpu.ea, false);
        cpu := cpu.(value := v);
        AdvanceState(PARAM2, true);
      } else if cpu.opState.PARAM2? {
        var _ := bus.ReadByte(cpu.ea, false);
        AdvanceState(PARAM3, true);
      } else {
        var offset := ReadPC(true);
        cpu := cpu.(reladdr := offset);
        AdvanceState(OP0, false);
      }
    }

    // ----- operation handlers -----

    twostate predicate SameInstruction()
      reads this
    {
      cpu.opcode == old(cpu.opcode) && cpu.pageBoundary == old(cpu.pageBoundary)
    }

    ghost function Consumed(): nat
      reads this
    {
      if cycleConsumed then 1 else 0
    }

    // A dispatch of an operation: what was to come of it, in how many ticks, what still is, in
    // how many, and the bus accesses made.
    twostate predicate Advanced(was: Machine, ticks: int, left: Machine, rest: int, touches: nat)
      reads this, bus
    {
      && bus.Valid() && bus.accesses == old(bus.accesses) + touches
      && Advances(old(cpu), cpu, bus.mem, cycleConsumed, was, ticks, left, rest)
    }

    // The same, of an operation of any kind.
    twostate predicate OperationAdvanced(k: Kind, h: Handler, mode: AddrMode)
      reads this, bus
    {
      && bus.Valid() && OperationStep(k, h, mode, old(cpu), old(bus.mem), cpu, bus.mem, cycleConsumed)
      && bus.accesses == old(bus.accesses) + OperationTouches(k, h, mode, old(cpu))
      && (cycleConsumed <==> !PassesOn(k, mode, old(cpu)))
    }

    // The byte at the effective address, if the operation looks at it.
    method SingleOperand(h: Handler, mode: AddrMode) returns (v: Byte)
      requires KindOf(h).Single? && bus.Valid()
      modifies bus`lastop, bus`accesses
      ensures bus.Valid() && bus.accesses == old(bus.accesses) + SingleTouches(h, mode)
      ensures SingleResult(h, cpu.regs, v, cpu.ea) ==
              SingleResult(h, cpu.regs, ValueAt(mode, cpu.regs, bus.mem, cpu.ea), cpu.ea)
    {
      hide SingleResult, ValueAt, Read, KindOf, Looks;
      v := 0;
      if Looks(h) {
        v := GetValue(mode);
      } else {
        LooksAtNothing(h, cpu.regs, v, ValueAt(mode, cpu.regs, bus.mem, cpu.ea), cpu.ea);
      }
    }

    // Loads, logic, compares, transfers, flag operations, JMP and NOP.
    method SingleCycle(h: Handler, mode: AddrMode)
      requires KindOf(h).Single?
      requires Ready() && cpu.opState.OP0?
      modifies this, bus`lastop, bus`accesses
      ensures Advanced(old(Machine(SingleLeft(h, mode, cpu, bus.mem), bus.mem)), 1,
                       Machine(SingleLeft(h, mode, cpu, bus.mem), bus.mem), 1,
                       SingleTouches(h, mode))
      ensures cycleConsumed
      ensures cpu.opState.OPCODE?
    {
      hide SingleResult, ValueAt, Read, KindOf, SingleTouches;
      var v := SingleOperand(h, mode);
      cpu := cpu.(regs := SingleResult(h, cpu.regs, v, cpu.ea));
      AdvanceState(OPCODE, true);
    }

    // Adds a value to the accumulator; in decimal mode there is more to do.
    method AddIn(v: Byte)
      modifies this
      ensures cycleConsumed
      ensures var r := old(cpu.regs); var sum := SumOf(r.a, v, r.status); var f := SumFlags(r.status, r.a, v);
        cpu == if r.status.d then old(cpu).(result := sum, regs := r.(status := f), opState := OP1)
               else old(cpu).(result := sum, regs := r.(a := Low(sum), status := f), opState := OPCODE)
    {
      var r := cpu.regs;
      var sum := SumOf(r.a, v, r.status);
      cpu := cpu.(result := sum, regs := r.(status := SumFlags(r.status, r.a, v)));
      if cpu.regs.status.d {
        AdvanceState(OP1, true);
      } else {
        cpu := cpu.(regs := cpu.regs.(a := Low(sum)));
        AdvanceState(OPCODE, true);
      }
    }

    method AddSubtract(h: Handler, mode: AddrMode)
      requires h.Adc? || h.Sbc?
      requires Ready() && (cpu.opState.OP0? || cpu.opState.OP1?)
      modifies this, bus`lastop, bus`accesses
      ensures Advanced(old(Machine(ArithLeft(h, mode, cpu, bus.mem), bus.mem)), old(ArithTicks(cpu)),
                       Machine(ArithLeft(h, mode, cpu, bus.mem), bus.mem), ArithTicks(cpu),
                       old(ArithTouches(mode, cpu.opState)))
      ensures cycleConsumed
      ensures cpu.opState.OPCODE? || cpu.opState.OP1?
    {
      hide ValueAt, Read, FinishAdd, FinishSub, BitNot, Has, Low, SumOf, SumFlags;
      if cpu.opState.OP0? {
        var v := GetValue(mode);
        AddIn(if h.Sbc? then BitNot(v) else v);
      } else {
        cpu := cpu.(regs := if h.Adc? then FinishAdd(cpu.regs, cpu.result) else FinishSub(cpu.regs));
        AdvanceState(OPCODE, true);
      }
    }

    method Save(h: Handler, mode: AddrMode)
      requires Ready() && (cpu.opState.OP0? || cpu.opState.OP1?)
      modifies this, bus`lastop, bus`accesses, bus`mem
      ensures Advanced(old(SaveLeft(h, mode, cpu, bus.mem)), old(SaveTicks(h, mode, cpu)),
                       SaveLeft(h, mode, cpu, bus.mem), SaveTicks(h, mode, cpu),
                       old(SaveTouches(h, mode, cpu)))
      ensures cycleConsumed
      ensures cpu.opState.OPCODE? || cpu.opState.OP1?
    {
      hide Saved, Store, Read, Write, Low;
      if cpu.opState.OP0? && !cpu.pageBoundary && (mode.ABSX? || mode.ABSY?) {
        var _ := bus.ReadByte(cpu.ea, false);
        AdvanceState(OP1, true);
      } else if cpu.opState.OP0? && !cpu.pageBoundary && h.Sta? && mode.INDY? {
        var _ := bus.ReadByte(cpu.tmpval, false);
        AdvanceState(OP1, true);
      } else {
        PutValue(mode, Saved(h, cpu.regs));
        AdvanceState(OPCODE, true);
      }
    }

    // Latches the modified value and sets the flags.
    method Latch(h: Handler, mode: AddrMode)
      requires bus.Valid()
      modifies this`cpu, bus`lastop, bus`accesses
      ensures bus.Valid() && bus.accesses == old(bus.accesses) + MemoryTouch(mode)
      ensures var r, v := old(cpu.regs), ValueAt(mode, old(cpu.regs), bus.mem, old(cpu.ea));
        && cpu == old(cpu).(result := RmwValue(h, r, v), regs := r.(status := RmwFlags(h, r, v)))
        && Low(cpu.result) == RmwValue(h, r, v)
    {
      hide RmwValue, RmwFlags, ValueAt, Low;
      var v := GetValue(mode);
      var n := RmwValue(h, cpu.regs, v);
      LowByte(n);
      cpu := cpu.(result := n, regs := cpu.regs.(status := RmwFlags(h, cpu.regs, v)));
    }

    // Stores the latched value, which ends the operation.
    method PutResult(mode: AddrMode)
      requires bus.Valid()
      modifies this, bus`lastop, bus`accesses, bus`mem
      ensures bus.Valid() && cycleConsumed && cpu == old(cpu).(regs := cpu.regs, opState := OPCODE)
      ensures bus.accesses == old(bus.accesses) + MemoryTouch(mode)
      ensures Machine(cpu.regs, bus.mem) ==
              Store(mode, old(cpu.regs), old(bus.mem), old(cpu.ea), Low(old(cpu.result)))
    {
      PutValue(mode, Low(cpu.result));
      AdvanceState(OPCODE, true);
    }

    method Shift(h: Handler, mode: AddrMode)
      requires Ready() && (cpu.opState.OP0? || cpu.opState.OP1? || cpu.opState.OP2?)
      modifies this, bus`lastop, bus`accesses, bus`mem
      ensures Advanced(old(ShiftLeft(h, mode, cpu, bus.mem)), old(ShiftTicks(mode, cpu)),
                       ShiftLeft(h, mode, cpu, bus.mem), ShiftTicks(mode, cpu),
                       old(ShiftTouches(mode, cpu.opState)))
      ensures cycleConsumed
      ensures cpu.opState.OPCODE? || cpu.opState.OP1? || cpu.opState.OP2?
    {
      hide RmwValue, RmwFlags, ValueAt, Store, Low;
      if cpu.opState.OP0? {
        Latch(h, mode);
        if mode.ACC? {
          PutResult(mode);
        } else {
          AdvanceState(OP1, true);
        }
      } else if cpu.opState.OP1? {
        var _ := bus.ReadByte(cpu.ea, false);
        AdvanceState(OP2, true);
      } else {
        PutResult(mode);
      }
    }

    // The penalty cycle of INC and DEC, if there is one to pay.
    method StartStep(h: Handler, mode: AddrMode)
      requires Ready() && cpu.opState.OP0?
      modifies this, bus`lastop, bus`accesses
      ensures Advanced(old(StepLeft(h, mode, cpu, bus.mem)), old(StepTicks(mode, cpu)),
                       StepLeft(h, mode, cpu, bus.mem), StepTicks(mode, cpu),
                       old(StepTouches(mode, cpu)))
      ensures StepsTo(cpu.opState) && (cycleConsumed <==> !PassesOn(Stepping, mode, old(cpu)))
    {
      hide RmwValue, RmwFlags, ValueAt, Store, Low;
      if mode.ABSX? && !cpu.pageBoundary {
        var _ := bus.ReadByte(cpu.ea, false);
        AdvanceState(OP1, true);
      } else {
        AdvanceState(OP1, false);
      }
    }

    method IncDec(h: Handler, mode: AddrMode)
      requires Ready() && (cpu.opState.OP0? || cpu.opState.OP1? || cpu.opState.OP2? || cpu.opState.OP3?)
      modifies this, bus`lastop, bus`accesses, bus`mem
      ensures Advanced(old(StepLeft(h, mode, cpu, bus.mem)), old(StepTicks(mode, cpu)),
                       StepLeft(h, mode, cpu, bus.mem), StepTicks(mode, cpu),
                       old(StepTouches(mode, cpu)))
      ensures StepsTo(cpu.opState) && (cycleConsumed <==> !PassesOn(Stepping, mode, old(cpu)))
    {
      hide RmwValue, RmwFlags, ValueAt, Store, Low;
      if cpu.opState.OP0? {
        StartStep(h, mode);
      } else if cpu.opState.OP1? {
        Latch(h, mode);
        if mode.ACC? {
          PutResult(mode);
        } else {
          AdvanceState(OP2, true);
        }
      } else if cpu.opState.OP2? {
        var _ := bus.ReadByte(cpu.ea, false);
        AdvanceState(OP3, true);
      } else {
        PutResult(mode);
      }
    }

    method ChangeBits(h: Handler, mode: AddrMode)
      requires Ready() && (cpu.opState.OP0? || cpu.opState.OP1? || cpu.opState.OP2?)
      modifies this, bus`lastop, bus`accesses, bus`mem
      ensures Advanced(old(ShiftLeft(h, mode, cpu, bus.mem)), old(MaskTicks(cpu)),
                       ShiftLeft(h, mode, cpu, bus.mem), MaskTicks(cpu),
                       old(ShiftTouches(mode, cpu.opState)))
      ensures cycleConsumed
      ensures cpu.opState.OPCODE? || cpu.opState.OP1? || cpu.opState.OP2?
    {
      hide RmwValue, RmwFlags, ValueAt, Store, Low;
      if cpu.opState.OP0? {
        Latch(h, mode);
        AdvanceState(OP1, true);
      } else if cpu.opState.OP1? {
        var _ := bus.ReadByte(cpu.ea, false);
        AdvanceState(OP2, true);
      } else {
        PutResult(mode);
      }
    }

    method Branch(h: Handler)
      requires Ready() && (cpu.opState.OP0? || cpu.opState.OP1? || cpu.opState.OP2?)
      modifies this, bus`lastop, bus`accesses
      ensures Advanced(old(Machine(BranchLeft(h, cpu), bus.mem)), old(BranchTicksLeft(h, cpu)),
                       Machine(BranchLeft(h, cpu), bus.mem), BranchTicksLeft(h, cpu),
                       old(LaterTouches(cpu.opState)))
      ensures cycleConsumed
      ensures cpu.opState.OPCODE? || cpu.opState.OP1? || cpu.opState.OP2?
    {
      hide Taken, Read, Add16, SamePage;
      if !cpu.opState.OP0? {
        TakeBranch(h);
      } else if Taken(h, cpu.opcode, cpu.regs.status, cpu.value) {
        AdvanceState(OP1, true);
      } else {
        AdvanceState(OPCODE, true);
      }
    }

    method TakeBranch(h: Handler)
      requires Ready() && (cpu.opState.OP1? || cpu.opState.OP2?)
      modifies this, bus`lastop, bus`accesses
      ensures Advanced(old(Machine(BranchLeft(h, cpu), bus.mem)), old(BranchTicksLeft(h, cpu)),
                       Machine(BranchLeft(h, cpu), bus.mem), BranchTicksLeft(h, cpu), 1)
      ensures cycleConsumed && (cpu.opState.OPCODE? || cpu.opState.OP2?)
    {
      hide Taken, Read, Add16, SamePage;
      var _ := ReadPC(false);
      if cpu.opState.OP1? && !SamePage(cpu.regs.pc, Add16(cpu.regs.pc, cpu.reladdr)) {
        AdvanceState(OP2, true);
      } else {
        cpu := cpu.(regs := cpu.regs.(pc := Add16(cpu.regs.pc, cpu.reladdr)));
        AdvanceState(OPCODE, true);
      }
    }

    method PushReg()
      requires Ready() && (cpu.opState.OP0? || cpu.opState.OP1?)
      modifies this, bus`lastop, bus`accesses, bus`mem
      ensures Advanced(old(PushOp(cpu.opcode, cpu.regs, bus.mem)), old(2 - OpIndex(cpu.opState)),
                       PushOp(cpu.opcode, cpu.regs, bus.mem), 2 - OpIndex(cpu.opState),
                       old(PushTouches(cpu.opcode, cpu.opState)))
      ensures cycleConsumed
      ensures cpu.opState.OPCODE? || cpu.opState.OP1?
    {
      hide Pushed, KnownPush, Write, Dec8;
      if cpu.opState.OP0? {
        AdvanceState(OP1, true);
      } else {
        if KnownPush(cpu.opcode) {
          Push8(Pushed(cpu.opcode, cpu.regs));
        }
        AdvanceState(OPCODE, true);
      }
    }

    method PullReg()
      requires Ready() && (cpu.opState.OP0? || cpu.opState.OP1? || cpu.opState.OP2?)
      modifies this, bus`lastop, bus`accesses
      ensures Advanced(old(Machine(PullOp(cpu.opcode, cpu.regs, bus.mem), bus.mem)), old(3 - OpIndex(cpu.opState)),
                       Machine(PullOp(cpu.opcode, cpu.regs, bus.mem), bus.mem), 3 - OpIndex(cpu.opState),
                       old(PullTouches(cpu.opcode, cpu.opState)))
      ensures cycleConsumed
      ensures cpu.opState.OPCODE? || cpu.opState.OP1? || cpu.opState.OP2?
    {
      hide Pulled, KnownPull, Read, Inc8;
      if cpu.opState.OP0? {
        AdvanceState(OP1, true);
      } else if cpu.opState.OP1? {
        var _ := bus.ReadByte(StackAddr(cpu.regs.sp), false);
        AdvanceState(OP2, true);
      } else {
        if KnownPull(cpu.opcode) {
          var v := Pull8();
          cpu := cpu.(regs := Pulled(cpu.opcode, cpu.regs, v));
        }
        AdvanceState(OPCODE, true);
      }
    }

    method JumpSubroutine()
      requires Ready() && cpu.opState.IsOp()
      modifies this, bus`lastop, bus`accesses, bus`mem
      ensures Advanced(old(CallLeft(cpu, bus.mem)), old(5 - OpIndex(cpu.opState)),
                       CallLeft(cpu, bus.mem), 5 - OpIndex(cpu.opState),
                       1)
      ensures cycleConsumed
      ensures cpu.opState.OPCODE? || cpu.opState.OP1? || cpu.opState.OP2? || cpu.opState.OP3? || cpu.opState.OP4?
    {
      hide Read, Write, Inc16, Dec8, OrHigh, High, Low;
      if cpu.opState.OP0? {
        var lo := ReadPC(true);
        cpu := cpu.(ea := lo);
        AdvanceState(OP1, true);
      } else if cpu.opState.OP1? {
        var _ := bus.ReadByte(StackAddr(cpu.regs.sp), false);
        AdvanceState(OP2, true);
      } else if cpu.opState.OP2? {
        Push8(High(cpu.regs.pc));
        AdvanceState(OP3, true);
      } else if cpu.opState.OP3? {
        Push8(Low(cpu.regs.pc));
        AdvanceState(OP4, true);
      } else {
        var hi := ReadPC(false);
        cpu := cpu.(ea := OrHigh(cpu.ea, hi), regs := cpu.regs.(pc := OrHigh(cpu.ea, hi)));
        AdvanceState(OPCODE, true);
      }
    }

    method ReturnSubroutine()
      requires Ready() && cpu.opState.IsOp()
      modifies this, bus`lastop, bus`accesses
      ensures Advanced(old(Machine(ReturnSubLeft(cpu, bus.mem), bus.mem)), old(5 - OpIndex(cpu.opState)),
                       Machine(ReturnSubLeft(cpu, bus.mem), bus.mem), 5 - OpIndex(cpu.opState),
                       old(LaterTouches(cpu.opState)))
      ensures cycleConsumed
      ensures cpu.opState.OPCODE? || cpu.opState.OP1? || cpu.opState.OP2? || cpu.opState.OP3? || cpu.opState.OP4?
    {
      hide Read, Inc16, Inc8, OrHigh;
      if cpu.opState.OP0? {
        AdvanceState(OP1, true);
      } else if cpu.opState.OP1? {
        var _ := bus.ReadByte(StackAddr(cpu.regs.sp), false);
        AdvanceState(OP2, true);
      } else if cpu.opState.OP2? {
        var lo := Pull8();
        cpu := cpu.(tmpval := lo);
        AdvanceState(OP3, true);
      } else if cpu.opState.OP3? {
        var hi := Pull8();
        cpu := cpu.(tmpval := OrHigh(cpu.tmpval, hi), regs := cpu.regs.(pc := OrHigh(cpu.tmpval, hi)));
        AdvanceState(OP4, true);
      } else {
        // The popped address is that of the last byte of the JSR.
        var _ := ReadPC(true);
        AdvanceState(OPCODE, true);
      }
    }

    method ReturnInterrupt()
      requires Ready() && cpu.opState.IsOp()
      modifies this, bus`lastop, bus`accesses
      ensures Advanced(old(Machine(ReturnIntLeft(cpu, bus.mem), bus.mem)), old(5 - OpIndex(cpu.opState)),
                       Machine(ReturnIntLeft(cpu, bus.mem), bus.mem), 5 - OpIndex(cpu.opState),
                       old(LaterTouches(cpu.opState)))
      ensures cycleConsumed
      ensures cpu.opState.OPCODE? || cpu.opState.OP1? || cpu.opState.OP2? || cpu.opState.OP3? || cpu.opState.OP4?
    {
      hide Read, Inc8, OrHigh, FromByte;
      if cpu.opState.OP0? {
        AdvanceState(OP1, true);
      } else if cpu.opState.OP1? {
        var _ := bus.ReadByte(StackAddr(cpu.regs.sp), false);
        AdvanceState(OP2, true);
      } else if cpu.opState.OP2? {
        var p := Pull8();
        cpu := cpu.(regs := cpu.regs.(status := FromByte(p)));
        AdvanceState(OP3, true);
      } else if cpu.opState.OP3? {
        var lo := Pull8();
        cpu := cpu.(tmpval := lo);
        AdvanceState(OP4, true);
      } else {
        var hi := Pull8();
        cpu := cpu.(tmpval := OrHigh(cpu.tmpval, hi), regs := cpu.regs.(pc := OrHigh(cpu.tmpval, hi)));
        AdvanceState(OPCODE, true);
      }
    }

    // Hands over to the vector sequence, past its two discarded reads.
    method Break()
      requires Ready() && cpu.opState.OP0?
      modifies this
      ensures SameInstruction() && cycleConsumed && cpu.opState.VEC2? && bus.accesses == old(bus.accesses)
      ensures EnterLeft(cpu, bus.mem) == old(Enter(BRK_VEC, cpu.regs, bus.mem))
    {
      AdvanceState(VEC2, true);
      cpu := cpu.(vecSrc := BRK_VEC);
    }

    // ----- the vector sequence -----

    // The cycles of an entry that save the program counter and the status.
    method SaveState()
      requires Ready() && (cpu.opState.VEC2? || cpu.opState.VEC3? || cpu.opState.VEC4?)
      modifies this, bus`lastop, bus`accesses, bus`mem
      ensures bus.Valid() && SameInstruction() && cycleConsumed && bus.accesses == old(bus.accesses) + 1
      ensures cpu.opState.VEC3? || cpu.opState.VEC4? || cpu.opState.VEC5?
      ensures EnterLeft(cpu, bus.mem) == old(EnterLeft(cpu, bus.mem))
      ensures EnterTicksLeft(cpu.opState) + 1 == old(EnterTicksLeft(cpu.opState))
    {
      hide Read, PushTo, StackAddr, Inc16, Dec8, OrHigh, High, Low, SavedStatus, MaskedStatus, VectorOf;
      if cpu.opState.VEC2? {
        Push8(High(cpu.regs.pc));
        AdvanceState(VEC3, true);
      } else if cpu.opState.VEC3? {
        Push8(Low(cpu.regs.pc));
        AdvanceState(VEC4, true);
      } else {
        Push8(SavedStatus(cpu.vecSrc, cpu.regs.status));
        cpu := cpu.(regs := cpu.regs.(status := MaskedStatus(cpu.vecSrc, cpu.regs.status)));
        AdvanceState(VEC5, true);
      }
    }

    method Vector()
      requires Ready() && cpu.opState.IsVec() && (cpu.opState.VEC6? ==> cpu.tmpval == VectorOf(cpu.vecSrc))
      modifies this, bus`lastop, bus`accesses, bus`mem
      ensures bus.Valid() && SameInstruction() && cycleConsumed && bus.accesses == old(bus.accesses) + 1
      ensures cpu.opState.OPCODE? ==>
        old(cpu.opState.VEC6?) && Machine(cpu.regs, bus.mem) == old(EnterLeft(cpu, bus.mem))
      ensures !cpu.opState.OPCODE? ==>
        && cpu.opState.IsVec() && (cpu.opState.VEC6? ==> cpu.tmpval == VectorOf(cpu.vecSrc))
        && EnterLeft(cpu, bus.mem) == old(EnterLeft(cpu, bus.mem))
        && EnterTicksLeft(cpu.opState) + 1 == old(EnterTicksLeft(cpu.opState))
    {
      hide Read, PushTo, StackAddr, Inc16, Dec8, OrHigh, High, Low, SavedStatus, MaskedStatus, VectorOf;
      if cpu.opState.VEC0? {
        var _ := ReadPC(false);
        AdvanceState(VEC1, true);
      } else if cpu.opState.VEC1? {
        var _ := ReadPC(false);
        AdvanceState(VEC2, true);
      } else if cpu.opState.VEC5? {
        var vector := VectorOf(cpu.vecSrc);
        var lo := bus.ReadByte(vector, false);
        cpu := cpu.(tmpval := vector, ea := lo);
        AdvanceState(VEC6, true);
      } else if cpu.opState.VEC6? {
        var hi := bus.ReadByte(Inc16(cpu.tmpval), false);
        cpu := cpu.(ea := OrHigh(cpu.ea, hi), regs := cpu.regs.(pc := OrHigh(cpu.ea, hi)));
        AdvanceState(OPCODE, true);
      } else {
        SaveState();
      }
    }

    // ----- dispatch -----

    method OperandPhase(mode: AddrMode)
      requires Ready() && ParamReachable(mode, cpu.opcode, cpu.opState)
      modifies this, bus`lastop, bus`accesses
      ensures OperandAdvanced(mode)
    {
      hide OperandStep, ParamReachable;
      match mode
      case IMP => Implied(mode);
      case ACC => Implied(mode);
      case IMM => Immediate();
      case ZP => ZeroPage();
      case ZPX => ZeroPageIndexed(mode);
      case ZPY => ZeroPageIndexed(mode);
      case REL => Relative();
      case ABSO => Absolute();
      case ABSX => AbsoluteIndexed(mode);
      case ABSY => AbsoluteIndexed(mode);
      case IND => Indirect(mode);
      case INDX => IndexedIndirect();
      case INDY => IndirectIndexed();
      case INDZ => ZeroPageIndirect();
      case ABIN => Indirect(mode);
      case ZPREL => ZeroPageRelative();
    }

    // The operations by the way they proceed.
    method ValuePhase(k: Kind, h: Handler, mode: AddrMode)
      requires k == KindOf(h) && (k.Single? || k.Arith? || k.Saving?)
      requires Ready() && OpReachable(k, cpu.opState)
      modifies this, bus`lastop, bus`accesses, bus`mem
      ensures OperationAdvanced(k, h, mode)
    {
      if k.Arith? {
        ArithHandlers(h);
      }
      hide Advances, OperationStep, OperationTouches, OpIndex, KindOf;
      if k.Single? {
        SingleCycle(h, mode);
        SingleSteps(h, mode, old(cpu), old(bus.mem), cpu, bus.mem, cycleConsumed);
      } else if k.Arith? {
        AddSubtract(h, mode);
        ArithSteps(h, mode, old(cpu), old(bus.mem), cpu, bus.mem, cycleConsumed);
      } else {
        Save(h, mode);
        SavingSteps(h, mode, old(cpu), old(bus.mem), cpu, bus.mem, cycleConsumed);
      }
    }

    method ModifyPhase(k: Kind, h: Handler, mode: AddrMode)
      requires k.Shifting? || k.Masking?
      requires Ready() && OpReachable(k, cpu.opState)
      modifies this, bus`lastop, bus`accesses, bus`mem
      ensures OperationAdvanced(k, h, mode)
    {
      hide Advances, OperationStep, OperationTouches, OpIndex, KindOf;
      if k.Shifting? {
        Shift(h, mode);
        ShiftingSteps(h, mode, old(cpu), old(bus.mem), cpu, bus.mem, cycleConsumed);
      } else {
        ChangeBits(h, mode);
        MaskingSteps(h, mode, old(cpu), old(bus.mem), cpu, bus.mem, cycleConsumed);
      }
    }

    method StepPhase(h: Handler, mode: AddrMode)
      requires Ready() && OpReachable(Stepping, cpu.opState)
      modifies this, bus`lastop, bus`accesses, bus`mem
      ensures OperationAdvanced(Stepping, h, mode)
    {
      hide Advances, OperationStep, OperationTouches, PassesOn, StepLeft, StepTicks, StepTouches, StepsTo;
      IncDec(h, mode);
      SteppingSteps(h, mode, old(cpu), old(bus.mem), cpu, bus.mem, cycleConsumed);
      assert bus.accesses == old(bus.accesses) + OperationTouches(Stepping, h, mode, old(cpu));
    }

    method StackPhase(k: Kind, h: Handler, mode: AddrMode)
      requires k.Branching? || k.Pushing? || k.Pulling?
      requires Ready() && OpReachable(k, cpu.opState)
      modifies this, bus`lastop, bus`accesses, bus`mem
      ensures OperationAdvanced(k, h, mode)
    {
      hide Advances, OperationStep, OperationTouches, OpIndex, KindOf;
      if k.Branching? {
        Branch(h);
        BranchingSteps(h, mode, old(cpu), old(bus.mem), cpu, bus.mem, cycleConsumed);
      } else if k.Pushing? {
        PushReg();
        PushingSteps(h, mode, old(cpu), old(bus.mem), cpu, bus.mem, cycleConsumed);
      } else {
        PullReg();
        PullingSteps(h, mode, old(cpu), old(bus.mem), cpu, bus.mem, cycleConsumed);
      }
    }

    method ControlPhase(k: Kind, h: Handler, mode: AddrMode)
      requires k.Calling? || k.Returning? || k.Resuming? || k.Breaking?
      requires Ready() && OpReachable(k, cpu.opState)
      modifies this, bus`lastop, bus`accesses, bus`mem
      ensures OperationAdvanced(k, h, mode)
    {
      hide Advances, OperationStep, OperationTouches, OpIndex, KindOf;
      if k.Calling? {
        JumpSubroutine();
        CallingSteps(h, mode, old(cpu), old(bus.mem), cpu, bus.mem, cycleConsumed);
      } else if k.Returning? {
        ReturnSubroutine();
        ReturningSteps(h, mode, old(cpu), old(bus.mem), cpu, bus.mem, cycleConsumed);
      } else if k.Resuming? {
        ReturnInterrupt();
        ResumingSteps(h, mode, old(cpu), old(bus.mem), cpu, bus.mem, cycleConsumed);
      } else {
        Break();
        BreakingSteps(h, mode, old(cpu), old(bus.mem), cpu, bus.mem);
      }
    }

    method OperationPhase(k: Kind, h: Handler, mode: AddrMode)
      requires k == KindOf(h) && Ready() && OpReachable(k, cpu.opState)
      modifies this, bus`lastop, bus`accesses, bus`mem
      ensures OperationAdvanced(k, h, mode)
    {
      hide OperationStep, OperationTouches, PassesOn, OpReachable, KindOf;
      if k.Single? || k.Arith? || k.Saving? {
        ValuePhase(k, h, mode);
      } else if k.Shifting? || k.Masking? {
        ModifyPhase(k, h, mode);
      } else if k.Stepping? {
        StepPhase(h, mode);
      } else if k.Branching? || k.Pushing? || k.Pulling? {
        StackPhase(k, h, mode);
      } else {
        ControlPhase(k, h, mode);
      }
    }

    // The bus accesses still to come in this cycle.
    ghost function StillDue(): nat
      requires Reachable(cpu)
      reads this
    {
      if cycleConsumed then 0 else Due(cpu)
    }

    // How far the dispatch loop still is from consuming its cycle: at most three
    // handlers run in one tick.
    ghost function Rank(): nat
      reads this
    {
      if cycleConsumed then 0
      else if cpu.opState.IsParam() then 3
      else if cpu.opState.OPCODE? || cpu.opState.OP0? then 2
      else 1
    }

    method Dispatch()
      requires Ready() && Reachable(cpu) && !cpu.opState.OPCODE?
      modifies this, bus`lastop, bus`accesses, bus`mem
      ensures bus.Valid() && Reachable(cpu) && Future(cpu, bus.mem) == old(Future(cpu, bus.mem))
      ensures Left(cpu, bus.mem) + Consumed() == old(Left(cpu, bus.mem))
      ensures Rank() < old(Rank()) && (cycleConsumed || !cpu.opState.OPCODE?)
      ensures bus.accesses + StillDue() == old(bus.accesses + Due(cpu))
      ensures old(Underway(cpu)) ==> if cycleConsumed then Resting(cpu) else Underway(cpu)
    {
      hide ModeOf, HandlerOf, KindOf, Operate, OperateTicks, OperandLeft, OperandTicksLeft, OperandStep;
      hide OperateLeft, OperateTicksLeft, EnterLeft, OperandDue, OperationDue, OperandTouches, OperationTouches;
      hide StepPenalty;
      if cpu.opState.IsParam() {
        OperandPhase(ModeOf(cpu.opcode));
        OperandLifts(old(cpu), cpu, bus.mem, cycleConsumed);
        OperandTakesDue(old(cpu), cpu, bus.mem, cycleConsumed);
        OperandRests(old(cpu), cpu, bus.mem, cycleConsumed);
      } else if cpu.opState.IsOp() {
        var h, mode := HandlerOf(cpu.opcode), ModeOf(cpu.opcode);
        var k := KindOf(h);
        OperationPhase(k, h, mode);
        OperationTakesDue(old(cpu), cpu, cycleConsumed);
        if Underway(old(cpu)) {
          OperationRests(old(cpu), old(bus.mem), cpu, bus.mem, cycleConsumed);
        }
      } else {
        Vector();
      }
    }

    // ----- the clock tick -----

    ghost function CoreState(): Core
      requires Reachable(cpu)
      reads this, bus
    {
      Core(Future(cpu, bus.mem), Left(cpu, bus.mem), bus.nmiPending)
    }

    // What there is at an instruction boundary.
    ghost function Settled(): Outcome
      reads this, bus
    {
      Outcome(cpu.regs, bus.mem, cpu.pageBoundary)
    }

    // At an instruction boundary: turns to a pending NMI edge first, then to an
    // unmasked IRQ, then to the next instruction, whose opcode fetch takes this cycle.
    method Begin()
      requires Ready() && cpu.opState.OPCODE?
      modifies this, bus`lastop, bus`accesses, bus`nmiPending
      ensures bus.Valid() && Reachable(cpu) && !cpu.opState.OPCODE? && Rank() < 2 && !bus.nmiPending
      ensures var s := Outcome(old(cpu.regs), bus.mem, old(cpu.pageBoundary));
        var w := Choose(Core(s, 0, old(bus.nmiPending)), bus.irq != {});
        Future(cpu, bus.mem) == Start(w, s) && Left(cpu, bus.mem) + Consumed() == Duration(w, s)
      ensures bus.accesses + StillDue() == old(bus.accesses) + 1
      ensures if cycleConsumed then Resting(cpu) else Underway(cpu)
    {
      hide Future, Left, Reachable, Exec, Interrupt, Cycles, Read;
      if bus.nmiPending {
        bus.nmiPending := false;
        cpu := cpu.(vecSrc := NMI_VEC, opState := VEC0);
        StartsEntry(old(cpu), cpu, bus.mem);
      } else if bus.irq != {} && !cpu.regs.status.i {
        cpu := cpu.(vecSrc := IRQ_VEC, opState := VEC0);
        StartsEntry(old(cpu), cpu, bus.mem);
      } else {
        var opcode := bus.ReadByte(cpu.regs.pc, true);
        cpu := cpu.(opcode := opcode, regs := cpu.regs.(pc := Inc16(cpu.regs.pc)), opState := PARAM0);
        cycleConsumed := true;
        StartsInstruction(old(cpu), cpu, bus.mem);
      }
    }

    // Every tick of the core is a tick of the instruction machine.  While RDY is held nothing
    // changes and the last bus operation is repeated; else there is one operation, unless the
    // core only thinks.
    method Tick() returns (ghost handlers: nat)
      requires bus.Valid() && Reachable(cpu)
      modifies this, bus`mem, bus`lastop, bus`accesses, bus`nmiPending
      ensures bus.Valid() && Reachable(cpu) && handlers <= 3
      ensures CoreState() == NextTick(old(CoreState()), bus.rdy != {}, bus.irq != {})
      ensures bus.rdy != {} ==> cpu == old(cpu) && bus.mem == old(bus.mem) && bus.nmiPending == old(bus.nmiPending)
      ensures bus.rdy != {} ==> bus.lastop == old(bus.lastop) && bus.accesses == old(bus.accesses) + 1
      ensures bus.rdy == {} && old(Resting(cpu)) ==>
        Resting(cpu) && bus.accesses == old(bus.accesses) + old(if Thinks(cpu) then 0 else 1)
    {
      hide Future, Left, Reachable, Start, Duration, OperandDue, OperationDue, Thinks;
      ghost var goal := NextTick(CoreState(), bus.rdy != {}, bus.irq != {});
      AtBoundary(cpu, bus.mem);
      cycleConsumed := false;
      handlers := 0;
      if bus.rdy != {} {
        bus.Replay();
        return;
      }
      if Resting(cpu) {
        OneAccess(cpu);
      }
      while !cycleConsumed
        invariant bus.Valid() && Reachable(cpu) && handlers + Rank() <= 3
        invariant bus.accesses + StillDue() == old(bus.accesses + Due(cpu))
        invariant old(Resting(cpu)) ==> if cycleConsumed then Resting(cpu) else Underway(cpu)
        invariant cpu.opState.OPCODE? && !cycleConsumed ==>
          cpu == old(cpu) && bus.mem == old(bus.mem) && bus.nmiPending == old(bus.nmiPending)
        invariant !cpu.opState.OPCODE? || cycleConsumed ==>
          CoreState() == goal.(busy := goal.busy + 1 - Consumed())
        decreases Rank()
      {
        if cpu.opState.OPCODE? {
          Begin();
        } else {
          Dispatch();
        }
        handlers := handlers + 1;
      }
      cycleConsumed := false;
    }

    // Runs to the next instruction boundary: finishes the instruction in progress or, on
    // a boundary, does the next piece of work.  Nobody may be holding RDY.
    method Step() returns (elapsed: nat)
      requires bus.Valid() && Reachable(cpu) && bus.rdy == {}
      modifies this, bus`mem, bus`lastop, bus`accesses, bus`nmiPending
      ensures bus.Valid() && Reachable(cpu) && cpu.opState.OPCODE?
      ensures var c := old(CoreState());
        if old(cpu.opState.OPCODE?) then
          var w := Choose(c, bus.irq != {});
          CoreState() == Core(Start(w, c.s), 0, false) && elapsed == Duration(w, c.s)
        else CoreState() == c.(busy := 0) && elapsed == c.busy
      ensures old(cpu.opState.OPCODE?) ==>
        var s, edge, request := old(Settled()), old(bus.nmiPending), bus.irq != {};
        Settled() == OpcodeMap.Follows(s, edge, request) && elapsed == OpcodeMap.FollowsIn(s, edge, request)
    {
      hide Future, Left, Reachable, Start, Duration, OpcodeMap.Follows, OpcodeMap.FollowsIn;
      Decoding.EveryTurn(Settled(), bus.nmiPending, bus.irq != {});
      AtBoundary(cpu, bus.mem);
      elapsed := 0;
      if cpu.opState.OPCODE? {
        var _ := Tick();
        elapsed := 1;
      }
      AtBoundary(cpu, bus.mem);
      ghost var goal := CoreState();
      ghost var begun := elapsed;
      while !cpu.opState.OPCODE?
        invariant bus.Valid() && Reachable(cpu)
        invariant CoreState() == goal.(busy := goal.busy - (elapsed - begun)) && elapsed >= begun
        invariant cpu.opState.OPCODE? <==> Left(cpu, bus.mem) == 0
        invariant Left(cpu, bus.mem) >= 0
        decreases Left(cpu, bus.mem)
      {
        var _ := Tick();
        elapsed := elapsed + 1;
        AtBoundary(cpu, bus.mem);
      }
      AtBoundary(cpu, bus.mem);
    }
  }
}

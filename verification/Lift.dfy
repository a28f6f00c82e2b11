// From one phase to the whole instruction: each phase's progress is progress of the
// instruction, because the operation looks only at what its operand phase delivers.
module Lifting {
  import opened Words
  import opened CpuTypes
  import opened Isa
  import opened FutureState

  // Whether an operation looks at the effective address (or the byte there).
  predicate UsesAddress(h: Handler) {
    match KindOf(h)
    case Single =>
      h.And? || h.Ora? || h.Eor? || h.Bit? || h.Cmp? || h.Cpx? || h.Cpy? || h.Lda? || h.Ldx? || h.Ldy? || h.Jmp?
    case Arith => true
    case Saving => true
    case Shifting => true
    case Stepping => true
    case Masking => true
    case _ => false
  }

  // What the two decoding tables agree on.
  lemma ImpliedOps(op: Byte)
    requires ModeOf(op).IMP?
    ensures !UsesAddress(HandlerOf(op))
  {
  }

  lemma AccumulatorOps(op: Byte)
    requires ModeOf(op).ACC?
    ensures KindOf(HandlerOf(op)).Shifting? || KindOf(HandlerOf(op)).Stepping?
  {
  }

  lemma RelativeOps(op: Byte)
    ensures ModeOf(op).REL? <==> HandlerOf(op).Bxx? || HandlerOf(op).Bra?
  {
  }

  lemma BitBranchOps(op: Byte)
    ensures ModeOf(op).ZPREL? <==> HandlerOf(op).Bbr? || HandlerOf(op).Bbs?
  {
    if op < 0x40 {
    } else if op < 0x80 {
    } else if op < 0xC0 {
    }
  }

  lemma CallOp(op: Byte)
    ensures HandlerOf(op).Jsr? <==> op == 0x20
  {
  }

  // The operand as the latches hold it when the operation starts.
  function Latched(m: CpuState): Operand { Operand(m.ea, m.reladdr, m.value, m.regs.pc, false) }

  lemma ArithHandlers(h: Handler)
    requires KindOf(h).Arith?
    ensures h.Adc? || h.Sbc?
  {
  }

  predicate Agree(h: Handler, mode: AddrMode, o1: Operand, o2: Operand) {
    && (UsesAddress(h) && (mode.ACC? ==> KindOf(h).Single?) ==> o1.ea == o2.ea)
    && (KindOf(h).Branching? ==> o1.rel == o2.rel)
    && (h.Bbr? || h.Bbs? ==> o1.val == o2.val)
  }

  lemma SingleAgrees(h: Handler, r: Regs, v1: Byte, v2: Byte, ea1: Addr, ea2: Addr)
    requires KindOf(h).Single? && !UsesAddress(h)
    ensures SingleResult(h, r, v1, ea1) == SingleResult(h, r, v2, ea2)
  {
    hide SetA, SetX, SetY, Compare, BitAnd, BitOr, BitXor, Has, Inc8, Dec8;
  }

  lemma AccumulatorAgrees(h: Handler, mode: AddrMode, r: Regs, mem: Memory, ea1: Addr, ea2: Addr, v: Byte)
    requires mode.ACC?
    ensures ValueAt(mode, r, mem, ea1) == ValueAt(mode, r, mem, ea2)
    ensures Store(mode, r, mem, ea1, v) == Store(mode, r, mem, ea2, v)
    ensures Modify(h, mode, r, mem, ea1) == Modify(h, mode, r, mem, ea2)
  {
  }

  // Only BBR and BBS look at a value.
  lemma BranchAgrees(h: Handler, opcode: Byte, r: Regs, v1: Byte, v2: Byte, rel: Addr)
    requires !h.Bbr? && !h.Bbs?
    ensures BranchTo(h, opcode, r, v1, rel) == BranchTo(h, opcode, r, v2, rel)
  {
    hide Add16;
  }

  // What an operation takes from its operand.
  predicate SameInputs(k: Kind, h: Handler, mode: AddrMode, opcode: Byte, r: Regs, o1: Operand, o2: Operand,
                       mem: Memory) {
    && (k.Single? ==>
          var r1 := SingleResult(h, r, ValueAt(mode, r, mem, o1.ea), o1.ea);
          r1 == SingleResult(h, r, ValueAt(mode, r, mem, o2.ea), o2.ea))
    && (k.Arith? ==> ValueAt(mode, r, mem, o1.ea) == ValueAt(mode, r, mem, o2.ea))
    && (k.Saving? ==> Store(mode, r, mem, o1.ea, Saved(h, r)) == Store(mode, r, mem, o2.ea, Saved(h, r)))
    && (k.Shifting? || k.Stepping? || k.Masking? ==> Modify(h, mode, r, mem, o1.ea) == Modify(h, mode, r, mem, o2.ea))
    && (k.Branching? ==> BranchTo(h, opcode, r, o1.val, o1.rel) == BranchTo(h, opcode, r, o2.val, o2.rel))
  }

  lemma SameOutputs(k: Kind, h: Handler, mode: AddrMode, opcode: Byte, r: Regs, o1: Operand, o2: Operand, mem: Memory)
    requires SameInputs(k, h, mode, opcode, r, o1, o2, mem)
    ensures Operate(k, h, mode, opcode, r, o1, mem) == Operate(k, h, mode, opcode, r, o2, mem)
  {
    hide SingleResult, ValueAt, Store, Modify, Saved, Arithmetic, BranchTo;
    hide Call, Enter, ReturnInt, ReturnSub, PushOp, PullOp;
  }

  lemma OperateAgrees(h: Handler, mode: AddrMode, opcode: Byte, r: Regs, o1: Operand, o2: Operand, mem: Memory)
    requires Agree(h, mode, o1, o2)
    ensures Operate(KindOf(h), h, mode, opcode, r, o1, mem) == Operate(KindOf(h), h, mode, opcode, r, o2, mem)
  {
    hide Operate, SingleResult, ValueAt, Store, Modify, Saved, BranchTo;
    var k := KindOf(h);
    if k.Single? && !UsesAddress(h) {
      SingleAgrees(h, r, ValueAt(mode, r, mem, o1.ea), ValueAt(mode, r, mem, o2.ea), o1.ea, o2.ea);
    } else if mode.ACC? {
      AccumulatorAgrees(h, mode, r, mem, o1.ea, o2.ea, Saved(h, r));
    }
    if !h.Bbr? && !h.Bbs? {
      BranchAgrees(h, opcode, r, o1.val, o2.val, o2.rel);
    }
    SameOutputs(k, h, mode, opcode, r, o1, o2, mem);
  }

  lemma TicksAgree(h: Handler, mode: AddrMode, opcode: Byte, r: Regs, o1: Operand, o2: Operand, page: bool)
    requires Agree(h, mode, o1, o2)
    ensures OperateTicks(KindOf(h), h, mode, opcode, r, o1, page)
         == OperateTicks(KindOf(h), h, mode, opcode, r, o2, page)
  {
    hide SavePenalty, StepPenalty, BranchTicks, BranchFlag;
  }

  lemma DeliveredAgrees(m: CpuState, o: Operand)
    requires Delivered(ModeOf(m.opcode), m, o)
    ensures Agree(HandlerOf(m.opcode), ModeOf(m.opcode), o, Latched(m))
  {
    hide HandlerOf, ModeOf;
    RelativeOps(m.opcode);
    BitBranchOps(m.opcode);
    CallOp(m.opcode);
    if ModeOf(m.opcode).IMP? {
      ImpliedOps(m.opcode);
    } else if ModeOf(m.opcode).ACC? {
      AccumulatorOps(m.opcode);
    }
  }

  // An operation about to start has everything still to do.
  lemma StartsWhole(k: Kind, h: Handler, mode: AddrMode, m: CpuState, mem: Memory)
    requires m.opState.OP0?
    ensures OperateLeft(k, h, mode, m, mem) == Operate(k, h, mode, m.opcode, m.regs, Latched(m), mem)
  {
    hide Modify, Call, Store, Arithmetic, BranchTo, Saved, ValueAt, SingleResult;
    hide Enter, ReturnInt, ReturnSub, PushOp, PullOp;
  }

  lemma TicksAtStart(h: Handler, mode: AddrMode, m: CpuState)
    requires m.opState.OP0?
    ensures ArithTicks(m) == (if m.regs.status.d then 2 else 1) && MaskTicks(m) == 3 && OpIndex(m.opState) == 0
    ensures SaveTicks(h, mode, m) == 1 + SavePenalty(h, mode, m.pageBoundary)
    ensures ShiftTicks(mode, m) == if mode.ACC? then 1 else 3
    ensures StepTicks(mode, m) == if mode.ACC? then 1 else 3 + StepPenalty(mode, m.pageBoundary)
    ensures BranchTicksLeft(h, m) ==
            if Taken(h, m.opcode, m.regs.status, m.value) then 1 + BranchTicks(m.regs, m.reladdr) else 1
  {
    hide Taken, BranchTicks, SavePenalty, StepPenalty;
  }

  lemma StartsAllTicks(k: Kind, h: Handler, mode: AddrMode, m: CpuState)
    requires m.opState.OP0?
    ensures OperateTicksLeft(k, h, mode, m) == OperateTicks(k, h, mode, m.opcode, m.regs, Latched(m), m.pageBoundary)
  {
    hide Taken, BranchTicks, SavePenalty, StepPenalty;
    hide ArithTicks, SaveTicks, ShiftTicks, StepTicks, MaskTicks, BranchTicksLeft, OpIndex;
    TicksAtStart(h, mode, m);
  }

  lemma OperandLifts(b: CpuState, f: CpuState, mem: Memory, consumed: bool)
    requires ParamReachable(ModeOf(b.opcode), b.opcode, b.opState)
    requires OperandStep(ModeOf(b.opcode), b, f, mem, consumed)
    ensures Reachable(f) && Future(f, mem) == Future(b, mem)
    ensures Left(f, mem) + (if consumed then 1 else 0) == Left(b, mem)
    ensures !f.opState.OPCODE? && (consumed || f.opState.OP0?)
  {
    var mode, h := ModeOf(b.opcode), HandlerOf(b.opcode);
    var o := OperandLeft(mode, b, mem);
    if f.opState.IsParam() {
      var o' := OperandLeft(mode, f, mem);
      OperateAgrees(h, mode, b.opcode, b.regs.(pc := o.pc), o, o', mem);
      TicksAgree(h, mode, b.opcode, b.regs.(pc := o.pc), o, o', b.pageBoundary || o.crossed);
      hide HandlerOf, ModeOf, KindOf, Operate, OperateTicks, OperandLeft, OperandTicksLeft;
    } else {
      DeliveredAgrees(f, o);
      OperateAgrees(h, mode, b.opcode, f.regs, o, Latched(f), mem);
      TicksAgree(h, mode, b.opcode, f.regs, o, Latched(f), f.pageBoundary);
      StartsWhole(KindOf(h), h, mode, f, mem);
      StartsAllTicks(KindOf(h), h, mode, f);
      hide HandlerOf, ModeOf, KindOf, Operate, OperateTicks;
      hide OperandLeft, OperandTicksLeft, OperateLeft, OperateTicksLeft;
    }
  }

  lemma Unfinished(m: CpuState, mem: Memory)
    requires Reachable(m) && !m.opState.OPCODE?
    ensures Left(m, mem) >= 1
  {
    hide ModeOf, HandlerOf, KindOf, Future, OperandLeft, OperateLeft, Operate;
  }

  lemma AtBoundary(m: CpuState, mem: Memory)
    requires Reachable(m)
    ensures m.opState.OPCODE? ==> Left(m, mem) == 0 && Future(m, mem) == Outcome(m.regs, mem, m.pageBoundary)
    ensures !m.opState.OPCODE? ==> Left(m, mem) >= 1
  {
    hide ModeOf, HandlerOf, KindOf, OperandLeft, OperateLeft, Operate, OperandTicksLeft, OperateTicksLeft, OperateTicks;
    if !m.opState.OPCODE? {
      Unfinished(m, mem);
    }
  }

  lemma StartsEntry(b: CpuState, f: CpuState, mem: Memory)
    requires b.opState.OPCODE? && f == b.(vecSrc := f.vecSrc, opState := VEC0)
    ensures Reachable(f) && Left(f, mem) == ENTRY_TICKS
    ensures Future(f, mem) == Interrupt(f.vecSrc, Outcome(b.regs, mem, b.pageBoundary))
  {
    hide ModeOf, HandlerOf, KindOf, OperandLeft, OperateLeft, Operate, OperandTicksLeft, OperateTicksLeft, OperateTicks;
    hide Enter;
  }

  lemma StartsInstruction(b: CpuState, f: CpuState, mem: Memory)
    requires b.opState.OPCODE?
    requires f == b.(opcode := Read(mem, b.regs.pc), regs := b.regs.(pc := Inc16(b.regs.pc)), opState := PARAM0)
    ensures Reachable(f)
    ensures Future(f, mem) == Exec(Outcome(b.regs, mem, b.pageBoundary))
    ensures Left(f, mem) + 1 == Cycles(Outcome(b.regs, mem, b.pageBoundary))
  {
    hide ModeOf, HandlerOf, KindOf, Operate, OperateTicks, OperandTicks, Resolve;
  }
}

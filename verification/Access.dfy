// How often the core is on the bus: once in each clock cycle, but for the cycles in which
// it only thinks.
module BusAccess {
  import opened Words
  import opened CpuTypes
  import opened Isa
  import opened FutureState
  import opened Lifting

  // Whether a single-cycle operation reads its operand.
  predicate Looks(h: Handler) {
    UsesAddress(h) && !h.Jmp?
  }

  lemma LooksAtNothing(h: Handler, r: Regs, v1: Byte, v2: Byte, ea: Addr)
    requires KindOf(h).Single? && !Looks(h)
    ensures SingleResult(h, r, v1, ea) == SingleResult(h, r, v2, ea)
  {
    if !h.Jmp? {
      SingleAgrees(h, r, v1, v2, ea, ea);
    }
    hide SetA, SetX, SetY, Compare, BitAnd, BitOr, BitXor, Has, Inc8, Dec8;
  }

  // ----- one dispatch -----

  // The accumulator is not on the bus.
  function MemoryTouch(mode: AddrMode): nat { if mode.ACC? then 0 else 1 }

  // The bus accesses of a dispatch in the operand phase ...
  function OperandTouches(mode: AddrMode, opcode: Byte): nat {
    if mode.IMM? || (mode.ABSO? && opcode == 0x20) then 0 else 1
  }

  // ... and in the operation phase.
  function SingleTouches(h: Handler, mode: AddrMode): nat { if Looks(h) then MemoryTouch(mode) else 0 }

  function ArithTouches(mode: AddrMode, st: OpState): nat { if st.OP0? then MemoryTouch(mode) else 0 }

  function SaveTouches(h: Handler, mode: AddrMode, m: CpuState): nat {
    if m.opState.OP0? && SavePenalty(h, mode, m.pageBoundary) == 1 then 1 else MemoryTouch(mode)
  }

  function ShiftTouches(mode: AddrMode, st: OpState): nat { if st.OP1? then 1 else MemoryTouch(mode) }

  function StepTouches(mode: AddrMode, m: CpuState): nat {
    if m.opState.OP0? then StepPenalty(mode, m.pageBoundary)
    else if m.opState.OP2? then 1
    else MemoryTouch(mode)
  }

  function PushTouches(opcode: Byte, st: OpState): nat { if st.OP0? || !KnownPush(opcode) then 0 else 1 }

  function PullTouches(opcode: Byte, st: OpState): nat {
    if st.OP0? || (!st.OP1? && !KnownPull(opcode)) then 0 else 1
  }

  function LaterTouches(st: OpState): nat { if st.OP0? then 0 else 1 }

  function OperationTouches(k: Kind, h: Handler, mode: AddrMode, m: CpuState): nat {
    match k
    case Single => SingleTouches(h, mode)
    case Arith => ArithTouches(mode, m.opState)
    case Saving => SaveTouches(h, mode, m)
    case Shifting => ShiftTouches(mode, m.opState)
    case Stepping => StepTouches(mode, m)
    case Masking => ShiftTouches(mode, m.opState)
    case Branching => LaterTouches(m.opState)
    case Pushing => PushTouches(m.opcode, m.opState)
    case Pulling => PullTouches(m.opcode, m.opState)
    case Calling => 1
    case Returning => LaterTouches(m.opState)
    case Resuming => LaterTouches(m.opState)
    case Breaking => 0
  }

  // The dispatches of each kind of operation, for OperationStep.
  lemma SingleSteps(h: Handler, mode: AddrMode, b: CpuState, was: Memory, f: CpuState, mem: Memory, consumed: bool)
    requires f.opState.OPCODE?
    requires Advances(b, f, mem, consumed, Machine(SingleLeft(h, mode, b, was), was), 1,
                      Machine(SingleLeft(h, mode, f, mem), mem), 1)
    ensures OperationStep(Single, h, mode, b, was, f, mem, consumed)
    ensures OperationTouches(Single, h, mode, b) == SingleTouches(h, mode)
  {
    hide Advances, SingleResult, ValueAt, ModifyLeft, Store, PushTo, Read, JoinHigh;
  }

  lemma ArithSteps(h: Handler, mode: AddrMode, b: CpuState, was: Memory, f: CpuState, mem: Memory, consumed: bool)
    requires f.opState.OPCODE? || f.opState.OP1?
    requires Advances(b, f, mem, consumed, Machine(ArithLeft(h, mode, b, was), was), ArithTicks(b),
                      Machine(ArithLeft(h, mode, f, mem), mem), ArithTicks(f))
    ensures OperationStep(Arith, h, mode, b, was, f, mem, consumed)
    ensures OperationTouches(Arith, h, mode, b) == ArithTouches(mode, b.opState)
  {
    hide Advances, SingleResult, ValueAt, ModifyLeft, Store, PushTo, Read, JoinHigh;
  }

  lemma SavingSteps(h: Handler, mode: AddrMode, b: CpuState, was: Memory, f: CpuState, mem: Memory, consumed: bool)
    requires f.opState.OPCODE? || f.opState.OP1?
    requires Advances(b, f, mem, consumed, SaveLeft(h, mode, b, was), SaveTicks(h, mode, b),
                      SaveLeft(h, mode, f, mem), SaveTicks(h, mode, f))
    ensures OperationStep(Saving, h, mode, b, was, f, mem, consumed)
    ensures OperationTouches(Saving, h, mode, b) == SaveTouches(h, mode, b)
  {
    hide Advances, SingleResult, ValueAt, ModifyLeft, Store, PushTo, Read, JoinHigh;
  }

  lemma ShiftingSteps(h: Handler, mode: AddrMode, b: CpuState, was: Memory, f: CpuState, mem: Memory, consumed: bool)
    requires f.opState.OPCODE? || f.opState.OP1? || f.opState.OP2?
    requires Advances(b, f, mem, consumed, ShiftLeft(h, mode, b, was), ShiftTicks(mode, b),
                      ShiftLeft(h, mode, f, mem), ShiftTicks(mode, f))
    ensures OperationStep(Shifting, h, mode, b, was, f, mem, consumed)
    ensures OperationTouches(Shifting, h, mode, b) == ShiftTouches(mode, b.opState)
  {
    hide Advances, SingleResult, ValueAt, ModifyLeft, Store, PushTo, Read, JoinHigh;
  }

  // Where a dispatch of INC or DEC leaves off.
  predicate StepsTo(st: OpState) { st.OPCODE? || st.OP1? || st.OP2? || st.OP3? }

  lemma SteppingSteps(h: Handler, mode: AddrMode, b: CpuState, was: Memory, f: CpuState, mem: Memory, consumed: bool)
    requires StepsTo(f.opState)
    requires Advances(b, f, mem, consumed, StepLeft(h, mode, b, was), StepTicks(mode, b),
                      StepLeft(h, mode, f, mem), StepTicks(mode, f))
    ensures OperationStep(Stepping, h, mode, b, was, f, mem, consumed)
    ensures OperationTouches(Stepping, h, mode, b) == StepTouches(mode, b)
  {
    hide Advances, SingleResult, ValueAt, ModifyLeft, Store, PushTo, Read, JoinHigh;
  }

  lemma MaskingSteps(h: Handler, mode: AddrMode, b: CpuState, was: Memory, f: CpuState, mem: Memory, consumed: bool)
    requires f.opState.OPCODE? || f.opState.OP1? || f.opState.OP2?
    requires Advances(b, f, mem, consumed, ShiftLeft(h, mode, b, was), MaskTicks(b),
                      ShiftLeft(h, mode, f, mem), MaskTicks(f))
    ensures OperationStep(Masking, h, mode, b, was, f, mem, consumed)
    ensures OperationTouches(Masking, h, mode, b) == ShiftTouches(mode, b.opState)
  {
    hide Advances, SingleResult, ValueAt, ModifyLeft, Store, PushTo, Read, JoinHigh;
  }

  lemma BranchingSteps(h: Handler, mode: AddrMode, b: CpuState, was: Memory, f: CpuState, mem: Memory, consumed: bool)
    requires f.opState.OPCODE? || f.opState.OP1? || f.opState.OP2?
    requires Advances(b, f, mem, consumed, Machine(BranchLeft(h, b), was), BranchTicksLeft(h, b),
                      Machine(BranchLeft(h, f), mem), BranchTicksLeft(h, f))
    ensures OperationStep(Branching, h, mode, b, was, f, mem, consumed)
    ensures OperationTouches(Branching, h, mode, b) == LaterTouches(b.opState)
  {
    hide Advances, SingleResult, ValueAt, ModifyLeft, Store, PushTo, Read, JoinHigh;
  }

  lemma PushingSteps(h: Handler, mode: AddrMode, b: CpuState, was: Memory, f: CpuState, mem: Memory, consumed: bool)
    requires f.opState.OPCODE? || f.opState.OP1?
    requires Advances(b, f, mem, consumed, PushOp(b.opcode, b.regs, was), 2 - OpIndex(b.opState),
                      PushOp(f.opcode, f.regs, mem), 2 - OpIndex(f.opState))
    ensures OperationStep(Pushing, h, mode, b, was, f, mem, consumed)
    ensures OperationTouches(Pushing, h, mode, b) == PushTouches(b.opcode, b.opState)
  {
    hide Advances, SingleResult, ValueAt, ModifyLeft, Store, PushTo, Read, JoinHigh;
  }

  lemma PullingSteps(h: Handler, mode: AddrMode, b: CpuState, was: Memory, f: CpuState, mem: Memory, consumed: bool)
    requires f.opState.OPCODE? || f.opState.OP1? || f.opState.OP2?
    requires Advances(b, f, mem, consumed, Machine(PullOp(b.opcode, b.regs, was), was), 3 - OpIndex(b.opState),
                      Machine(PullOp(f.opcode, f.regs, mem), mem), 3 - OpIndex(f.opState))
    ensures OperationStep(Pulling, h, mode, b, was, f, mem, consumed)
    ensures OperationTouches(Pulling, h, mode, b) == PullTouches(b.opcode, b.opState)
  {
    hide Advances, SingleResult, ValueAt, ModifyLeft, Store, PushTo, Read, JoinHigh;
  }

  lemma CallingSteps(h: Handler, mode: AddrMode, b: CpuState, was: Memory, f: CpuState, mem: Memory, consumed: bool)
    requires f.opState.OPCODE? || f.opState.OP1? || f.opState.OP2? || f.opState.OP3? || f.opState.OP4?
    requires Advances(b, f, mem, consumed, CallLeft(b, was), 5 - OpIndex(b.opState),
                      CallLeft(f, mem), 5 - OpIndex(f.opState))
    ensures OperationStep(Calling, h, mode, b, was, f, mem, consumed)
    ensures OperationTouches(Calling, h, mode, b) == 1
  {
    hide Advances, SingleResult, ValueAt, ModifyLeft, Store, PushTo, Read, JoinHigh;
  }

  lemma ReturningSteps(h: Handler, mode: AddrMode, b: CpuState, was: Memory, f: CpuState, mem: Memory, consumed: bool)
    requires f.opState.OPCODE? || f.opState.OP1? || f.opState.OP2? || f.opState.OP3? || f.opState.OP4?
    requires Advances(b, f, mem, consumed, Machine(ReturnSubLeft(b, was), was), 5 - OpIndex(b.opState),
                      Machine(ReturnSubLeft(f, mem), mem), 5 - OpIndex(f.opState))
    ensures OperationStep(Returning, h, mode, b, was, f, mem, consumed)
    ensures OperationTouches(Returning, h, mode, b) == LaterTouches(b.opState)
  {
    hide Advances, SingleResult, ValueAt, ModifyLeft, Store, PushTo, Read, JoinHigh;
  }

  lemma ResumingSteps(h: Handler, mode: AddrMode, b: CpuState, was: Memory, f: CpuState, mem: Memory, consumed: bool)
    requires f.opState.OPCODE? || f.opState.OP1? || f.opState.OP2? || f.opState.OP3? || f.opState.OP4?
    requires Advances(b, f, mem, consumed, Machine(ReturnIntLeft(b, was), was), 5 - OpIndex(b.opState),
                      Machine(ReturnIntLeft(f, mem), mem), 5 - OpIndex(f.opState))
    ensures OperationStep(Resuming, h, mode, b, was, f, mem, consumed)
    ensures OperationTouches(Resuming, h, mode, b) == LaterTouches(b.opState)
  {
    hide Advances, SingleResult, ValueAt, ModifyLeft, Store, PushTo, Read, JoinHigh;
  }

  lemma BreakingSteps(h: Handler, mode: AddrMode, b: CpuState, was: Memory, f: CpuState, mem: Memory)
    requires f.opcode == b.opcode && f.pageBoundary == b.pageBoundary
    requires f.opState.VEC2? && EnterLeft(f, mem) == Enter(BRK_VEC, b.regs, was)
    ensures OperationStep(Breaking, h, mode, b, was, f, mem, true)
    ensures OperationTouches(Breaking, h, mode, b) == 0
  {
    hide Enter, EnterLeft, SingleLeft, ArithLeft, SaveLeft, ShiftLeft, StepLeft, BranchLeft, PushOp, PullOp, CallLeft;
    hide ReturnSubLeft, ReturnIntLeft, OpReachable, Advances;
  }

  // INC and DEC pass through two states in one cycle if there is no penalty to pay.
  predicate PassesOn(k: Kind, mode: AddrMode, m: CpuState) {
    k.Stepping? && m.opState.OP0? && StepPenalty(mode, m.pageBoundary) == 0
  }

  // ----- one cycle -----

  // The accesses to come until the cycle is consumed, in the operation phase.
  function OperationDue(m: CpuState): nat {
    var mode, h := ModeOf(m.opcode), HandlerOf(m.opcode);
    if PassesOn(KindOf(h), mode, m) then MemoryTouch(mode)
    else OperationTouches(KindOf(h), h, mode, m)
  }

  // In the operand phase; some modes hand over without consuming the cycle.
  function OperandDue(m: CpuState): nat
    requires ParamReachable(ModeOf(m.opcode), m.opcode, m.opState)
  {
    var mode := ModeOf(m.opcode);
    OperandTouches(mode, m.opcode) + if HandsOver(mode, m) then OperationDue(m.(opState := OP0)) else 0
  }

  // Whether the operand is complete without using up the cycle.
  predicate HandsOver(mode: AddrMode, m: CpuState)
    requires ParamReachable(mode, m.opcode, m.opState)
  {
    match mode
    case IMP => true
    case ACC => true
    case IMM => true
    case REL => true
    case ABSO => m.opcode == 0x20 || (m.opState.PARAM1? && m.opcode == 0x4C)
    case IND => m.opState.PARAM4?
    case ABIN => m.opState.PARAM4?
    case ZPREL => m.opState.PARAM3?
    case _ => false
  }

  function Due(m: CpuState): nat
    requires Reachable(m)
  {
    if m.opState.IsParam() then OperandDue(m)
    else if m.opState.IsOp() then OperationDue(m)
    else 1
  }

  // Handing over is what leaves the cycle unused.
  lemma HandsOverFreely(mode: AddrMode, b: CpuState, f: CpuState, mem: Memory, consumed: bool)
    requires ParamReachable(mode, b.opcode, b.opState) && OperandStep(mode, b, f, mem, consumed)
    ensures HandsOver(mode, b) <==> !consumed
    ensures f.opcode == b.opcode
    ensures if f.opState.IsParam() then ParamReachable(mode, f.opcode, f.opState) else f.opState.OP0?
    ensures !consumed ==> f.opState.OP0?
  {
    hide OperandLeft, Delivered;
  }

  // The page flag makes no difference to an operation that was handed over to.
  lemma DueAtStart(mode: AddrMode, b: CpuState, f: CpuState)
    requires mode == ModeOf(b.opcode) && f.opcode == b.opcode && f.opState.OP0?
    requires ParamReachable(mode, b.opcode, b.opState) && HandsOver(mode, b)
    ensures OperationDue(f) == OperationDue(b.(opState := OP0))
  {
    hide ModeOf, HandlerOf, KindOf, Looks;
  }

  // What a dispatch does is taken off what is due.
  lemma OperandTakesDue(b: CpuState, f: CpuState, mem: Memory, consumed: bool)
    requires ParamReachable(ModeOf(b.opcode), b.opcode, b.opState) && Reachable(f)
    requires OperandStep(ModeOf(b.opcode), b, f, mem, consumed)
    ensures OperandTouches(ModeOf(b.opcode), b.opcode) + (if consumed then 0 else Due(f)) == Due(b)
  {
    HandsOverFreely(ModeOf(b.opcode), b, f, mem, consumed);
    hide ModeOf, OperandStep, OperandTouches, OperationDue, HandsOver, ParamReachable;
    if !consumed {
      DueAtStart(ModeOf(b.opcode), b, f);
    }
  }

  lemma OperationTakesDue(b: CpuState, f: CpuState, consumed: bool)
    requires b.opState.IsOp() && Reachable(b) && Reachable(f) && f.opcode == b.opcode
    requires consumed <==> !PassesOn(KindOf(HandlerOf(b.opcode)), ModeOf(b.opcode), b)
    requires !consumed ==> f.opState.OP1?
    ensures var mode, h := ModeOf(b.opcode), HandlerOf(b.opcode);
      OperationTouches(KindOf(h), h, mode, b) + (if consumed then 0 else Due(f)) == Due(b)
  {
    hide ModeOf, HandlerOf, KindOf;
  }

  // ----- between cycles -----

  // An operation that its operand joins starts within a cycle, and one on the accumulator
  // ends in the same.
  predicate Resting(m: CpuState) {
    Reachable(m) && (m.opState.IsOp() ==>
      !ModeOf(m.opcode).ACC? && (m.opState.OP0? ==> !Joins(ModeOf(m.opcode), m.opcode)))
  }

  // Within a cycle.
  predicate Underway(m: CpuState) {
    Reachable(m) && (m.opState.IsOp() && ModeOf(m.opcode).ACC? ==>
      m.opState.OP0? || (KindOf(HandlerOf(m.opcode)).Stepping? && m.opState.OP1?))
  }

  // The cycles without a bus access: the correction of a decimal addition or subtraction,
  // and the last cycle of a NOP that has an operand.
  predicate Thinks(m: CpuState) {
    var h, mode := HandlerOf(m.opcode), ModeOf(m.opcode);
    (KindOf(h).Arith? && m.opState.OP1?) || (h.Nop? && (m.opState.OP0? || (m.opState.PARAM0? && mode.IMM?)))
  }

  // What the decoding tables have to do with it.
  lemma StackOps(op: Byte)
    ensures KindOf(HandlerOf(op)).Pushing? ==> ModeOf(op).IMP? && KnownPush(op)
    ensures KindOf(HandlerOf(op)).Pulling? ==> ModeOf(op).IMP? && KnownPull(op)
    ensures KindOf(HandlerOf(op)).Returning? || KindOf(HandlerOf(op)).Resuming? || KindOf(HandlerOf(op)).Breaking? ==>
      ModeOf(op).IMP?
  {
    if op < 0x40 {
    } else if op < 0x80 {
    }
  }

  lemma JumpOps(op: Byte)
    ensures HandlerOf(op).Jmp? <==> ModeOf(op).IND? || ModeOf(op).ABIN? || op == 0x4C
    ensures HandlerOf(op).Jmp? ==> !ModeOf(op).IMM?
    ensures op == 0x4C ==> ModeOf(op).ABSO?
  {
    if op < 0x80 {
    }
  }

  // Operations with an operand look at it, but for NOP.
  lemma LookingOps(op: Byte)
    ensures UsesAddress(HandlerOf(op)) || HandlerOf(op).Nop? || HandlerOf(op).Jsr? || ModeOf(op).IMP?
         || ModeOf(op).REL? || ModeOf(op).ZPREL?
  {
    if op < 0x40 {
    } else if op < 0x80 {
    } else if op < 0xC0 {
    }
  }

  lemma ImmediateOps(op: Byte)
    requires ModeOf(op).IMM?
    ensures HandlerOf(op).Nop? || KindOf(HandlerOf(op)).Single? || KindOf(HandlerOf(op)).Arith?
  {
  }

  lemma NopUsesNothing(h: Handler)
    ensures h.Nop? ==> KindOf(h).Single? && !UsesAddress(h)
    ensures h.Jmp? ==> KindOf(h).Single?
    ensures h.Jsr? <==> KindOf(h).Calling?
    ensures KindOf(h).Branching? <==> h.Bxx? || h.Bra? || h.Bbr? || h.Bbs?
    ensures UsesAddress(h) ==> !h.Jsr? && !KindOf(h).Branching?
  {
  }

  lemma TableFacts(op: Byte)
    ensures var h, mode := HandlerOf(op), ModeOf(op); var k := KindOf(h);
      && (k.Pushing? || k.Pulling? || k.Returning? || k.Resuming? || k.Breaking? ==> mode.IMP?)
      && (k.Pushing? ==> KnownPush(op)) && (k.Pulling? ==> KnownPull(op))
      && (h.Jmp? <==> mode.IND? || mode.ABIN? || op == 0x4C) && (op == 0x4C ==> mode.ABSO?)
      && (h.Jsr? <==> op == 0x20) && (k.Calling? <==> h.Jsr?)
      && (mode.REL? || mode.ZPREL? <==> k.Branching?)
      && (mode.IMP? ==> !UsesAddress(h) && !k.Calling?) && (mode.ACC? ==> k.Shifting? || k.Stepping?)
      && (mode.IMM? ==> h.Nop? || k.Single? || k.Arith?)
      && (UsesAddress(h) || h.Nop? || k.Calling? || mode.IMP? || k.Branching?)
      && (h.Nop? ==> k.Single? && !UsesAddress(h))
  {
    StackOps(op);
    JumpOps(op);
    CallOp(op);
    LookingOps(op);
    RelativeOps(op);
    BitBranchOps(op);
    NopUsesNothing(HandlerOf(op));
    if ModeOf(op).IMP? {
      ImpliedOps(op);
    } else if ModeOf(op).ACC? {
      AccumulatorOps(op);
    } else if ModeOf(op).IMM? {
      ImmediateOps(op);
    }
    hide ModeOf, HandlerOf, KindOf, UsesAddress, KnownPush, KnownPull;
  }

  lemma CallAbsolute(op: Byte)
    requires op == 0x20
    ensures ModeOf(op).ABSO?
  {
  }

  lemma OperationOnce(m: CpuState)
    requires Resting(m) && m.opState.IsOp()
    ensures OperationDue(m) == if Thinks(m) then 0 else 1
  {
    TableFacts(m.opcode);
    if m.opcode == 0x20 {
      CallAbsolute(m.opcode);
    }
    hide ModeOf, HandlerOf, KindOf, KnownPush, KnownPull;
  }

  // What an operation still does in the cycle its operand has begun.
  lemma StartOnce(m: CpuState)
    requires m.opState.OP0? && Joins(ModeOf(m.opcode), m.opcode)
    ensures var mode := ModeOf(m.opcode);
      OperationDue(m) == if (mode.IMM? && !HandlerOf(m.opcode).Nop?) || m.opcode == 0x20 then 1 else 0
  {
    TableFacts(m.opcode);
    if m.opcode == 0x20 {
      CallAbsolute(m.opcode);
    }
    hide ModeOf, HandlerOf, KindOf, KnownPush, KnownPull;
  }

  // Exactly one access in each cycle but those.
  lemma OneAccess(m: CpuState)
    requires Resting(m)
    ensures Due(m) == if Thinks(m) then 0 else 1
  {
    if m.opState.IsOp() {
      OperationOnce(m);
    } else if m.opState.IsParam() && HandsOver(ModeOf(m.opcode), m) {
      StartOnce(m.(opState := OP0));
    }
    TableFacts(m.opcode);
    hide ModeOf, HandlerOf, KindOf, OperationDue, UsesAddress;
  }

  lemma OperandRests(b: CpuState, f: CpuState, mem: Memory, consumed: bool)
    requires ParamReachable(ModeOf(b.opcode), b.opcode, b.opState) && Reachable(f)
    requires OperandStep(ModeOf(b.opcode), b, f, mem, consumed)
    ensures if consumed then Resting(f) else Underway(f)
  {
    hide ModeOf, HandlerOf, KindOf, OperandLeft, OperandTicksLeft, Delivered;
  }

  lemma OperationRests(b: CpuState, was: Memory, f: CpuState, mem: Memory, consumed: bool)
    requires b.opState.IsOp() && Underway(b) && Reachable(f)
    requires var h, mode := HandlerOf(b.opcode), ModeOf(b.opcode);
      && OperationStep(KindOf(h), h, mode, b, was, f, mem, consumed)
      && (consumed <==> !PassesOn(KindOf(h), mode, b))
    ensures if consumed then Resting(f) else Underway(f)
  {
    if ModeOf(b.opcode).ACC? {
      AccumulatorOps(b.opcode);
    }
    hide ModeOf, HandlerOf, KindOf, OperateLeft, EnterLeft, OpReachable;
  }
}

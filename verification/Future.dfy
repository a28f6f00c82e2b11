// What is still to come of a half-done instruction.  Future maps each micro-state of
// the core to the architectural state the current instruction will end in, and Left
// to the number of clock cycles until then.
module FutureState {
  import opened CpuTypes
  import opened Words
  import opened Isa

  // ----- which micro-states can occur -----

  predicate ParamReachable(mode: AddrMode, opcode: Byte, st: OpState) {
    st.IsParam() &&
    match mode
    case IMP => st.PARAM0?
    case ACC => st.PARAM0?
    case IMM => st.PARAM0?
    case REL => st.PARAM0?
    case ZP => st.PARAM0?
    case ZPX => st.PARAM0? || st.PARAM1?
    case ZPY => st.PARAM0? || st.PARAM1?
    case ABSO => st.PARAM0? || (st.PARAM1? && opcode != 0x20)
    case ABSX => !st.PARAM3? && !st.PARAM4?
    case ABSY => !st.PARAM3? && !st.PARAM4?
    case INDZ => !st.PARAM3? && !st.PARAM4?
    case INDX => !st.PARAM4?
    case INDY => !st.PARAM4?
    case ZPREL => !st.PARAM4?
    case IND => true
    case ABIN => true
  }

  predicate OpReachable(k: Kind, st: OpState) {
    st.OP0? ||
    match k
    case Single => false
    case Breaking => false
    case Arith => st.OP1?
    case Saving => st.OP1?
    case Pushing => st.OP1?
    case Masking => st.OP1? || st.OP2?
    case Branching => st.OP1? || st.OP2?
    case Pulling => st.OP1? || st.OP2?
    case Shifting => st.OP1? || st.OP2?
    case Stepping => st.OP1? || st.OP2? || st.OP3?
    case Calling => st.OP1? || st.OP2? || st.OP3? || st.OP4?
    case Returning => st.OP1? || st.OP2? || st.OP3? || st.OP4?
    case Resuming => st.OP1? || st.OP2? || st.OP3? || st.OP4?
  }

  predicate Reachable(m: CpuState) {
    if m.opState.OPCODE? then true
    else if m.opState.IsParam() then ParamReachable(ModeOf(m.opcode), m.opcode, m.opState)
    else if m.opState.IsOp() then OpReachable(KindOf(HandlerOf(m.opcode)), m.opState)
    else m.opState.VEC6? ==> m.tmpval == VectorOf(m.vecSrc)
  }

  // ----- operand phase -----

  // m.ea, m.tmpval and m.value hold what has been read so far.
  function OperandLeft(mode: AddrMode, m: CpuState, mem: Memory): Operand
    requires ParamReachable(mode, m.opcode, m.opState)
  {
    var p := m.regs.pc;
    var next := Read(mem, p);
    if m.opState.PARAM0? then OperandOf(mode, m.opcode, m.regs, mem)
    else
      match mode
      case ZPX => Plain(ZpAdd(m.ea, m.regs.x), Inc16(p))
      case ZPY => Plain(ZpAdd(m.ea, m.regs.y), Inc16(p))
      case ABSO => Plain(OrHigh(m.ea, next), Inc16(p))
      case ABSX => if m.opState.PARAM1? then Indexed(OrHigh(m.ea, next), m.regs.x, Inc16(p)) else Plain(m.ea, Inc16(p))
      case ABSY => if m.opState.PARAM1? then Indexed(OrHigh(m.ea, next), m.regs.y, Inc16(p)) else Plain(m.ea, Inc16(p))
      case IND =>
        if m.opState.PARAM1? then Plain(Word(mem, OrHigh(m.tmpval, next)), p)
        else if m.opState.PARAM4? then Plain(OrHigh(m.ea, Read(mem, Inc16(m.tmpval))), p)
        else Plain(Word(mem, m.tmpval), p)
      case ABIN =>
        if m.opState.PARAM1? then Plain(Word(mem, Add16(OrHigh(m.tmpval, next), m.regs.x)), p)
        else if m.opState.PARAM2? then Plain(Word(mem, Add16(m.tmpval, m.regs.x)), p)
        else if m.opState.PARAM3? then Plain(Word(mem, m.tmpval), p)
        else Plain(OrHigh(m.ea, Read(mem, Inc16(m.tmpval))), p)
      case INDX =>
        if m.opState.PARAM1? then Plain(ZpWord(mem, ZpAdd(m.tmpval, m.regs.x)), Inc16(p))
        else if m.opState.PARAM2? then Plain(ZpWord(mem, m.tmpval), p)
        else Plain(OrHigh(m.ea, Read(mem, m.tmpval)), p)
      case INDY =>
        if m.opState.PARAM1? then Indexed(ZpWord(mem, m.tmpval), m.regs.y, p)
        else if m.opState.PARAM2? then Indexed(OrHigh(m.ea, Read(mem, m.tmpval)), m.regs.y, p)
        else Plain(m.ea, p)
      case INDZ =>
        if m.opState.PARAM1? then Plain(ZpWord(mem, m.tmpval), p)
        else Plain(OrHigh(m.ea, Read(mem, m.tmpval)), p)
      case ZPREL =>
        Operand(m.ea, Read(mem, p), if m.opState.PARAM1? then Read(mem, m.ea) else m.value, Inc16(p), false)
  }

  function OperandTicksLeft(mode: AddrMode, m: CpuState, crossed: bool): nat
    requires ParamReachable(mode, m.opcode, m.opState)
  {
    var extra := if crossed then 1 else 0;
    match m.opState
    case PARAM0 => OperandTicks(mode, m.opcode, crossed)
    case PARAM1 =>
      (match mode
       case IND => 3
       case ABIN => 3
       case INDX => 3
       case INDY => 2 + extra
       case INDZ => 2
       case ZPREL => 2
       case ABSX => 1 + extra
       case ABSY => 1 + extra
       case ABSO => if m.opcode == 0x4C then 0 else 1
       case _ => 1)
    case PARAM2 =>
      (match mode
       case IND => 2
       case ABIN => 2
       case INDX => 2
       case INDY => 1 + extra
       case _ => 1)
    case PARAM3 => if mode.ZPREL? then 0 else 1
    case PARAM4 => 0
  }

  // The operand phase leaves behind what the operations of that mode look at.
  predicate Delivered(mode: AddrMode, m: CpuState, o: Operand) {
    match mode
    case IMP => true
    case ACC => true
    case REL => m.reladdr == o.rel
    case ZPREL => m.reladdr == o.rel && m.value == o.val
    case ABSO => m.opcode == 0x20 || m.ea == o.ea
    case _ => m.ea == o.ea
  }

  // The modes whose last step hands over to the operation within the same cycle.
  predicate Joins(mode: AddrMode, opcode: Byte) {
    mode.IMP? || mode.ACC? || mode.IMM? || mode.REL? || mode.IND? || mode.ABIN? || mode.ZPREL?
    || (mode.ABSO? && (opcode == 0x20 || opcode == 0x4C))
  }

  // One handler dispatch of the operand phase, from b to f: some of the operand has been
  // fetched, and the rest will complete it to the same one.
  predicate OperandStep(mode: AddrMode, b: CpuState, f: CpuState, mem: Memory, consumed: bool)
    requires ParamReachable(mode, b.opcode, b.opState)
  {
    var o := OperandLeft(mode, b, mem);
    var ticks := OperandTicksLeft(mode, b, o.crossed);
    && f.opcode == b.opcode && f.regs == b.regs.(pc := f.regs.pc)
    && if f.opState.IsParam() then
         && consumed && ParamReachable(mode, f.opcode, f.opState)
         && var o' := OperandLeft(mode, f, mem);
            && o'.(crossed := o.crossed) == o
            && (f.pageBoundary || o'.crossed) == (b.pageBoundary || o.crossed)
            && OperandTicksLeft(mode, f, o'.crossed) + 1 == ticks
       else
         && f.opState.OP0? && ticks == (if consumed then 1 else 0) && (consumed <==> !Joins(mode, b.opcode))
         && f.regs.pc == o.pc && Delivered(mode, f, o) && f.pageBoundary == (b.pageBoundary || o.crossed)
  }

  // ----- operation phase -----

  function OpIndex(st: OpState): nat
    ensures OpIndex(st) <= 4
  {
    match st case OP1 => 1 case OP2 => 2 case OP3 => 3 case OP4 => 4 case _ => 0
  }

  function SingleLeft(h: Handler, mode: AddrMode, m: CpuState, mem: Memory): Regs {
    SingleResult(h, m.regs, ValueAt(mode, m.regs, mem, m.ea), m.ea)
  }

  function ArithLeft(h: Handler, mode: AddrMode, m: CpuState, mem: Memory): Regs {
    if m.opState.OP0? then Arithmetic(h, m.regs, ValueAt(mode, m.regs, mem, m.ea))
    else if h.Adc? then FinishAdd(m.regs, m.result)
    else FinishSub(m.regs)
  }

  function ArithTicks(m: CpuState): nat {
    if m.opState.OP0? && m.regs.status.d then 2 else 1
  }

  function SaveLeft(h: Handler, mode: AddrMode, m: CpuState, mem: Memory): Machine {
    Store(mode, m.regs, mem, m.ea, Saved(h, m.regs))
  }

  function SaveTicks(h: Handler, mode: AddrMode, m: CpuState): nat {
    if m.opState.OP0? then 1 + SavePenalty(h, mode, m.pageBoundary) else 1
  }

  // Until the modified value is latched the whole modification is still to come, then
  // only its store.
  function ModifyLeft(h: Handler, mode: AddrMode, m: CpuState, mem: Memory, latched: bool): Machine {
    if latched then Store(mode, m.regs, mem, m.ea, Low(m.result)) else Modify(h, mode, m.regs, mem, m.ea)
  }

  function ShiftLeft(h: Handler, mode: AddrMode, m: CpuState, mem: Memory): Machine {
    ModifyLeft(h, mode, m, mem, !m.opState.OP0?)
  }

  function ShiftTicks(mode: AddrMode, m: CpuState): nat {
    if m.opState.OP0? then (if mode.ACC? then 1 else 3) else if m.opState.OP1? then 2 else 1
  }

  function StepLeft(h: Handler, mode: AddrMode, m: CpuState, mem: Memory): Machine {
    ModifyLeft(h, mode, m, mem, !m.opState.OP0? && !m.opState.OP1?)
  }

  function StepTicks(mode: AddrMode, m: CpuState): nat {
    if m.opState.OP0? then (if mode.ACC? then 1 else 3 + StepPenalty(mode, m.pageBoundary))
    else if m.opState.OP1? then (if mode.ACC? then 1 else 3)
    else if m.opState.OP2? then 2
    else 1
  }

  function MaskTicks(m: CpuState): nat {
    if m.opState.OP0? then 3 else if m.opState.OP1? then 2 else 1
  }

  function BranchLeft(h: Handler, m: CpuState): Regs {
    if m.opState.OP0? then BranchTo(h, m.opcode, m.regs, m.value, m.reladdr)
    else m.regs.(pc := Add16(m.regs.pc, m.reladdr))
  }

  function BranchTicksLeft(h: Handler, m: CpuState): nat {
    if m.opState.OP0? then
      if Taken(h, m.opcode, m.regs.status, m.value) then 1 + BranchTicks(m.regs, m.reladdr) else 1
    else if m.opState.OP1? then BranchTicks(m.regs, m.reladdr)
    else 1
  }

  function JoinHigh(partial: Addr, mem: Memory, addr: Addr): Addr { OrHigh(partial, Read(mem, addr)) }

  function CallLeft(m: CpuState, mem: Memory): Machine {
    if m.opState.OP0? then Call(m.regs, mem)
    else
      var m1 := if m.opState.OP3? || m.opState.OP4? then mem else PushTo(mem, m.regs.sp, High(m.regs.pc));
      var sp1 := if m.opState.OP3? || m.opState.OP4? then m.regs.sp else Dec8(m.regs.sp);
      var m2 := if m.opState.OP4? then m1 else PushTo(m1, sp1, Low(m.regs.pc));
      var sp2 := if m.opState.OP4? then sp1 else Dec8(sp1);
      Machine(m.regs.(pc := JoinHigh(m.ea, m2, m.regs.pc), sp := sp2), m2)
  }

  function ReturnSubLeft(m: CpuState, mem: Memory): Regs {
    if m.opState.OP3? then
      m.regs.(pc := Inc16(JoinHigh(m.tmpval, mem, StackAddr(Inc8(m.regs.sp)))), sp := Inc8(m.regs.sp))
    else if m.opState.OP4? then m.regs.(pc := Inc16(m.regs.pc))
    else ReturnSub(m.regs, mem)
  }

  function ReturnIntLeft(m: CpuState, mem: Memory): Regs {
    if m.opState.OP3? then
      var lo := Read(mem, StackAddr(Inc8(m.regs.sp)));
      m.regs.(pc := JoinHigh(lo, mem, StackAddr(Inc8(Inc8(m.regs.sp)))), sp := Inc8(Inc8(m.regs.sp)))
    else if m.opState.OP4? then
      m.regs.(pc := JoinHigh(m.tmpval, mem, StackAddr(Inc8(m.regs.sp))), sp := Inc8(m.regs.sp))
    else ReturnInt(m.regs, mem)
  }

  function OperateLeft(k: Kind, h: Handler, mode: AddrMode, m: CpuState, mem: Memory): Machine {
    match k
    case Single => Machine(SingleLeft(h, mode, m, mem), mem)
    case Arith => Machine(ArithLeft(h, mode, m, mem), mem)
    case Saving => SaveLeft(h, mode, m, mem)
    case Shifting => ShiftLeft(h, mode, m, mem)
    case Stepping => StepLeft(h, mode, m, mem)
    case Masking => ShiftLeft(h, mode, m, mem)
    case Branching => Machine(BranchLeft(h, m), mem)
    case Pushing => PushOp(m.opcode, m.regs, mem)
    case Pulling => Machine(PullOp(m.opcode, m.regs, mem), mem)
    case Calling => CallLeft(m, mem)
    case Returning => Machine(ReturnSubLeft(m, mem), mem)
    case Resuming => Machine(ReturnIntLeft(m, mem), mem)
    case Breaking => Enter(BRK_VEC, m.regs, mem)
  }

  function OperateTicksLeft(k: Kind, h: Handler, mode: AddrMode, m: CpuState): int {
    match k
    case Single => 1
    case Arith => ArithTicks(m)
    case Saving => SaveTicks(h, mode, m)
    case Shifting => ShiftTicks(mode, m)
    case Stepping => StepTicks(mode, m)
    case Masking => MaskTicks(m)
    case Branching => BranchTicksLeft(h, m)
    case Pushing => 2 - OpIndex(m.opState)
    case Pulling => 3 - OpIndex(m.opState)
    case Calling => 5 - OpIndex(m.opState)
    case Returning => 5 - OpIndex(m.opState)
    case Resuming => 5 - OpIndex(m.opState)
    case Breaking => 6
  }

  // ----- vector phase -----

  function EnterLeft(m: CpuState, mem: Memory): Machine
    requires m.opState.IsVec()
  {
    match m.opState
    case VEC3 =>
      var m2 := PushTo(mem, m.regs.sp, Low(m.regs.pc));
      var m3 := PushTo(m2, Dec8(m.regs.sp), SavedStatus(m.vecSrc, m.regs.status));
      Machine(m.regs.(pc := Word(m3, VectorOf(m.vecSrc)), sp := Dec8(Dec8(m.regs.sp)),
                      status := MaskedStatus(m.vecSrc, m.regs.status)), m3)
    case VEC4 =>
      var m3 := PushTo(mem, m.regs.sp, SavedStatus(m.vecSrc, m.regs.status));
      Machine(m.regs.(pc := Word(m3, VectorOf(m.vecSrc)), sp := Dec8(m.regs.sp),
                      status := MaskedStatus(m.vecSrc, m.regs.status)), m3)
    case VEC5 => Machine(m.regs.(pc := Word(mem, VectorOf(m.vecSrc))), mem)
    case VEC6 => Machine(m.regs.(pc := JoinHigh(m.ea, mem, Inc16(m.tmpval))), mem)
    case _ => Enter(m.vecSrc, m.regs, mem)
  }

  function EnterTicksLeft(st: OpState): nat
    requires st.IsVec()
  {
    match st
    case VEC0 => 7 case VEC1 => 6 case VEC2 => 5 case VEC3 => 4 case VEC4 => 3 case VEC5 => 2 case VEC6 => 1
  }

  // One handler dispatch of the operation phase, from b to f: the operation is done, or some
  // of it is and the rest will complete it to the same machine.  What was to come is was, in
  // so many ticks, and what still is to come is left, in rest of them.
  predicate Advances(b: CpuState, f: CpuState, mem: Memory, consumed: bool, was: Machine, ticks: int, left: Machine,
                     rest: int)
  {
    && f.opcode == b.opcode && f.pageBoundary == b.pageBoundary
    && if f.opState.OPCODE? then consumed && ticks == 1 && Machine(f.regs, mem) == was
       else
         && f.opState.IsOp() && (consumed || (b.opState.OP0? && f.opState.OP1?))
         && left == was && rest + (if consumed then 1 else 0) == ticks
  }

  // BRK turns into an entry instead.
  predicate OperationStep(k: Kind, h: Handler, mode: AddrMode, b: CpuState, was: Memory, f: CpuState, mem: Memory,
                          consumed: bool)
  {
    var whole := OperateLeft(k, h, mode, b, was);
    var ticks := OperateTicksLeft(k, h, mode, b);
    if k.Breaking? then
      && f.opcode == b.opcode && f.pageBoundary == b.pageBoundary
      && consumed && f.opState.VEC2? && ticks == 6 && EnterLeft(f, mem) == whole
    else
      && (f.opState.OPCODE? || OpReachable(k, f.opState)) && !f.opState.OP0?
      && Advances(b, f, mem, consumed, whole, ticks, OperateLeft(k, h, mode, f, mem), OperateTicksLeft(k, h, mode, f))
  }

  // ----- the whole -----

  function Future(m: CpuState, mem: Memory): Outcome
    requires Reachable(m)
  {
    var mode, h := ModeOf(m.opcode), HandlerOf(m.opcode);
    if m.opState.OPCODE? then Outcome(m.regs, mem, m.pageBoundary)
    else if m.opState.IsParam() then
      var o := OperandLeft(mode, m, mem);
      var done := Operate(KindOf(h), h, mode, m.opcode, m.regs.(pc := o.pc), o, mem);
      Outcome(done.r, done.mem, m.pageBoundary || o.crossed)
    else
      var done := if m.opState.IsOp() then OperateLeft(KindOf(h), h, mode, m, mem) else EnterLeft(m, mem);
      Outcome(done.r, done.mem, m.pageBoundary)
  }

  function Left(m: CpuState, mem: Memory): int
    requires Reachable(m)
  {
    var mode, h := ModeOf(m.opcode), HandlerOf(m.opcode);
    if m.opState.OPCODE? then 0
    else if m.opState.IsParam() then
      var o := OperandLeft(mode, m, mem);
      OperandTicksLeft(mode, m, o.crossed)
        + OperateTicks(KindOf(h), h, mode, m.opcode, m.regs.(pc := o.pc), o, m.pageBoundary || o.crossed)
    else if m.opState.IsOp() then OperateTicksLeft(KindOf(h), h, mode, m)
    else EnterTicksLeft(m.opState)
  }
}

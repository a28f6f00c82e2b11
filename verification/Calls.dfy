// Subroutine calls and interrupts, nested to any depth the 256-byte stack has room for.
module CallNesting {
  import opened Words
  import opened CpuTypes
  import opened Isa
  import opened Optional

  predicate StackIsRam(mem: Memory) { forall b: Byte :: StackAddr(b) in mem }

  // The k-th byte above a stack pointer, which wraps within the stack page.
  function Wrap(sp: Byte, k: nat): Byte
    requires k <= 256
  {
    if sp + k < 256 then sp + k else sp + k - 256
  }

  function SlotOf(mem: Memory, sp: Byte, k: nat): Byte
    requires k <= 256
  {
    Read(mem, StackAddr(Wrap(sp, k)))
  }

  function Slot(s: Outcome, k: nat): Byte
    requires k <= 256
  {
    SlotOf(s.mem, s.r.sp, k)
  }

  // From s to t the stack pointer is back where it was and the live bytes above it are
  // still what they were.
  predicate Balanced(s: Outcome, t: Outcome, live: nat)
    requires live <= 256
  {
    t.r.sp == s.r.sp && forall k :: 1 <= k <= live ==> Slot(t, k) == Slot(s, k)
  }

  function OpcodeAt(s: Outcome): Byte { Read(s.mem, s.r.pc) }

  // ----- memory -----

  // A push moves every other slot one further up.
  lemma PushSlots(mem: Memory, sp: Byte, v: Byte)
    requires StackIsRam(mem)
    ensures SlotOf(PushTo(mem, sp, v), Dec8(sp), 1) == v
    ensures forall k :: 2 <= k <= 256 ==> SlotOf(PushTo(mem, sp, v), Dec8(sp), k) == SlotOf(mem, sp, k - 1)
    ensures PushTo(mem, sp, v).Keys == mem.Keys
  {
    assert StackAddr(sp) in mem;
  }

  lemma OperateKeepsMap(k: Kind, h: Handler, mode: AddrMode, op: Byte, r: Regs, o: Operand, mem: Memory)
    ensures Operate(k, h, mode, op, r, o, mem).mem.Keys == mem.Keys
  {
    hide SingleResult, Arithmetic, RmwFlags, RmwValue, Taken, Pulled, Pushed, ReturnSub, ReturnInt, Saved, ToByte, Low;
    hide High, OrHigh, Inc16, Dec8, Inc8, ValueAt, Word, KnownPush, KnownPull;
  }

  // No instruction changes which addresses are RAM.
  lemma ExecKeepsMap(s: Outcome)
    ensures Exec(s).mem.Keys == s.mem.Keys
  {
    hide Operate, Fetch, ModeOf, HandlerOf, KindOf;
    var f := Fetch(s);
    OperateKeepsMap(KindOf(HandlerOf(f.opcode)), HandlerOf(f.opcode), ModeOf(f.opcode), f.opcode, f.r, f.o, s.mem);
  }

  // ----- the stack instructions -----

  lemma ExecJsr(s: Outcome)
    requires OpcodeAt(s) == 0x20
    ensures Exec(s) == var m := Call(s.r.(pc := Inc16(s.r.pc)), s.mem); Outcome(m.r, m.mem, s.page)
  {
    hide Call, Read, Inc16;
  }

  lemma ExecRts(s: Outcome)
    requires OpcodeAt(s) == 0x60
    ensures Exec(s) == Outcome(ReturnSub(s.r.(pc := Inc16(s.r.pc)), s.mem), s.mem, s.page)
  {
    hide ReturnSub, Read, Inc16;
  }

  lemma ExecRti(s: Outcome)
    requires OpcodeAt(s) == 0x40
    ensures Exec(s) == Outcome(ReturnInt(s.r.(pc := Inc16(s.r.pc)), s.mem), s.mem, s.page)
  {
    hide ReturnInt, Read, Inc16;
  }

  // What JSR leaves on the stack: the address of its own last byte, low byte on top.
  lemma JsrPushes(s: Outcome)
    requires OpcodeAt(s) == 0x20 && StackIsRam(s.mem)
    ensures var t := Exec(s);
      && t.r.sp == Dec8(Dec8(s.r.sp)) && t.mem.Keys == s.mem.Keys
      && Slot(t, 1) == Low(Inc16(Inc16(s.r.pc))) && Slot(t, 2) == High(Inc16(Inc16(s.r.pc)))
      && forall k :: 3 <= k <= 256 ==> Slot(t, k) == Slot(s, k - 2)
  {
    hide Exec, Read, PushTo, Inc16, High, Low, SlotOf, Dec8, OpcodeAt;
    ExecJsr(s);
    var ret := Inc16(Inc16(s.r.pc));
    PushSlots(s.mem, s.r.sp, High(ret));
    PushSlots(PushTo(s.mem, s.r.sp, High(ret)), Dec8(s.r.sp), Low(ret));
  }

  // What an interrupt entry leaves there: the status on top of the return address.
  lemma EntryPushes(src: VecSrc, s: Outcome)
    requires StackIsRam(s.mem)
    ensures var t := Interrupt(src, s);
      && t.r.sp == Dec8(Dec8(Dec8(s.r.sp))) && t.mem.Keys == s.mem.Keys
      && Slot(t, 1) == SavedStatus(src, s.r.status) && Slot(t, 2) == Low(s.r.pc) && Slot(t, 3) == High(s.r.pc)
      && forall k :: 4 <= k <= 256 ==> Slot(t, k) == Slot(s, k - 3)
  {
    hide Read, PushTo, High, Low, SlotOf, Dec8, SavedStatus, Word;
    var m1 := PushTo(s.mem, s.r.sp, High(s.r.pc));
    PushSlots(s.mem, s.r.sp, High(s.r.pc));
    PushSlots(m1, Dec8(s.r.sp), Low(s.r.pc));
    PushSlots(PushTo(m1, Dec8(s.r.sp), Low(s.r.pc)), Dec8(Dec8(s.r.sp)), SavedStatus(src, s.r.status));
  }

  // ----- matching returns -----

  // The pulls of a return, seen as slots.
  lemma PullSlots(s: Outcome)
    ensures Read(s.mem, StackAddr(Inc8(s.r.sp))) == Slot(s, 1)
    ensures Read(s.mem, StackAddr(Inc8(Inc8(s.r.sp)))) == Slot(s, 2)
    ensures Read(s.mem, StackAddr(Inc8(Inc8(Inc8(s.r.sp))))) == Slot(s, 3)
  {
  }

  lemma PopUndoesPush(b: Byte)
    ensures Inc8(Dec8(b)) == b
  {
  }

  // After n pushes from s to t, and balanced work to u, the slots from n + 1 on are still
  // those of s.
  lemma SlotsBack(s: Outcome, t: Outcome, u: Outcome, live: nat, n: nat)
    requires live + n <= 256 && Balanced(t, u, live + n)
    requires Wrap(t.r.sp, n) == s.r.sp
    requires forall k :: n < k <= 256 ==> Slot(t, k) == Slot(s, k - n)
    ensures forall k :: 1 <= k <= live ==> SlotOf(u.mem, s.r.sp, k) == Slot(s, k)
  {
    hide Read;
    forall k | 1 <= k <= live
      ensures SlotOf(u.mem, s.r.sp, k) == Slot(s, k)
    {
      assert Slot(u, k + n) == Slot(t, k + n) == Slot(s, k);
      assert Wrap(t.r.sp, k + n) == Wrap(s.r.sp, k);
    }
  }

  lemma Unwound(sp: Byte)
    ensures Wrap(Dec8(sp), 1) == sp && Wrap(Dec8(Dec8(sp)), 2) == sp && Wrap(Dec8(Dec8(Dec8(sp))), 3) == sp
  {
  }

  // RTS takes back an address left in the two top slots.
  lemma RtsRestores(u: Outcome, sp: Byte, ret: Addr)
    requires OpcodeAt(u) == 0x60 && u.r.sp == Dec8(Dec8(sp)) && Slot(u, 1) == Low(ret) && Slot(u, 2) == High(ret)
    ensures Exec(u).r.pc == Inc16(ret) && Exec(u).r.sp == sp && Exec(u).mem == u.mem
  {
    hide Exec, Read, Inc16, Inc8, Dec8, High, Low, Join, Slot, OpcodeAt;
    ExecRts(u);
    PullSlots(u);
    PopUndoesPush(sp);
    PopUndoesPush(Dec8(sp));
    JoinHalves(ret);
  }

  // JSR at s, then anything that leaves the stack as it found it, then RTS: execution
  // resumes after the three bytes of the JSR.
  lemma CallReturns(s: Outcome, u: Outcome, live: nat)
    requires OpcodeAt(s) == 0x20 && OpcodeAt(u) == 0x60 && StackIsRam(s.mem) && live + 2 <= 256
    requires Balanced(Exec(s), u, live + 2)
    ensures Exec(u).r.pc == Inc16(Inc16(Inc16(s.r.pc))) && Exec(u).mem == u.mem
    ensures Balanced(s, Exec(u), live)
  {
    hide Exec, Read, Inc16, Dec8, High, Low, SlotOf, OpcodeAt, Wrap;
    JsrPushes(s);
    var t := Exec(s);
    assert Slot(u, 1) == Slot(t, 1) && Slot(u, 2) == Slot(t, 2);
    RtsRestores(u, s.r.sp, Inc16(Inc16(s.r.pc)));
    Unwound(s.r.sp);
    SlotsBack(s, t, u, live, 2);
  }

  // RTI takes back a status and an address left in the three top slots.
  lemma RtiRestores(u: Outcome, sp: Byte, f: Flags, ret: Addr)
    requires OpcodeAt(u) == 0x40 && u.r.sp == Dec8(Dec8(Dec8(sp)))
    requires Slot(u, 1) == ToByte(f) && Slot(u, 2) == Low(ret) && Slot(u, 3) == High(ret)
    ensures Exec(u).r.pc == ret && Exec(u).r.status == f && Exec(u).r.sp == sp && Exec(u).mem == u.mem
  {
    hide Exec, Read, Inc8, Dec8, High, Low, Join, Slot, OpcodeAt, FromByte, ToByte;
    ExecRti(u);
    PullSlots(u);
    PopUndoesPush(sp);
    PopUndoesPush(Dec8(sp));
    PopUndoesPush(Dec8(Dec8(sp)));
    JoinHalves(ret);
    StatusRoundTrip(f);
  }

  // An interrupt entry at s, then anything that leaves the stack as it found it, then
  // RTI: the program counter and the status are exactly what they were.
  lemma InterruptReturns(src: VecSrc, s: Outcome, u: Outcome, live: nat)
    requires !src.BRK_VEC? && OpcodeAt(u) == 0x40 && StackIsRam(s.mem) && live + 3 <= 256
    requires Balanced(Interrupt(src, s), u, live + 3)
    ensures Exec(u).r.pc == s.r.pc && Exec(u).r.status == s.r.status && Exec(u).mem == u.mem
    ensures Balanced(s, Exec(u), live)
  {
    hide Exec, Interrupt, Read, Dec8, High, Low, SlotOf, OpcodeAt, Wrap, ToByte;
    EntryPushes(src, s);
    var t := Interrupt(src, s);
    assert Slot(u, 1) == Slot(t, 1) && Slot(u, 2) == Slot(t, 2) && Slot(u, 3) == Slot(t, 3);
    RtiRestores(u, s.r.sp, s.r.status, s.r.pc);
    Unwound(s.r.sp);
    SlotsBack(s, t, u, live, 3);
  }

  lemma ExecBrk(s: Outcome)
    requires OpcodeAt(s) == 0x00
    ensures Exec(s) == Interrupt(BRK_VEC, Outcome(s.r.(pc := Inc16(s.r.pc)), s.mem, s.page))
  {
    hide Enter, Read, Inc16;
  }

  // BRK leaves a return address one past itself, not two: RTI resumes at the byte after
  // the opcode, with the break flag set.
  lemma BrkReturns(s: Outcome, u: Outcome, live: nat)
    requires OpcodeAt(s) == 0x00 && OpcodeAt(u) == 0x40 && StackIsRam(s.mem) && live + 3 <= 256
    requires Balanced(Exec(s), u, live + 3)
    ensures Exec(u).r.pc == Inc16(s.r.pc) && Exec(u).r.status == s.r.status.(b := true) && Exec(u).mem == u.mem
    ensures Balanced(s, Exec(u), live)
  {
    hide Exec, Interrupt, Read, Dec8, High, Low, SlotOf, OpcodeAt, Wrap, ToByte, Inc16;
    ExecBrk(s);
    var b := Outcome(s.r.(pc := Inc16(s.r.pc)), s.mem, s.page);
    EntryPushes(BRK_VEC, b);
    var t := Exec(s);
    assert Slot(u, 1) == Slot(t, 1) && Slot(u, 2) == Slot(t, 2) && Slot(u, 3) == Slot(t, 3);
    RtiRestores(u, s.r.sp, s.r.status.(b := true), Inc16(s.r.pc));
    Unwound(s.r.sp);
    SlotsBack(b, t, u, live, 3);
  }

  // ----- saved registers -----

  lemma ExecPush(s: Outcome)
    requires KnownPush(OpcodeAt(s))
    ensures Exec(s) == var m := PushOp(OpcodeAt(s), s.r.(pc := Inc16(s.r.pc)), s.mem); Outcome(m.r, m.mem, s.page)
  {
    hide PushOp, Read, Inc16;
  }

  lemma ExecPull(u: Outcome)
    requires KnownPull(OpcodeAt(u))
    ensures Exec(u) == Outcome(PullOp(OpcodeAt(u), u.r.(pc := Inc16(u.r.pc)), u.mem), u.mem, u.page)
  {
    hide PullOp, Read, Inc16;
  }

  // Taking a byte into a register leaves the stack pointer alone.
  lemma PulledKeeps(opcode: Byte, r: Regs, v: Byte)
    requires KnownPull(opcode)
    ensures Pulled(opcode, r, v).sp == r.sp
  {
  }

  // A register push at s, then anything that leaves the stack as it found it, then a
  // pull: the pull takes back what was pushed.
  lemma PullReturns(s: Outcome, u: Outcome, live: nat)
    requires KnownPush(OpcodeAt(s)) && KnownPull(OpcodeAt(u)) && StackIsRam(s.mem) && live + 1 <= 256
    requires Balanced(Exec(s), u, live + 1)
    ensures TakesBack(s, u) && Exec(u).mem == u.mem && Balanced(s, Exec(u), live)
  {
    hide Exec, Read, Inc16, Inc8, Dec8, SlotOf, OpcodeAt, Wrap, Pulled, Pushed, KnownPush, KnownPull;
    var saved := Pushed(OpcodeAt(s), s.r.(pc := Inc16(s.r.pc)));
    ExecPush(s);
    ExecPull(u);
    PushSlots(s.mem, s.r.sp, saved);
    PullSlots(u);
    PopUndoesPush(s.r.sp);
    assert Slot(u, 1) == Slot(Exec(s), 1) == saved;
    PulledKeeps(OpcodeAt(u), u.r.(pc := Inc16(u.r.pc), sp := s.r.sp), saved);
    Unwound(s.r.sp);
    SlotsBack(s, Exec(s), u, live, 1);
    SamePushed(OpcodeAt(s), s.r, Inc16(s.r.pc));
  }

  lemma SamePushed(opcode: Byte, r: Regs, pc: Addr)
    requires KnownPush(opcode)
    ensures Pushed(opcode, r.(pc := pc)) == Pushed(opcode, r)
  {
    hide ToByte;
  }

  // The pull at u takes the byte the push at s saved.
  predicate TakesBack(s: Outcome, u: Outcome)
    requires KnownPush(OpcodeAt(s)) && KnownPull(OpcodeAt(u))
  {
    Exec(u).r == Pulled(OpcodeAt(u), u.r.(pc := Inc16(u.r.pc), sp := s.r.sp), Pushed(OpcodeAt(s), s.r))
  }

  // PLA after PHA, PLX after PHX, PLY after PHY restore the register, and PLP after PHP
  // the status, but for the two bits that exist on the stack only.
  lemma RegisterRestored(s: Outcome, u: Outcome)
    requires KnownPush(OpcodeAt(s)) && KnownPull(OpcodeAt(u)) && TakesBack(s, u)
    ensures OpcodeAt(s) == 0x48 && OpcodeAt(u) == 0x68 ==> Exec(u).r.a == s.r.a
    ensures OpcodeAt(s) == 0xDA && OpcodeAt(u) == 0xFA ==> Exec(u).r.x == s.r.x
    ensures OpcodeAt(s) == 0x5A && OpcodeAt(u) == 0x7A ==> Exec(u).r.y == s.r.y
    ensures OpcodeAt(s) == 0x08 && OpcodeAt(u) == 0x28 ==> Exec(u).r.status == s.r.status.(b := true, u := true)
  {
    hide Exec, OpcodeAt, Inc16, ToByte, FromByte;
    StatusRoundTrip(s.r.status.(b := true));
  }

  // ----- nesting -----

  // The shape of a run: ordinary instructions, and register pushes, calls and interrupts,
  // each with the run of its body nested inside.
  datatype Plan =
    | Done
    | Step(rest: Plan)
    | Hold(body: Plan, rest: Plan)
    | Sub(body: Plan, rest: Plan)
    | Serve(src: VecSrc, body: Plan, rest: Plan)

  // Where the run ends that starts in s with the given number of live stack bytes; None
  // if it is not of that shape, overwrites a live byte or needs more than the 256 bytes.
  ghost function Follow(s: Outcome, p: Plan, live: nat): Option<Outcome>
    requires live <= 256
    decreases p
  {
    match p
    case Done => Some(s)
    case Step(rest) => if Balanced(s, Exec(s), live) then Follow(Exec(s), rest, live) else None
    case Hold(body, rest) =>
      if !KnownPush(OpcodeAt(s)) || live + 1 > 256 then None
      else
        var u := Follow(Exec(s), body, live + 1);
        if u.Some? && KnownPull(OpcodeAt(u.value)) then Follow(Exec(u.value), rest, live) else None
    case Sub(body, rest) =>
      if OpcodeAt(s) != 0x20 || live + 2 > 256 then None
      else
        var u := Follow(Exec(s), body, live + 2);
        if u.Some? && OpcodeAt(u.value) == 0x60 then Follow(Exec(u.value), rest, live) else None
    case Serve(src, body, rest) =>
      if src.BRK_VEC? || live + 3 > 256 then None
      else
        var u := Follow(Interrupt(src, s), body, live + 3);
        if u.Some? && OpcodeAt(u.value) == 0x40 then Follow(Exec(u.value), rest, live) else None
  }

  // At every level, each return goes back to where its call or interrupt came from, and
  // each pull takes back what its push saved.
  ghost predicate AllReturn(s: Outcome, p: Plan, live: nat)
    requires live <= 256
    decreases p
  {
    Follow(s, p, live).Some? &&
    match p
    case Done => true
    case Step(rest) => AllReturn(Exec(s), rest, live)
    case Hold(body, rest) =>
      var u := Follow(Exec(s), body, live + 1).value;
      && TakesBack(s, u) && Exec(u).r.sp == s.r.sp
      && AllReturn(Exec(s), body, live + 1) && AllReturn(Exec(u), rest, live)
    case Sub(body, rest) =>
      var u := Follow(Exec(s), body, live + 2).value;
      && Exec(u).r.pc == Inc16(Inc16(Inc16(s.r.pc))) && Exec(u).r.sp == s.r.sp
      && AllReturn(Exec(s), body, live + 2) && AllReturn(Exec(u), rest, live)
    case Serve(src, body, rest) =>
      var u := Follow(Interrupt(src, s), body, live + 3).value;
      && Exec(u).r.pc == s.r.pc && Exec(u).r.status == s.r.status && Exec(u).r.sp == s.r.sp
      && AllReturn(Interrupt(src, s), body, live + 3) && AllReturn(Exec(u), rest, live)
  }

  // Every run of that shape, from any state, to any depth.
  lemma {:induction false} NestedRunsReturn(s: Outcome, p: Plan, live: nat)
    requires live <= 256 && StackIsRam(s.mem)
    ensures var v := Follow(s, p, live);
      v.Some? ==> AllReturn(s, p, live) && Balanced(s, v.value, live) && v.value.mem.Keys == s.mem.Keys
    decreases p
  {
    hide Exec, Interrupt, Slot, OpcodeAt, Inc16;
    if Follow(s, p, live).Some? {
      match p
      case Done =>
      case Step(rest) =>
        ExecKeepsMap(s);
        NestedRunsReturn(Exec(s), rest, live);
      case Hold(body, rest) =>
        var u := Follow(Exec(s), body, live + 1).value;
        ExecKeepsMap(s);
        NestedRunsReturn(Exec(s), body, live + 1);
        PullReturns(s, u, live);
        NestedRunsReturn(Exec(u), rest, live);
      case Sub(body, rest) =>
        var u := Follow(Exec(s), body, live + 2).value;
        ExecKeepsMap(s);
        NestedRunsReturn(Exec(s), body, live + 2);
        CallReturns(s, u, live);
        NestedRunsReturn(Exec(u), rest, live);
      case Serve(src, body, rest) =>
        var t := Interrupt(src, s);
        var u := Follow(t, body, live + 3).value;
        EntryPushes(src, s);
        NestedRunsReturn(t, body, live + 3);
        InterruptReturns(src, s, u, live);
        NestedRunsReturn(Exec(u), rest, live);
    }
  }
}

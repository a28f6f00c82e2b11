// Whole runs of the core: progress, RDY stalls and the service of interrupts.
module CoreRuns {
  import opened Words
  import opened CpuTypes
  import opened Isa
  import opened IsaKeeping
  import opened Lifting
  import opened InstructionMachine

  // ----- timing bounds -----

  lemma ModifyModes(op: Byte)
    requires KindOf(HandlerOf(op)).Shifting? || KindOf(HandlerOf(op)).Stepping? || KindOf(HandlerOf(op)).Masking?
    ensures ModeOf(op).ACC? || ModeOf(op).ZP? || ModeOf(op).ZPX? || ModeOf(op).ABSO? || ModeOf(op).ABSX?
  {
  }

  lemma StackModes(op: Byte)
    requires KindOf(HandlerOf(op)).Pulling? || KindOf(HandlerOf(op)).Returning?
          || KindOf(HandlerOf(op)).Resuming? || KindOf(HandlerOf(op)).Breaking?
    ensures ModeOf(op).IMP?
  {
  }

  lemma CallMode(op: Byte)
    requires KindOf(HandlerOf(op)).Calling?
    ensures op == 0x20 && ModeOf(op).ABSO?
  {
    CallOp(op);
  }

  // Every instruction, documented or not, takes two to seven cycles.
  lemma CycleBounds(s: Outcome)
    ensures 2 <= Cycles(s) <= 7
  {
    var op := Fetch(s).opcode;
    var k := KindOf(HandlerOf(op));
    if k.Shifting? || k.Stepping? || k.Masking? {
      ModifyModes(op);
    } else if k.Pulling? || k.Returning? || k.Resuming? || k.Breaking? {
      StackModes(op);
    } else if k.Calling? {
      CallMode(op);
    } else if k.Branching? {
      RelativeOps(op);
      BitBranchOps(op);
      BranchHandlers(HandlerOf(op));
    }
    hide ModeOf, HandlerOf, KindOf, Fetch, Taken, SamePage;
  }

  lemma BranchHandlers(h: Handler)
    requires KindOf(h).Branching?
    ensures h.Bxx? || h.Bra? || h.Bbr? || h.Bbs?
  {
  }

  // ----- runs -----

  // What the devices do to the core in one clock cycle: raise an NMI edge, hold RDY,
  // hold IRQ.
  datatype Input = Input(edge: bool, held: bool, irq: bool)

  function Sense(c: Core, edge: bool): Core { c.(nmi := c.nmi || edge) }

  function TickOn(c: Core, i: Input): Core { NextTick(Sense(c, i.edge), i.held, i.irq) }

  function Run(c: Core, ins: seq<Input>): Core
    decreases ins
  {
    if ins == [] then c else Run(TickOn(c, ins[0]), ins[1..])
  }

  ghost predicate Idle(c: Core) { 0 <= c.busy <= 7 }

  lemma TickKeepsIdle(c: Core, i: Input)
    requires Idle(c)
    ensures Idle(TickOn(c, i))
  {
    hide Cycles, Exec, Interrupt;
    CycleBounds(c.s);
  }

  // ----- RDY stalls -----

  // The inputs of the cycles that are not stalled; an edge that arrives during a stall
  // is seen in the next of them, or is still to be seen at the end.
  function Unstalled(ins: seq<Input>, carry: bool): (seq<Input>, bool) {
    if ins == [] then ([], carry)
    else
      var edge := carry || ins[0].edge;
      if ins[0].held then Unstalled(ins[1..], edge)
      else
        var (rest, out) := Unstalled(ins[1..], false);
        ([ins[0].(edge := edge)] + rest, out)
  }

  // Stalls are pure stuttering.
  lemma {:induction false} StallsVanish(c: Core, ins: seq<Input>, carry: bool)
    ensures var (kept, out) := Unstalled(ins, carry);
      Run(Sense(c, carry), ins) == Sense(Run(c, kept), out)
    decreases ins
  {
    hide Cycles, Exec, Interrupt;
    if ins != [] {
      var edge := carry || ins[0].edge;
      if ins[0].held {
        StallsVanish(c, ins[1..], edge);
      } else {
        var first := ins[0].(edge := edge);
        StallsVanish(TickOn(c, first), ins[1..], false);
        assert ([first] + Unstalled(ins[1..], false).0)[1..] == Unstalled(ins[1..], false).0;
      }
    }
  }

  // ----- the work done in a run -----

  predicate Begins(c: Core, i: Input) { !i.held && c.busy <= 0 }

  function Works(c: Core, ins: seq<Input>): seq<Work>
    decreases ins
  {
    if ins == [] then []
    else
      var rest := Works(TickOn(c, ins[0]), ins[1..]);
      if Begins(c, ins[0]) then [Choose(Sense(c, ins[0].edge), ins[0].irq)] + rest else rest
  }

  function Total(c: Core, ins: seq<Input>): nat
    decreases ins
  {
    if ins == [] then 0
    else
      var rest := Total(TickOn(c, ins[0]), ins[1..]);
      if Begins(c, ins[0]) then Duration(Choose(Sense(c, ins[0].edge), ins[0].irq), c.s) + rest else rest
  }

  function Unheld(ins: seq<Input>): nat {
    if ins == [] then 0 else (if ins[0].held then 0 else 1) + Unheld(ins[1..])
  }

  // Every unstalled cycle is accounted for by some work.
  lemma {:induction false} TimeIsConserved(c: Core, ins: seq<Input>)
    requires Idle(c)
    ensures Idle(Run(c, ins)) && Unheld(ins) + Run(c, ins).busy == c.busy + Total(c, ins)
    decreases ins
  {
    hide Cycles, Exec, Interrupt;
    if ins != [] {
      TickKeepsIdle(c, ins[0]);
      TimeIsConserved(TickOn(c, ins[0]), ins[1..]);
    }
  }

  // The core never gets stuck: in any run at least one piece of work begins in every
  // seven unstalled cycles, after those it takes to finish what it was doing.
  lemma {:induction false} Progress(c: Core, ins: seq<Input>)
    requires Idle(c)
    ensures Unheld(ins) <= c.busy + 7 * |Works(c, ins)|
    decreases ins
  {
    hide Cycles, Exec, Interrupt;
    if ins != [] {
      TickKeepsIdle(c, ins[0]);
      CycleBounds(c.s);
      Progress(TickOn(c, ins[0]), ins[1..]);
    }
  }

  // ----- NMI -----

  function Count(w: Work, log: seq<Work>): nat {
    if log == [] then 0 else (if log[0] == w then 1 else 0) + Count(w, log[1..])
  }

  // The edges that arrive while none is waiting; the others coalesce with it.
  function Edges(c: Core, ins: seq<Input>): nat
    decreases ins
  {
    if ins == [] then 0
    else (if ins[0].edge && !c.nmi then 1 else 0) + Edges(TickOn(c, ins[0]), ins[1..])
  }

  // Each of them is served exactly once, or is still waiting at the end.
  lemma {:induction false} NmiServedOnce(c: Core, ins: seq<Input>)
    ensures Count(ServeNmi, Works(c, ins)) + (if Run(c, ins).nmi then 1 else 0)
         == Edges(c, ins) + (if c.nmi then 1 else 0)
    decreases ins
  {
    hide Cycles, Exec, Interrupt;
    if ins != [] {
      NmiServedOnce(TickOn(c, ins[0]), ins[1..]);
      var rest := Works(TickOn(c, ins[0]), ins[1..]);
      assert forall w: Work :: ([w] + rest)[1..] == rest;
    }
  }

  // A waiting edge is served next, before any IRQ or instruction, as soon as the work in
  // progress is done.
  lemma {:induction false} NmiLatency(c: Core, ins: seq<Input>)
    requires Idle(c) && c.nmi && Unheld(ins) == c.busy + 1
    ensures Works(c, ins) == [ServeNmi] && Run(c, ins).s == Interrupt(NMI_VEC, c.s)
    decreases ins
  {
    hide Cycles, Exec, Interrupt;
    if ins[0].held || c.busy > 0 {
      NmiLatency(TickOn(c, ins[0]), ins[1..]);
    } else {
      NothingLeft(TickOn(c, ins[0]), ins[1..]);
    }
  }

  lemma {:induction false} NothingLeft(c: Core, ins: seq<Input>)
    requires Unheld(ins) == 0
    ensures Works(c, ins) == [] && Run(c, ins).s == c.s
    decreases ins
  {
    hide Cycles, Exec, Interrupt;
    if ins != [] {
      NothingLeft(TickOn(c, ins[0]), ins[1..]);
    }
  }

  // ----- IRQ -----

  // CLI, PLP and RTI.
  predicate Unmasks(op: Byte) { op == 0x58 || op == 0x28 || op == 0x40 }

  // None of the instructions executed in the run is one of the three.
  predicate KeepsMask(c: Core, ins: seq<Input>)
    decreases ins
  {
    ins == [] || (
      && (Begins(c, ins[0]) && Choose(Sense(c, ins[0].edge), ins[0].irq).Execute? ==> !Unmasks(Read(c.s.mem, c.s.r.pc)))
      && KeepsMask(TickOn(c, ins[0]), ins[1..]))
  }

  // One cycle with the mask set serves no IRQ, and leaves the mask set unless one of the
  // three is executed.
  lemma MaskedCycle(c: Core, i: Input)
    requires c.s.r.status.i
    requires Begins(c, i) && Choose(Sense(c, i.edge), i.irq).Execute? ==> !Unmasks(Read(c.s.mem, c.s.r.pc))
    ensures TickOn(c, i).s.r.status.i
    ensures Begins(c, i) ==> Choose(Sense(c, i.edge), i.irq) != ServeIrq
  {
    hide Cycles, Exec, Read, Enter;
    EntryMasks(NMI_VEC, c.s.r, c.s.mem);
    if Begins(c, i) && Choose(Sense(c, i.edge), i.irq).Execute? {
      MaskKept(c.s);
    }
  }

  // Once the interrupt mask is set (as every interrupt entry does), no IRQ is served
  // until one of the three instructions that can clear it has been executed.
  lemma {:induction false} MaskedIrq(c: Core, ins: seq<Input>)
    requires c.s.r.status.i && KeepsMask(c, ins)
    ensures Count(ServeIrq, Works(c, ins)) == 0
    decreases ins
  {
    if ins != [] {
      hide TickOn, Unmasks, Read;
      MaskedCycle(c, ins[0]);
      MaskedIrq(TickOn(c, ins[0]), ins[1..]);
      var rest := Works(TickOn(c, ins[0]), ins[1..]);
      assert forall w: Work :: ([w] + rest)[1..] == rest;
    }
  }

  lemma MaskHandlers(op: Byte)
    ensures HandlerOf(op).Cli? <==> op == 0x58
    ensures HandlerOf(op).Rti? <==> op == 0x40
  {
  }

  lemma ResumingHandler(h: Handler)
    ensures KindOf(h).Resuming? <==> h.Rti?
  {
  }

  lemma MaskKept(s: Outcome)
    requires s.r.status.i && !Unmasks(Read(s.mem, s.r.pc))
    ensures Exec(s).r.status.i
  {
    hide Operate, OperandOf, ModeOf, HandlerOf, KindOf, Read;
    var f := Fetch(s);
    MaskHandlers(f.opcode);
    ResumingHandler(HandlerOf(f.opcode));
    OperateKeeps(KindOf(HandlerOf(f.opcode)), HandlerOf(f.opcode), ModeOf(f.opcode), f.opcode, f.r, f.o, s.mem);
  }
}

// A board: VIAs and ACIAs on one bus, all of them registered for interrupts.
module BoardModel {
  import opened BusModel
  import opened Words
  import V = ViaModel
  import A = AciaModel

  // What can happen to one of the devices.
  datatype Op =
    | ViaTick(via: nat, posedge: bool)
    | ViaC1(via: nat, porta: bool, val: bool)
    | ViaWrite(via: nat, reg: V.Reg, data: Byte)
    | ViaRead(via: nat, reg: V.Reg)
    | AciaTick(acia: nat, available: bool, incoming: Byte)
    | AciaWrite(acia: nat, port: A.Reg, word: Byte)
    | AciaRead(acia: nat, port: A.Reg)

  ghost predicate IsVoter(vias: seq<V.Via>, acias: seq<A.Acia>, v: nat)
    reads vias, acias
  {
    (exists i :: 0 <= i < |vias| && vias[i].voter == v) || (exists i :: 0 <= i < |acias| && acias[i].voter == v)
  }

  // What an event does to its device.
  predicate IsViaOp(op: Op) { !op.AciaTick? && !op.AciaWrite? && !op.AciaRead? }

  function ViaAfter(s: V.State, op: Op): V.State
    requires IsViaOp(op)
  {
    match op
    case ViaTick(_, posedge) => V.AfterEdge(s, posedge)
    case ViaC1(_, porta, val) => V.AfterC1(s, porta, val)
    case ViaWrite(_, reg, data) => V.AfterWrite(s, reg, data)
    case ViaRead(_, reg) => V.AfterRead(s, reg)
  }

  function AciaAfter(s: A.State, op: Op): A.State
    requires !IsViaOp(op)
  {
    match op
    case AciaTick(_, available, incoming) => A.AfterTick(s, available, incoming)
    case AciaWrite(_, port, word) => A.AfterWrite(s, port, word)
    case AciaRead(_, port) => A.AfterRead(s, port)
  }

  // All devices of a board; an event for a device there is not changes nothing.
  datatype Devices = Devices(vias: seq<V.State>, acias: seq<A.State>)

  function After(d: Devices, op: Op): Devices {
    if IsViaOp(op) then
      if op.via < |d.vias| then d.(vias := d.vias[op.via := ViaAfter(d.vias[op.via], op)]) else d
    else
      if op.acia < |d.acias| then d.(acias := d.acias[op.acia := AciaAfter(d.acias[op.acia], op)]) else d
  }

  function AfterAll(d: Devices, ops: seq<Op>): Devices
    decreases |ops|
  {
    if ops == [] then d else AfterAll(After(d, ops[0]), ops[1..])
  }

  // Some device of these asks for an interrupt.
  predicate Asks(d: Devices) {
    || (exists i :: 0 <= i < |d.vias| && d.vias[i].ifr.bits != {})
    || (exists i :: 0 <= i < |d.acias| && d.acias[i].status.irq)
  }

  // Every device has a voter of its own, its vote says what its flags say, and there are no
  // other votes.
  ghost predicate AllWired(bus: Bus, vias: seq<V.Via>, acias: seq<A.Acia>)
    reads bus, vias, acias
  {
    && (forall i :: 0 <= i < |vias| ==> vias[i].bus == bus && vias[i].voter != MAX_SIG_VOTERS && vias[i].Votes())
    && (forall i :: 0 <= i < |acias| ==> acias[i].bus == bus && acias[i].voter != MAX_SIG_VOTERS && acias[i].Votes())
    && OwnVoters(vias, acias) && NoOtherVotes(bus, vias, acias) && bus.irq <= bus.voters
  }

  ghost predicate OwnVoters(vias: seq<V.Via>, acias: seq<A.Acia>)
    reads vias, acias
  {
    && (forall i, j :: 0 <= i < j < |vias| ==> vias[i].voter != vias[j].voter)
    && (forall i, j :: 0 <= i < j < |acias| ==> acias[i].voter != acias[j].voter)
    && (forall i, j :: 0 <= i < |vias| && 0 <= j < |acias| ==> vias[i].voter != acias[j].voter)
  }

  ghost predicate NoOtherVotes(bus: Bus, vias: seq<V.Via>, acias: seq<A.Acia>)
    reads bus`irq, vias, acias
  {
    forall v :: v in bus.irq ==> IsVoter(vias, acias, v)
  }

  // More devices, more voters.
  lemma StillVoter(vias: seq<V.Via>, acias: seq<A.Acia>, via: seq<V.Via>, acia: seq<A.Acia>, v: nat)
    requires IsVoter(vias, acias, v)
    ensures IsVoter(vias + via, acias + acia, v)
  {
    if i :| 0 <= i < |vias| && vias[i].voter == v {
      assert (vias + via)[i].voter == v;
    } else {
      var i :| 0 <= i < |acias| && acias[i].voter == v;
      assert (acias + acia)[i].voter == v;
    }
  }

  // A device that nobody shares its voter with joins the others.
  lemma ViaJoins(bus: Bus, vias: seq<V.Via>, acias: seq<A.Acia>, via: V.Via)
    requires AllWired(bus, vias, acias) && !IsVoter(vias, acias, via.voter)
    requires via.bus == bus && via.voter != MAX_SIG_VOTERS && via.Votes()
    ensures AllWired(bus, vias + [via], acias)
  {
    forall v | v in bus.irq
      ensures IsVoter(vias + [via], acias, v)
    {
      StillVoter(vias, acias, [via], [], v);
      assert acias + [] == acias;
    }
  }

  lemma AciaJoins(bus: Bus, vias: seq<V.Via>, acias: seq<A.Acia>, acia: A.Acia)
    requires AllWired(bus, vias, acias) && !IsVoter(vias, acias, acia.voter)
    requires acia.bus == bus && acia.voter != MAX_SIG_VOTERS && acia.Votes()
    ensures AllWired(bus, vias, acias + [acia])
  {
    forall v | v in bus.irq
      ensures IsVoter(vias, acias + [acia], v)
    {
      StillVoter(vias, acias, [], [acia], v);
      assert vias + [] == vias;
    }
  }

  class Board {
    const bus: Bus
    var vias: seq<V.Via>
    var acias: seq<A.Acia>

    constructor (bus: Bus)
      requires bus.irq == {}
      ensures Wired() && this.bus == bus && vias == [] && acias == []
    {
      this.bus, vias, acias := bus, [], [];
    }

    ghost predicate Wired()
      reads this, bus, vias, acias
    {
      AllWired(bus, vias, acias)
    }

    ghost function ViaStates(): (s: seq<V.State>)
      reads this, vias
      ensures |s| == |vias| && forall i :: 0 <= i < |s| ==> s[i] == vias[i].Now()
    {
      seq(|vias|, i requires 0 <= i < |vias| reads this, vias => vias[i].Now())
    }

    ghost function AciaStates(): (s: seq<A.State>)
      reads this, acias
      ensures |s| == |acias| && forall i :: 0 <= i < |s| ==> s[i] == acias[i].Now()
    {
      seq(|acias|, i requires 0 <= i < |acias| reads this, acias => acias[i].Now())
    }

    ghost function Now(): Devices
      reads this, vias, acias
    {
      Devices(ViaStates(), AciaStates())
    }

    // Some device asks for an interrupt.
    ghost predicate Asserted()
      reads this, vias, acias
    {
      Asks(Now())
    }

    // The interrupt line is low just when some device asks for an interrupt.
    lemma LineIsWiredOr()
      requires Wired()
      ensures bus.irq != {} <==> Asserted()
    {
      if v :| v in bus.irq {
        if i :| 0 <= i < |vias| && vias[i].voter == v {
          assert vias[i].ifr.any;
        } else {
          var i :| 0 <= i < |acias| && acias[i].voter == v;
          assert acias[i].status.irq;
        }
      }
      if Asserted() {
        if i :| 0 <= i < |vias| && vias[i].ifr.bits != {} {
          assert vias[i].voter in bus.irq;
        } else {
          var i :| 0 <= i < |acias| && acias[i].status.irq;
          assert acias[i].voter in bus.irq;
        }
      }
    }

    // The devices vote for interrupts and for nothing else.
    twostate predicate OnlyIrq()
      reads bus
    {
      bus.nmi == old(bus.nmi) && bus.rdy == old(bus.rdy) && bus.nmiPending == old(bus.nmiPending)
    }

    method ViaStep(i: nat, op: Op)
      requires Wired() && i < |vias| && IsViaOp(op)
      modifies vias[i], bus`irq, bus`nmi, bus`rdy, bus`be, bus`nmiPending
      ensures Wired() && OnlyIrq()
      ensures ViaStates() == old(ViaStates())[i := ViaAfter(old(ViaStates())[i], op)]
      ensures AciaStates() == old(AciaStates())
    {
      ActVia(vias[i], op);
    }

    method AciaStep(i: nat, op: Op)
      requires Wired() && i < |acias| && !IsViaOp(op)
      modifies acias[i], bus`irq, bus`nmi, bus`rdy, bus`be, bus`nmiPending
      ensures Wired() && OnlyIrq() && ViaStates() == old(ViaStates())
      ensures AciaStates() == old(AciaStates())[i := AciaAfter(old(AciaStates())[i], op)]
    {
      ActAcia(acias[i], op);
    }

    method Step(op: Op)
      requires Wired()
      modifies vias, acias, bus`irq, bus`nmi, bus`rdy, bus`be, bus`nmiPending
      ensures Wired() && OnlyIrq() && Now() == After(old(Now()), op)
    {
      if !IsViaOp(op) {
        if op.acia < |acias| {
          AciaStep(op.acia, op);
        }
      } else if op.via < |vias| {
        ViaStep(op.via, op);
      }
    }

    // Through any run of clock edges, pin changes and register accesses the devices become
    // what these make of each, and the interrupt line is low just when one of them asks for
    // an interrupt.
    method Run(ops: seq<Op>)
      requires Wired()
      modifies vias, acias, bus`irq, bus`nmi, bus`rdy, bus`be, bus`nmiPending
      ensures Wired() && OnlyIrq() && Now() == AfterAll(old(Now()), ops)
      ensures bus.irq != {} <==> Asks(AfterAll(old(Now()), ops))
    {
      hide Wired, After, Asks;
      for i := 0 to |ops|
        invariant Wired() && OnlyIrq()
        invariant AfterAll(Now(), ops[i..]) == AfterAll(old(Now()), ops)
      {
        assert ops[i..][0] == ops[i] && ops[i..][1..] == ops[i + 1..];
        Step(ops[i]);
      }
      LineIsWiredOr();
    }

    // Adds an idle VIA, if there is a voter left for it.
    method AddVia() returns (ok: bool)
      requires Wired()
      modifies `vias, bus`voters
      ensures Wired() && acias == old(acias)
      ensures ok ==> |vias| == |old(vias)| + 1 && vias[..|old(vias)|] == old(vias) && fresh(vias[|old(vias)|])
      ensures !ok ==> vias == old(vias)
    {
      hide OwnVoters, NoOtherVotes;
      var via := new V.Via(bus);
      ok := via.RegisterIrq();
      if ok {
        ViaJoins(bus, vias, acias, via);
        vias := vias + [via];
      }
    }

    method AddAcia() returns (ok: bool)
      requires Wired()
      modifies `acias, bus`voters
      ensures Wired() && vias == old(vias)
      ensures ok ==> |acias| == |old(acias)| + 1 && acias[..|old(acias)|] == old(acias) && fresh(acias[|old(acias)|])
      ensures !ok ==> acias == old(acias)
    {
      hide OwnVoters, NoOtherVotes;
      var acia := new A.Acia(bus);
      ok := acia.RegisterIrq();
      if ok {
        AciaJoins(bus, vias, acias, acia);
        acias := acias + [acia];
      }
    }
  }

  method ActVia(via: V.Via, op: Op)
    requires via.Votes() && IsViaOp(op)
    modifies via, via.bus`irq, via.bus`nmi, via.bus`rdy, via.bus`be, via.bus`nmiPending
    ensures via.Votes() && via.voter == old(via.voter) && via.OnlyOwnVote()
    ensures via.Now() == ViaAfter(old(via.Now()), op)
  {
    match op {
      case ViaTick(_, posedge) => via.ClockTick(posedge);
      case ViaC1(_, porta, val) => via.WriteC1(porta, val);
      case ViaWrite(_, reg, data) => via.Write(reg, data);
      case ViaRead(_, reg) =>
        var _ := via.Read(reg);
    }
  }

  method ActAcia(acia: A.Acia, op: Op)
    requires acia.Votes() && acia.voter != MAX_SIG_VOTERS && !IsViaOp(op)
    modifies acia, acia.bus`irq, acia.bus`nmi, acia.bus`rdy, acia.bus`be, acia.bus`nmiPending
    ensures acia.Votes() && acia.voter == old(acia.voter) && acia.OnlyOwnVote()
    ensures acia.Now() == AciaAfter(old(acia.Now()), op)
  {
    match op {
      case AciaTick(_, available, incoming) =>
        var sent, outgoing := acia.Tick(available, incoming);
      case AciaWrite(_, port, word) => acia.Write(port, word);
      case AciaRead(_, port) =>
        var _ := acia.Read(port);
    }
  }
}

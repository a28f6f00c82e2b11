// The core under devices that vote on its lines: what holds of the runs of the instruction
// machine holds of the cycle-stepped core.
module CoreDriving {
  import opened BusAccess
  import opened BusModel
  import opened CoreRuns
  import opened CpuCore
  import opened CpuTypes
  import opened FutureState
  import opened InstructionMachine
  import opened Isa
  import opened Lifting
  import Decoding
  import OpcodeMap

  // No micro-state is more than seven cycles from the next instruction.
  lemma SevenTicksAtMost(m: CpuState, mem: Memory)
    requires Reachable(m)
    ensures 0 <= Left(m, mem) <= 7
  {
    AtBoundary(m, mem);
    var k := KindOf(HandlerOf(m.opcode));
    if k.Shifting? || k.Stepping? || k.Masking? {
      ModifyModes(m.opcode);
    } else if k.Pulling? || k.Returning? || k.Resuming? || k.Breaking? {
      StackModes(m.opcode);
    } else if k.Calling? {
      CallMode(m.opcode);
    } else if k.Branching? {
      RelativeOps(m.opcode);
      BitBranchOps(m.opcode);
      BranchHandlers(HandlerOf(m.opcode));
    }
    hide ModeOf, HandlerOf, KindOf, Taken, OperandLeft;
  }

  // ----- votes -----

  datatype Vote = Vote(voter: nat, signal: Signal, voted: bool)

  // The votes on the three lines the core looks at, and who may vote.
  datatype Lines = Lines(voters: set<nat>, irq: set<nat>, nmi: set<nat>, rdy: set<nat>)

  function LinesOf(bus: Bus): Lines
    reads bus
  {
    Lines(bus.voters, bus.irq, bus.nmi, bus.rdy)
  }

  function Cast(l: Lines, v: Vote): Lines {
    if v.voter !in l.voters then l
    else
      match v.signal
      case SIG_IRQ => l.(irq := Voted(l.irq, v.voter, v.voted))
      case SIG_NMI => l.(nmi := Voted(l.nmi, v.voter, v.voted))
      case SIG_RDY => l.(rdy := Voted(l.rdy, v.voter, v.voted))
      case SIG_BE => l
  }

  function CastAll(l: Lines, votes: seq<Vote>): Lines
    decreases |votes|
  {
    if votes == [] then l else CastAll(Cast(l, votes[0]), votes[1..])
  }

  // Whether some vote takes the NMI votes from none to some.
  predicate Edge(l: Lines, votes: seq<Vote>)
    decreases |votes|
  {
    votes != [] && ((l.nmi == {} && Cast(l, votes[0]).nmi != {}) || Edge(Cast(l, votes[0]), votes[1..]))
  }

  // What the core senses of the votes of a cycle.
  function Sensed(l: Lines, votes: seq<Vote>): Input {
    var m := CastAll(l, votes);
    Input(Edge(l, votes), m.rdy != {}, m.irq != {})
  }

  // And of those of a run.
  function Inputs(l: Lines, cycles: seq<seq<Vote>>): (ins: seq<Input>)
    ensures |ins| == |cycles|
    decreases |cycles|
  {
    if cycles == [] then [] else [Sensed(l, cycles[0])] + Inputs(CastAll(l, cycles[0]), cycles[1..])
  }

  predicate Castable(votes: seq<Vote>) {
    forall k :: 0 <= k < |votes| ==> votes[k].voter != MAX_SIG_VOTERS
  }

  method CastVotes(bus: Bus, votes: seq<Vote>)
    requires Castable(votes)
    modifies bus`irq, bus`nmi, bus`rdy, bus`be, bus`nmiPending
    ensures LinesOf(bus) == CastAll(old(LinesOf(bus)), votes)
    ensures bus.nmiPending <==> old(bus.nmiPending) || Edge(old(LinesOf(bus)), votes)
  {
    for k := 0 to |votes|
      invariant CastAll(LinesOf(bus), votes[k..]) == CastAll(old(LinesOf(bus)), votes)
      invariant old(bus.nmiPending) || Edge(old(LinesOf(bus)), votes) <==>
        bus.nmiPending || Edge(LinesOf(bus), votes[k..])
    {
      assert votes[k..][0] == votes[k] && votes[k..][1..] == votes[k + 1..];
      bus.SigVote(votes[k].voter, votes[k].signal, votes[k].voted);
    }
  }

  // ----- cycles -----

  // The votes of any devices, then a tick.
  method Cycle(emu: Emulator, votes: seq<Vote>)
    requires emu.bus.Valid() && Resting(emu.cpu) && Castable(votes)
    modifies emu, emu.bus
    ensures emu.bus.Valid() && Resting(emu.cpu) && LinesOf(emu.bus) == CastAll(old(LinesOf(emu.bus)), votes)
    ensures var i := Sensed(old(LinesOf(emu.bus)), votes);
      && emu.CoreState() == TickOn(old(emu.CoreState()), i)
      && (i.held ==> emu.cpu == old(emu.cpu) && emu.bus.mem == old(emu.bus.mem))
      && emu.bus.accesses == old(emu.bus.accesses) + Touched(i, old(emu.cpu))
  {
    hide Future, Left, Reachable, NextTick, Thinks, CastAll, Edge;
    CastVotes(emu.bus, votes);
    var _ := emu.Tick();
  }

  // The bus accesses of a cycle.
  function Touched(i: Input, m: CpuState): nat {
    if !i.held && Thinks(m) then 0 else 1
  }

  // What a run went through, before the first cycle and after each.
  type Trace = seq<(CpuState, Memory)>

  // The bus accesses of the first n cycles.
  function TouchedIn(ins: seq<Input>, trace: Trace, n: nat): nat
    requires n <= |ins| && n <= |trace|
  {
    if n == 0 then 0 else TouchedIn(ins, trace, n - 1) + Touched(ins[n - 1], trace[n - 1].0)
  }

  lemma {:induction false} TouchedAlready(ins: seq<Input>, trace: Trace, more: Trace, n: nat)
    requires n <= |ins| && n <= |trace|
    ensures TouchedIn(ins, trace + more, n) == TouchedIn(ins, trace, n)
  {
    if n > 0 {
      TouchedAlready(ins, trace, more, n - 1);
    }
  }

  // While RDY is held neither the core nor the memory changes.
  predicate HoldsStill(ins: seq<Input>, trace: Trace, n: nat)
    requires n <= |ins| && n < |trace|
  {
    forall k :: 0 <= k < n && ins[k].held ==> trace[k + 1] == trace[k]
  }

  // Every run of the core, whatever the devices vote, is a run of the instruction machine;
  // and it ends as it would without the stalls, through which the core and the memory stay
  // as they are.
  method Drive(emu: Emulator, cycles: seq<seq<Vote>>) returns (ghost trace: Trace)
    requires emu.bus.Valid() && Resting(emu.cpu) && forall k :: 0 <= k < |cycles| ==> Castable(cycles[k])
    modifies emu, emu.bus
    ensures emu.bus.Valid() && Resting(emu.cpu)
    ensures |trace| == |cycles| + 1
    ensures trace[0] == (old(emu.cpu), old(emu.bus.mem)) && trace[|cycles|] == (emu.cpu, emu.bus.mem)
    ensures var ins := Inputs(old(LinesOf(emu.bus)), cycles);
      && emu.CoreState() == Run(old(emu.CoreState()), ins)
      && HoldsStill(ins, trace, |ins|)
      && emu.bus.accesses == old(emu.bus.accesses) + TouchedIn(ins, trace, |ins|)
    ensures var (kept, out) := Unstalled(Inputs(old(LinesOf(emu.bus)), cycles), false);
      emu.CoreState() == Sense(Run(old(emu.CoreState()), kept), out)
  {
    hide Future, Left, Reachable, TickOn, Sensed, CastAll, Touched, Castable;
    ghost var start := emu.CoreState();
    ghost var ins := Inputs(LinesOf(emu.bus), cycles);
    trace := [(emu.cpu, emu.bus.mem)];
    for k := 0 to |cycles|
      invariant emu.bus.Valid() && Resting(emu.cpu)
      invariant |trace| == k + 1 && trace[0] == (old(emu.cpu), old(emu.bus.mem))
      invariant trace[k] == (emu.cpu, emu.bus.mem)
      invariant ins[k..] == Inputs(LinesOf(emu.bus), cycles[k..])
      invariant Run(emu.CoreState(), ins[k..]) == Run(start, ins)
      invariant HoldsStill(ins, trace, k)
      invariant emu.bus.accesses == old(emu.bus.accesses) + TouchedIn(ins, trace, k)
    {
      assert cycles[k..][0] == cycles[k] && cycles[k..][1..] == cycles[k + 1..];
      assert ins[k..][0] == ins[k] && ins[k..][1..] == ins[k + 1..];
      assert ins[k] == Sensed(LinesOf(emu.bus), cycles[k]);
      Cycle(emu, cycles[k]);
      TouchedAlready(ins, trace, [(emu.cpu, emu.bus.mem)], k);
      trace := trace + [(emu.cpu, emu.bus.mem)];
    }
    StallsVanish(start, ins, false);
    assert Sense(start, false) == start;
  }

  // A pending NMI edge is served first: after the instruction in progress, and within eight
  // cycles that are not stalled, the core is on its way into the NMI handler, whatever the
  // devices do meanwhile.
  method ServeNmiFirst(emu: Emulator, cycles: seq<seq<Vote>>)
    requires emu.bus.Valid() && Resting(emu.cpu) && forall k :: 0 <= k < |cycles| ==> Castable(cycles[k])
    requires emu.bus.nmiPending && Unheld(Inputs(LinesOf(emu.bus), cycles)) == emu.CoreState().busy + 1
    modifies emu, emu.bus
    ensures emu.bus.Valid() && Resting(emu.cpu)
    ensures Unheld(Inputs(old(LinesOf(emu.bus)), cycles)) <= 8
    ensures emu.CoreState().s == Interrupt(NMI_VEC, old(emu.CoreState()).s)
    ensures emu.CoreState().s == OpcodeMap.Entered(old(emu.CoreState()).s, 0xFFFA)
  {
    hide Future, Left, Reachable, Run, Interrupt, Unheld, Inputs, Castable, OpcodeMap.Entered;
    Decoding.EveryEntry(NMI_VEC, emu.CoreState().s);
    SevenTicksAtMost(emu.cpu, emu.bus.mem);
    NmiLatency(emu.CoreState(), Inputs(LinesOf(emu.bus), cycles));
    ghost var _ := Drive(emu, cycles);
  }

  // ----- every input there can be -----

  // One registered device can make the core sense anything.
  function VotesFor(voter: nat, i: Input): seq<Vote> {
    [Vote(voter, SIG_RDY, i.held), Vote(voter, SIG_IRQ, i.irq)]
    + if i.edge then [Vote(voter, SIG_NMI, true), Vote(voter, SIG_NMI, false)] else []
  }

  lemma FirstVote(l: Lines, v: Vote, rest: seq<Vote>)
    ensures CastAll(l, [v] + rest) == CastAll(Cast(l, v), rest)
    ensures Edge(l, [v] + rest) <==> (l.nmi == {} && Cast(l, v).nmi != {}) || Edge(Cast(l, v), rest)
  {
    assert ([v] + rest)[1..] == rest;
  }

  lemma SensesVotes(l: Lines, voter: nat, i: Input)
    requires voter in l.voters && l.nmi == {} && l.irq <= {voter} && l.rdy <= {voter}
    ensures Sensed(l, VotesFor(voter, i)) == i
    ensures var m := CastAll(l, VotesFor(voter, i));
      m.voters == l.voters && m.nmi == {} && m.irq <= {voter} && m.rdy <= {voter}
  {
    var rdy, irq := Vote(voter, SIG_RDY, i.held), Vote(voter, SIG_IRQ, i.irq);
    var on, off := Vote(voter, SIG_NMI, true), Vote(voter, SIG_NMI, false);
    var edge := if i.edge then [on, off] else [];
    var l1 := Cast(l, rdy);
    var l2 := Cast(l1, irq);
    assert VotesFor(voter, i) == [rdy] + ([irq] + edge);
    FirstVote(l, rdy, [irq] + edge);
    FirstVote(l1, irq, edge);
    assert voter in l1.rdy <==> i.held;
    assert voter in l2.irq <==> i.irq;
    if i.edge {
      assert edge == [on] + ([off] + []);
      FirstVote(l2, on, [off] + []);
      FirstVote(Cast(l2, on), off, []);
      assert voter in Cast(l2, on).nmi;
    }
  }

  function RunFor(voter: nat, ins: seq<Input>): (cycles: seq<seq<Vote>>)
    ensures |cycles| == |ins|
  {
    seq(|ins|, k requires 0 <= k < |ins| => VotesFor(voter, ins[k]))
  }

  lemma {:induction false} EveryInput(l: Lines, voter: nat, ins: seq<Input>)
    requires voter in l.voters && l.nmi == {} && l.irq <= {voter} && l.rdy <= {voter}
    ensures Inputs(l, RunFor(voter, ins)) == ins
    decreases |ins|
  {
    hide VotesFor, CastAll, Sensed;
    if ins != [] {
      SensesVotes(l, voter, ins[0]);
      EveryInput(CastAll(l, VotesFor(voter, ins[0])), voter, ins[1..]);
      assert RunFor(voter, ins)[1..] == RunFor(voter, ins[1..]);
    }
  }
}

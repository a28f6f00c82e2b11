// The core itself through nested calls, interrupts and register saves.
module CorePlaying {
  import opened BusModel
  import opened CallNesting
  import opened CpuCore
  import opened CpuTypes
  import opened FutureState
  import opened InstructionMachine
  import opened Isa
  import opened Lifting
  import opened Optional
  import Decoding
  import OpcodeMap

  // At an instruction boundary, with nothing waiting and nobody voting.
  ghost predicate Quiet(emu: Emulator, voter: nat)
    reads emu, emu.bus
  {
    && emu.bus.Valid() && Reachable(emu.cpu) && emu.cpu.opState.OPCODE? && !emu.bus.nmiPending
    && emu.bus.irq == {} && emu.bus.nmi == {} && emu.bus.rdy == {}
    && voter in emu.bus.voters && voter != MAX_SIG_VOTERS
  }

  ghost function At(emu: Emulator): Outcome
    reads emu, emu.bus
  {
    Outcome(emu.cpu.regs, emu.bus.mem, emu.cpu.pageBoundary)
  }

  lemma StartsReset(m: CpuState, mem: Memory)
    requires m.opState == VEC0 && m.vecSrc == RST_VEC
    ensures Reachable(m) && Left(m, mem) == 7
    ensures Future(m, mem) == Interrupt(RST_VEC, Outcome(m.regs, mem, m.pageBoundary))
  {
    hide Enter;
  }

  // After power-on the core takes seven cycles to get to where the reset vector says, with
  // interrupts masked.
  method PowerOn(ram: Memory) returns (emu: Emulator, elapsed: nat)
    ensures fresh(emu) && fresh(emu.bus) && emu.bus.Valid() && Reachable(emu.cpu)
    ensures emu.cpu.opState.OPCODE? && elapsed == 7 && !At(emu).page
    ensures At(emu).r == Regs(OpcodeMap.WordIn(At(emu).mem, 0xFFFC), 0xFD, 0, 0, 0,
                              Flags(false, false, true, false, false, true, false, false))
  {
    hide Future, Left, Reachable, OpcodeMap.WordIn;
    var bus := new Bus(ram);
    emu := new Emulator(bus);
    ghost var s := At(emu);
    StartsReset(emu.cpu, bus.mem);
    elapsed := emu.Step();
    AtBoundary(emu.cpu, emu.bus.mem);
    Decoding.EveryEntry(RST_VEC, s);
  }

  method Instruction(emu: Emulator, voter: nat)
    requires Quiet(emu, voter)
    modifies emu, emu.bus
    ensures Quiet(emu, voter) && At(emu) == Exec(old(At(emu))) && At(emu) == OpcodeMap.Effect(old(At(emu)))
  {
    hide Future, Left, Reachable, Exec, OpcodeMap.Effect;
    AtBoundary(emu.cpu, emu.bus.mem);
    Decoding.EveryOpcode(At(emu));
    var _ := emu.Step();
    AtBoundary(emu.cpu, emu.bus.mem);
  }

  // The device asks, and takes its request back once it is served.
  method Request(emu: Emulator, voter: nat, src: VecSrc)
    requires Quiet(emu, voter) && (src.NMI_VEC? || (src.IRQ_VEC? && !At(emu).r.status.i))
    modifies emu, emu.bus
    ensures Quiet(emu, voter) && At(emu) == Interrupt(src, old(At(emu)))
    ensures At(emu) == OpcodeMap.Entered(old(At(emu)), if src.NMI_VEC? then 0xFFFA else 0xFFFE)
  {
    hide Future, Left, Reachable, Interrupt, OpcodeMap.Entered, OpcodeMap.Effect, OpcodeMap.Clocks;
    Decoding.EveryEntry(src, At(emu));
    AtBoundary(emu.cpu, emu.bus.mem);
    var signal := if src.NMI_VEC? then SIG_NMI else SIG_IRQ;
    emu.bus.SigVote(voter, signal, true);
    assert voter in if src.NMI_VEC? then emu.bus.nmi else emu.bus.irq;
    var _ := emu.Step();
    emu.bus.SigVote(voter, signal, false);
    AtBoundary(emu.cpu, emu.bus.mem);
  }

  // The interrupts of the plan are NMIs, or IRQs that come while they are not masked.
  ghost predicate Servable(s: Outcome, p: Plan, live: nat)
    requires live <= 256
    decreases p, 0
  {
    match p
    case Done => true
    case Step(rest) => Servable(Exec(s), rest, live)
    case Hold(body, rest) =>
      live + 1 <= 256 && Servable(Exec(s), body, live + 1) && ThenServable(Follow(Exec(s), body, live + 1), rest, live)
    case Sub(body, rest) =>
      live + 2 <= 256 && Servable(Exec(s), body, live + 2) && ThenServable(Follow(Exec(s), body, live + 2), rest, live)
    case Serve(src, body, rest) =>
      && (src.NMI_VEC? || (src.IRQ_VEC? && !s.r.status.i))
      && live + 3 <= 256 && Servable(Interrupt(src, s), body, live + 3)
      && ThenServable(Follow(Interrupt(src, s), body, live + 3), rest, live)
  }

  ghost predicate ThenServable(u: Option<Outcome>, rest: Plan, live: nat)
    requires live <= 256
    decreases rest, 1
  {
    u.Some? ==> Servable(Exec(u.value), rest, live)
  }

  // Cycle by cycle the core goes through the plan just as the one-shot instructions do.
  method Play(emu: Emulator, voter: nat, p: Plan, ghost live: nat)
    requires live <= 256 && Quiet(emu, voter) && Servable(At(emu), p, live) && Follow(At(emu), p, live).Some?
    modifies emu, emu.bus
    ensures Quiet(emu, voter) && Some(At(emu)) == Follow(old(At(emu)), p, live)
    decreases p
  {
    hide Exec, Interrupt, Quiet, Balanced, KnownPush, KnownPull, OpcodeAt;
    match p
    case Done =>
    case Step(rest) =>
      Instruction(emu, voter);
      Play(emu, voter, rest, live);
    case Hold(body, rest) =>
      Instruction(emu, voter);
      Play(emu, voter, body, live + 1);
      Instruction(emu, voter);
      Play(emu, voter, rest, live);
    case Sub(body, rest) =>
      Instruction(emu, voter);
      Play(emu, voter, body, live + 2);
      Instruction(emu, voter);
      Play(emu, voter, rest, live);
    case Serve(src, body, rest) =>
      Request(emu, voter, src);
      Play(emu, voter, body, live + 3);
      Instruction(emu, voter);
      Play(emu, voter, rest, live);
  }

  // So at every level of a run of the core each return goes back to where its call or
  // interrupt came from, and each pull takes back what its push saved.
  method PlayAndReturn(emu: Emulator, voter: nat, p: Plan, ghost live: nat)
    requires live <= 256 && Quiet(emu, voter) && Servable(At(emu), p, live) && Follow(At(emu), p, live).Some?
    requires StackIsRam(emu.bus.mem)
    modifies emu, emu.bus
    ensures Quiet(emu, voter) && AllReturn(old(At(emu)), p, live) && Balanced(old(At(emu)), At(emu), live)
  {
    NestedRunsReturn(At(emu), p, live);
    hide Follow, Servable, AllReturn, Balanced, Quiet, Exec;
    Play(emu, voter, p, live);
  }
}

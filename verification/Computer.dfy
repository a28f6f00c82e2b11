// The core and the devices of a board on one bus.
module Computer {
  import opened BoardModel
  import opened BusAccess
  import opened CoreRuns
  import opened CpuCore
  import opened CpuTypes
  import opened FutureState
  import opened InstructionMachine
  import opened Isa
  import opened Lifting
  import Decoding
  import OpcodeMap

  // A tick of the core leaves the devices alone.
  method TickCore(board: Board, emu: Emulator)
    requires board.Wired() && board.bus == emu.bus && emu.bus.Valid() && Resting(emu.cpu)
    modifies emu, emu.bus`mem, emu.bus`lastop, emu.bus`accesses, emu.bus`nmiPending
    ensures board.Wired() && emu.bus.Valid() && Resting(emu.cpu)
    ensures emu.CoreState() == NextTick(old(emu.CoreState()), emu.bus.rdy != {}, emu.bus.irq != {})
  {
    hide Future, Left, Reachable, NextTick, Thinks;
    var _ := emu.Tick();
    hide Resting;
  }

  // One clock cycle: whatever happens to the devices, then a tick of the core, which senses
  // a request just if some device asks for an interrupt.
  method Cycle(board: Board, emu: Emulator, ops: seq<Op>)
    requires board.Wired() && board.bus == emu.bus && emu.bus.Valid() && Resting(emu.cpu)
    modifies emu, emu.bus, board.vias, board.acias
    ensures board.Wired() && emu.bus.Valid() && Resting(emu.cpu) && emu.bus.rdy == old(emu.bus.rdy)
    ensures var d := AfterAll(old(board.Now()), ops);
      board.Now() == d && emu.CoreState() == TickOn(old(emu.CoreState()), Input(false, emu.bus.rdy != {}, Asks(d)))
  {
    hide Future, Left, Reachable, NextTick, Thinks, AfterAll, Asks;
    board.Run(ops);
    TickCore(board, emu);
  }

  // What the core senses in a run, of what happens to the devices in each cycle.
  function Requests(d: Devices, held: bool, cycles: seq<seq<Op>>): (ins: seq<Input>)
    ensures |ins| == |cycles|
    decreases |cycles|
  {
    if cycles == [] then []
    else
      var e := AfterAll(d, cycles[0]);
      [Input(false, held, Asks(e))] + Requests(e, held, cycles[1..])
  }

  function AfterCycles(d: Devices, cycles: seq<seq<Op>>): Devices
    decreases |cycles|
  {
    if cycles == [] then d else AfterCycles(AfterAll(d, cycles[0]), cycles[1..])
  }

  // Every run of the core and the devices is a run of the instruction machine with the
  // requests of the devices.
  method RunCycles(board: Board, emu: Emulator, cycles: seq<seq<Op>>)
    requires board.Wired() && board.bus == emu.bus && emu.bus.Valid() && Resting(emu.cpu)
    modifies emu, emu.bus, board.vias, board.acias
    ensures board.Wired() && emu.bus.Valid() && Resting(emu.cpu)
    ensures board.Now() == AfterCycles(old(board.Now()), cycles)
    ensures emu.CoreState() ==
            CoreRuns.Run(old(emu.CoreState()), Requests(old(board.Now()), old(emu.bus.rdy != {}), cycles))
  {
    hide Future, Left, Reachable, TickOn, AfterAll, Asks, Board.Wired;
    ghost var held := emu.bus.rdy != {};
    ghost var all := Requests(board.Now(), held, cycles);
    for k := 0 to |cycles|
      invariant board.Wired() && emu.bus.Valid() && Resting(emu.cpu) && (emu.bus.rdy != {}) == held
      invariant AfterCycles(board.Now(), cycles[k..]) == AfterCycles(old(board.Now()), cycles)
      invariant all[k..] == Requests(board.Now(), held, cycles[k..])
      invariant CoreRuns.Run(emu.CoreState(), all[k..]) == CoreRuns.Run(old(emu.CoreState()), all)
    {
      assert cycles[k..][0] == cycles[k] && cycles[k..][1..] == cycles[k + 1..];
      assert all[k..][1..] == all[k + 1..];
      Cycle(board, emu, cycles[k]);
    }
  }

  // At an instruction boundary, with interrupts enabled and no NMI waiting, a device that
  // asks is served at once.
  method Served(board: Board, emu: Emulator, ops: seq<Op>) returns (asks: bool)
    requires board.Wired() && board.bus == emu.bus && emu.bus.Valid() && Resting(emu.cpu) && emu.bus.rdy == {}
    requires emu.cpu.opState.OPCODE? && !emu.bus.nmiPending && !emu.cpu.regs.status.i
    modifies emu, emu.bus, board.vias, board.acias
    ensures board.Wired() && emu.bus.Valid() && Resting(emu.cpu) && (asks <==> Asks(AfterAll(old(board.Now()), ops)))
    ensures var s := Outcome(old(emu.cpu.regs), old(emu.bus.mem), old(emu.cpu.pageBoundary));
      && emu.CoreState().s == (if asks then Interrupt(IRQ_VEC, s) else Exec(s))
      && emu.CoreState().s == if asks then OpcodeMap.Entered(s, 0xFFFE) else OpcodeMap.Effect(s)
  {
    AtBoundary(emu.cpu, emu.bus.mem);
    Decoding.EveryOpcode(emu.Settled());
    Decoding.EveryEntry(IRQ_VEC, emu.Settled());
    hide OpcodeMap.Entered, OpcodeMap.Effect;
    hide Future, Left, Reachable, Thinks, Cycles, Exec, Interrupt, Asks, AfterAll;
    Cycle(board, emu, ops);
    board.LineIsWiredOr();
    asks := emu.bus.irq != {};
  }
}

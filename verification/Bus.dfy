// The bus: RAM behind the address decoder, the last operation (repeated while RDY is
// held), and the wired-or signal votes of the devices.
module BusModel {
  import opened Isa
  import opened Words

  datatype Signal = SIG_IRQ | SIG_NMI | SIG_RDY | SIG_BE

  datatype BusOp = BusOp(write: bool, addr: Addr, val: Byte, sync: bool)

  // A voter is known by its bit, and a mask of votes is the set of its bits.
  const MAX_SIG_VOTERS := 32

  class Bus {
    var mem: Memory
    var lastop: BusOp
    var voters: set<nat>
    var irq: set<nat>
    var nmi: set<nat>
    var rdy: set<nat>
    var be: set<nat>
    var nmiPending: bool
    // How many operations there were.
    ghost var accesses: nat

    // A write that is the last operation is still visible in memory, and fetched no opcode.
    ghost predicate Valid()
      reads this
    {
      lastop.write ==> Write(mem, lastop.addr, lastop.val) == mem && !lastop.sync
    }

    constructor (ram: Memory)
      ensures Valid() && mem == ram && !nmiPending
      ensures voters == {} && irq == {} && nmi == {} && rdy == {} && be == {}
    {
      mem, lastop := ram, BusOp(false, 0, 0, false);
      voters, irq, nmi, rdy, be, nmiPending := {}, {}, {}, {}, {}, false;
      accesses := 0;
    }

    method ReadByte(addr: Addr, sync: bool) returns (v: Byte)
      modifies this`lastop, this`accesses
      ensures accesses == old(accesses) + 1
      ensures Valid() && v == Read(mem, addr) && v == if addr in mem then mem[addr] else 0xFF
      ensures lastop == BusOp(false, addr, old(lastop.val), sync)
    {
      v := Read(mem, addr);
      lastop := BusOp(false, addr, lastop.val, sync);
      accesses := accesses + 1;
    }

    method WriteByte(addr: Addr, v: Byte)
      modifies this`lastop, this`mem, this`accesses
      ensures accesses == old(accesses) + 1
      ensures Valid() && mem == Write(old(mem), addr, v)
      ensures mem == if addr in old(mem) then old(mem)[addr := v] else old(mem)
      ensures lastop == BusOp(true, addr, v, false)
    {
      mem := Write(mem, addr, v);
      lastop := BusOp(true, addr, v, false);
      accesses := accesses + 1;
    }

    // Repeating the last operation changes nothing in RAM.
    method Replay()
      requires Valid()
      modifies this`lastop, this`mem, this`accesses
      ensures accesses == old(accesses) + 1 && lastop == old(lastop)
      ensures Valid() && mem == old(mem)
    {
      if lastop.write {
        WriteByte(lastop.addr, lastop.val);
      } else {
        var _ := ReadByte(lastop.addr, lastop.sync);
      }
    }

    // Hands out the lowest free voter; the maximum stands for none being free.
    method RegisterVoter() returns (voter: nat)
      modifies this`voters
      ensures voter == MAX_SIG_VOTERS ==> voters == old(voters) && forall v :: 0 <= v < 32 ==> v in voters
      ensures voter != MAX_SIG_VOTERS ==> voter < 32 && voter !in old(voters)
      ensures voter != MAX_SIG_VOTERS ==> voters == old(voters) + {voter}
    {
      voter := MAX_SIG_VOTERS;
      for index := 0 to MAX_SIG_VOTERS
        invariant voter == MAX_SIG_VOTERS && voters == old(voters)
        invariant forall v :: 0 <= v < index ==> v in voters
      {
        if index !in voters {
          voters := voters + {index};
          return index;
        }
      }
    }

    method UnregisterVoter(voter: nat)
      requires voter != MAX_SIG_VOTERS
      modifies this`voters
      ensures voters == old(voters) - {voter}
    {
      voters := voters - {voter};
    }

    // Takes or releases a vote; those of voters that are not registered are ignored.  The first vote for
    // NMI is the edge that the CPU is to see.
    method SigVote(voter: nat, signal: Signal, voted: bool)
      requires voter != MAX_SIG_VOTERS
      modifies this`irq, this`nmi, this`rdy, this`be, this`nmiPending
      ensures voter !in voters ==> irq == old(irq) && nmi == old(nmi) && rdy == old(rdy) && be == old(be)
      ensures voter in voters ==>
        && irq == (if signal == SIG_IRQ then Voted(old(irq), voter, voted) else old(irq))
        && nmi == (if signal == SIG_NMI then Voted(old(nmi), voter, voted) else old(nmi))
        && rdy == (if signal == SIG_RDY then Voted(old(rdy), voter, voted) else old(rdy))
        && be == (if signal == SIG_BE then Voted(old(be), voter, voted) else old(be))
      ensures nmiPending <==> old(nmiPending) || (old(nmi) == {} && nmi != {})
    {
      if voter !in voters {
        return;
      }
      match signal
      case SIG_IRQ => irq := Voted(irq, voter, voted);
      case SIG_NMI =>
        if voted && nmi == {} {
          nmiPending := true;
        }
        nmi := Voted(nmi, voter, voted);
      case SIG_RDY => rdy := Voted(rdy, voter, voted);
      case SIG_BE => be := Voted(be, voter, voted);
    }
  }

  function Voted(mask: set<nat>, voter: nat, voted: bool): (m: set<nat>)
    ensures forall v :: v in m <==> (if v == voter then voted else v in mask)
  {
    if voted then mask + {voter} else mask - {voter}
  }
}

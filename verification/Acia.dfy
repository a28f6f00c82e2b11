// The ACIA: bytes pass to and from a transport at the speed of the line, and an arriving
// byte can ask for an interrupt.
module AciaModel {
  import opened BusModel
  import opened Words

  // Bit ticks per bit, by the baud rate field.
  const SBR_TABLE: seq<nat> :=
    [16, 36864, 24576, 16769, 13704, 12288, 6144, 3072, 1536, 1024, 768, 512, 364, 256, 192, 96]

  // Of the status register the bits that change; TDRE is always set.
  datatype Status = Status(irq: bool, rdrf: bool, over: bool)

  // The status register as a byte: no framing, parity or modem bits.
  function StatusByte(s: Status): (b: Byte)
    ensures (Has(b, 0x80) <==> s.irq) && (Has(b, 0x08) <==> s.rdrf) && (Has(b, 0x04) <==> s.over)
    ensures Has(b, 0x10) && !Has(b, 0x40) && !Has(b, 0x20) && !Has(b, 0x02) && !Has(b, 0x01)
  {
    (if s.irq then 0x80 else 0) + 0x10 + (if s.rdrf then 0x08 else 0) + if s.over then 0x04 else 0
  }

  datatype Reg = DATA | STATUS | CMD | CTRL

  // Start bit, data bits and stop bits.
  function TicksPerWord(control: Byte): (ticks: nat)
    ensures ticks > 0
  {
    var bit := SBR_TABLE[control % 16];
    var length := (control / 32) % 4;
    var data := (8 - length + 1) * bit;
    data + if !Has(control, 0x80) then bit else if length == 3 then 3 * bit / 2 else 2 * bit
  }

  // A word is a start bit, eight to five data bits and one stop bit, or two, or one and a half
  // after five data bits.
  lemma WordIs(control: Byte)
    ensures var bit := SBR_TABLE[control % 16];
      var data := match control / 0x20 % 4 case 0 => 8 case 1 => 7 case 2 => 6 case _ => 5;
      TicksPerWord(control) ==
        bit + data * bit + if control < 0x80 then bit else if data == 5 then bit + bit / 2 else 2 * bit
  {
    var bit := SBR_TABLE[control % 16];
    assert Has(control, 0x80) <==> control >= 0x80;
    assert 3 * bit / 2 == bit + bit / 2;
  }

  // The line's speed by the baud rate field, in hundredths of a baud.
  function Rate(field: nat): nat
    requires field < 16
  {
    match field
    case 0 => 115200_00 case 1 => 50_00 case 2 => 75_00 case 3 => 109_92
    case 4 => 134_50 case 5 => 150_00 case 6 => 300_00 case 7 => 600_00
    case 8 => 1200_00 case 9 => 1800_00 case 10 => 2400_00 case 11 => 3600_00
    case 12 => 4800_00 case 13 => 7200_00 case 14 => 9600_00 case _ => 19200_00
  }

  // The ticks of a bit are the nearest whole number at a bit clock of 1.8432 megahertz, just if the
  // rate is not 4800 baud; there a bit is twenty ticks short.
  lemma BaudExact(field: nat)
    requires field < 16
    ensures (2 * 1_843_200_00 - Rate(field) <= 2 * SBR_TABLE[field] * Rate(field) <= 2 * 1_843_200_00 + Rate(field))
       <==> field != 12
    ensures SBR_TABLE[12] == 364 && 384 * Rate(12) == 1_843_200_00
  {
  }

  // The device as the events of its surroundings change it, once registered for interrupts.
  datatype State = State(control: Byte, command: Byte, status: Status, rxTicks: nat, txTicks: nat, readVal: Byte,
                         writeVal: Byte)

  function AfterReceive(s: State, incoming: Byte): State {
    if s.status.rdrf then s.(status := s.status.(over := true))
    else s.(readVal := incoming, status := s.status.(rdrf := true, irq := s.status.irq || !Has(s.command, 0x02)))
  }

  function AfterTick(s: State, available: bool, incoming: Byte): State {
    var d := s.(txTicks := if s.txTicks > 0 then s.txTicks - 1 else 0);
    if s.rxTicks == 1 then AfterReceive(d, incoming).(rxTicks := 0)
    else if s.rxTicks > 0 then d.(rxTicks := s.rxTicks - 1)
    else d.(rxTicks := if available && Has(s.command, 0x01) then TicksPerWord(s.control) else 0)
  }

  function AfterWrite(s: State, reg: Reg, val: Byte): State {
    match reg
    case DATA =>
      if Has(s.command, 0x01) && s.txTicks == 0 then s.(writeVal := val, txTicks := TicksPerWord(s.control)) else s
    case STATUS => s.(status := s.status.(over := false), command := s.command - s.command % 0x20)
    case CTRL => s.(control := val)
    case CMD => s.(command := val, txTicks := if Has(val, 0x01) then s.txTicks else 0)
  }

  function AfterRead(s: State, reg: Reg): State {
    match reg
    case DATA => if s.status.rdrf then s.(status := s.status.(rdrf := false, over := false)) else s
    case STATUS => s.(status := s.status.(irq := false))
    case _ => s
  }

  class Acia {
    const bus: Bus
    var voter: nat
    var control: Byte
    var command: Byte
    var status: Status
    var rxTicks: nat
    var txTicks: nat
    var readVal: Byte
    var writeVal: Byte

    constructor (bus: Bus)
      ensures this.bus == bus && voter == MAX_SIG_VOTERS && status == Status(false, false, false)
      ensures control == 0 && command == 0 && rxTicks == 0 && txTicks == 0 && readVal == 0 && writeVal == 0
    {
      this.bus, voter := bus, MAX_SIG_VOTERS;
      control, command, status := 0, 0, Status(false, false, false);
      rxTicks, txTicks, readVal, writeVal := 0, 0, 0, 0;
    }

    function Now(): State
      reads this
    {
      State(control, command, status, rxTicks, txTicks, readVal, writeVal)
    }

    // The device's vote says what its interrupt bit says.
    ghost predicate Votes()
      reads this, bus
    {
      if voter == MAX_SIG_VOTERS then !status.irq
      else voter in bus.voters && (voter in bus.irq <==> status.irq)
    }

    twostate predicate OnlyOwnVote()
      reads this, bus
    {
      && (forall v :: v != voter || voter == MAX_SIG_VOTERS ==> (v in bus.irq <==> v in old(bus.irq)))
      && bus.nmi == old(bus.nmi) && bus.rdy == old(bus.rdy) && bus.be == old(bus.be)
      && bus.nmiPending == old(bus.nmiPending)
    }

    method RegisterIrq() returns (ok: bool)
      requires Votes() && voter == MAX_SIG_VOTERS && bus.irq <= bus.voters
      modifies `voter, bus`voters
      ensures Votes() && bus.irq <= bus.voters && bus.voters == old(bus.voters) + if ok then {voter} else {}
      ensures if ok then voter !in old(bus.voters) && voter != MAX_SIG_VOTERS else voter == MAX_SIG_VOTERS
    {
      voter := bus.RegisterVoter();
      ok := voter != MAX_SIG_VOTERS;
    }

    // A whole word has arrived; it is lost if the one before was not read yet.
    method Receive(incoming: Byte)
      requires Votes()
      modifies `status, `readVal, bus`irq, bus`nmi, bus`rdy, bus`be, bus`nmiPending
      ensures Votes() && OnlyOwnVote()
      ensures status.rdrf && readVal == if old(status.rdrf) then old(readVal) else incoming
      ensures status.over == old(status.over || status.rdrf)
      ensures status.irq ==
              (old(status.irq) || (!old(status.rdrf) && voter != MAX_SIG_VOTERS && !Has(command, 0x02)))
      ensures voter != MAX_SIG_VOTERS ==> Now() == AfterReceive(old(Now()), incoming)
    {
      if status.rdrf {
        status := status.(over := true);
        return;
      }
      status, readVal := status.(rdrf := true), incoming;
      if voter != MAX_SIG_VOTERS && !Has(command, 0x02) {
        status := status.(irq := true);
        bus.SigVote(voter, SIG_IRQ, true);
      }
    }

    // One tick of the bit clock, with what the transport has; a byte sent goes back to it.
    method Tick(available: bool, incoming: Byte) returns (sent: bool, outgoing: Byte)
      requires Votes()
      modifies this, bus`irq, bus`nmi, bus`rdy, bus`be, bus`nmiPending
      ensures Votes() && voter == old(voter) && OnlyOwnVote()
      ensures command == old(command) && control == old(control) && writeVal == old(writeVal)
      ensures rxTicks == if old(rxTicks) > 0 then old(rxTicks) - 1
                         else if available && Has(command, 0x01) then TicksPerWord(control) else 0
      ensures if old(rxTicks) == 1 then status.rdrf else status == old(status) && readVal == old(readVal)
      ensures old(rxTicks) == 1 ==> readVal == if old(status.rdrf) then old(readVal) else incoming
      ensures old(rxTicks) == 1 ==> status.over == old(status.over || status.rdrf)
      ensures old(rxTicks) == 1 ==>
        (status.irq <==> old(status.irq) || (!old(status.rdrf) && voter != MAX_SIG_VOTERS && !Has(command, 0x02)))
      ensures sent <==> old(txTicks) == 1
      ensures outgoing == writeVal && txTicks == if old(txTicks) > 0 then old(txTicks) - 1 else 0
      ensures voter != MAX_SIG_VOTERS ==> Now() == AfterTick(old(Now()), available, incoming)
    {
      if rxTicks > 0 {
        rxTicks := rxTicks - 1;
        if rxTicks == 0 {
          Receive(incoming);
        }
      } else if available && Has(command, 0x01) {
        rxTicks := TicksPerWord(control);
      }
      sent, outgoing := false, writeVal;
      if txTicks > 0 {
        txTicks := txTicks - 1;
        sent := txTicks == 0;
      }
    }

    method Write(reg: Reg, val: Byte)
      requires Votes()
      modifies this
      ensures Votes() && voter == old(voter) && rxTicks == old(rxTicks) && readVal == old(readVal)
      ensures status == if reg == STATUS then old(status).(over := false) else old(status)
      ensures control == if reg == CTRL then val else old(control)
      ensures command == if reg == CMD then val
                         else if reg == STATUS then old(command - command % 0x20) else old(command)
      ensures var starts := reg == DATA && old(Has(command, 0x01) && txTicks == 0);
        && writeVal == (if starts then val else old(writeVal))
        && txTicks == if starts then TicksPerWord(control)
                      else if reg == CMD && !Has(val, 0x01) then 0
                      else old(txTicks)
      ensures Now() == AfterWrite(old(Now()), reg, val)
    {
      match reg
      case DATA =>
        if Has(command, 0x01) {
          if txTicks > 0 {
            return;
          }
          writeVal, txTicks := val, TicksPerWord(control);
        }
      case STATUS =>
        status := status.(over := false);
        command := command - command % 0x20;
      case CTRL => control := val;
      case CMD =>
        command := val;
        if !Has(command, 0x01) {
          txTicks := 0;
        }
    }

    // A byte written to the data register while nothing is being sent goes out once, after
    // exactly the time of a word, whatever arrives meanwhile.
    method Transmit(val: Byte, arriving: seq<(bool, Byte)>) returns (out: seq<Byte>)
      requires Votes() && Has(command, 0x01) && txTicks == 0 && |arriving| == TicksPerWord(control)
      modifies this, bus`irq, bus`nmi, bus`rdy, bus`be, bus`nmiPending
      ensures Votes() && txTicks == 0 && out == [val]
    {
      hide Has, TicksPerWord;
      Write(DATA, val);
      out := [];
      for i := 0 to |arriving|
        invariant Votes() && txTicks == |arriving| - i && writeVal == val
        invariant out == if i < |arriving| then [] else [val]
      {
        var sent, outgoing := Tick(arriving[i].0, arriving[i].1);
        if sent {
          out := out + [outgoing];
        }
      }
    }

    // Reading the status register takes the interrupt back.
    method Read(reg: Reg) returns (val: Byte)
      requires Votes()
      modifies this, bus`irq, bus`nmi, bus`rdy, bus`be, bus`nmiPending
      ensures Votes() && voter == old(voter) && OnlyOwnVote()
      ensures command == old(command) && control == old(control)
      ensures rxTicks == old(rxTicks) && txTicks == old(txTicks)
      ensures readVal == old(readVal) && writeVal == old(writeVal)
      ensures status.irq <==> old(status.irq) && reg != STATUS
      ensures status.rdrf <==> old(status.rdrf) && reg != DATA
      ensures status.over <==> old(status.over) && !(reg == DATA && old(status.rdrf))
      ensures reg == DATA ==> val == if old(status.rdrf) then old(readVal) else 0xFF
      ensures reg == CTRL ==> val == control
      ensures reg == CMD ==> val == command
      ensures reg == STATUS ==> val == StatusByte(old(status))
      ensures Now() == AfterRead(old(Now()), reg)
    {
      val := 0xFF;
      match reg
      case DATA =>
        if status.rdrf {
          val := readVal;
          status := status.(rdrf := false, over := false);
        }
      case STATUS =>
        val := StatusByte(status);
        status := status.(irq := false);
        if voter != MAX_SIG_VOTERS {
          bus.SigVote(voter, SIG_IRQ, false);
        }
      case CTRL => val := control;
      case CMD => val := command;
    }
  }
}

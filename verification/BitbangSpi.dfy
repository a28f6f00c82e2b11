// SPI by the bits of port B: each rising edge of the clock bit moves a bit each way
// between the port and the SD card.
module BitbangSpi {
  import Division
  import opened SdCardModel
  import opened Words

  const SPI_CLK := 0x01
  const SPI_MOSI := 0x02
  const SPI_MISO := 0x04
  const SPI_SS_SDCARD := 0x10
  const SPI_DETECT := 0x80

  // The pins by their places in the port: clock, data out, data in, select (active low) and
  // detect.
  predicate Clock(port: Byte) { port % 2 == 1 }

  predicate DataOut(port: Byte) { port / 2 % 2 == 1 }

  predicate DataIn(port: Byte) { port / 4 % 2 == 1 }

  predicate Deselect(port: Byte) { port / 16 % 2 == 1 }

  predicate Detect(port: Byte) { port >= 128 }

  lemma Pins(port: Byte)
    ensures Has(port, SPI_CLK) <==> Clock(port)
    ensures Has(port, SPI_MOSI) <==> DataOut(port)
    ensures Has(port, SPI_MISO) <==> DataIn(port)
    ensures Has(port, SPI_SS_SDCARD) <==> Deselect(port)
    ensures Has(port, SPI_DETECT) <==> Detect(port)
  {
  }

  // The weight of the k-th bit to be sent, the most significant first.
  function Weight(k: nat): (w: nat)
    requires k < 8
    ensures w > 0
  {
    match k
    case 0 => 128 case 1 => 64 case 2 => 32 case 3 => 16 case 4 => 8 case 5 => 4 case 6 => 2 case 7 => 1
  }

  function Bit(b: Byte, k: nat): (bit: nat)
    requires k < 8
    ensures bit <= 1
  {
    if Has(b, Weight(k)) then 1 else 0
  }

  function ShiftBit(out: Byte, bit: nat): Byte
    requires bit <= 1
  {
    (2 * out) % 0x100 + bit
  }

  // The first k bits of a byte, as shifted in from the right.
  function ShiftedIn(b: Byte, k: nat): Byte
    requires k <= 8
  {
    if k == 0 then 0 else ShiftBit(ShiftedIn(b, k - 1), Bit(b, k - 1))
  }

  // The byte after k bits were shifted out to the left.
  function ShiftedOut(b: Byte, k: nat): Byte
    requires k <= 8
  {
    if k == 0 then b else (2 * ShiftedOut(b, k - 1)) % 0x100
  }

  // 2 to the power 8 - k.
  function Scale(k: nat): nat
    requires k <= 8
    ensures Scale(k) > 0
  {
    if k == 0 then 256 else Weight(k - 1)
  }

  lemma {:induction false} ShiftIn(b: Byte, k: nat)
    requires k <= 8
    ensures ShiftedIn(b, k) == b / Scale(k)
  {
    hide ShiftBit, Bit;
    if k > 0 {
      hide Scale;
      ShiftIn(b, k - 1);
      InStep(b, k);
    }
  }

  lemma InStep(b: Byte, k: nat)
    requires 1 <= k <= 8
    ensures 0 <= b / Scale(k - 1) < 0x80 && ShiftBit(b / Scale(k - 1), Bit(b, k - 1)) == b / Scale(k)
  {
    assert Scale(k - 1) == 2 * Scale(k);
    Division.Halve(b, Scale(k));
    Division.Floor(b, Scale(k));
    Division.Grows(b / Scale(k), 1, Scale(k));
  }

  lemma {:induction false} ShiftOut(b: Byte, k: nat)
    requires k < 8
    ensures Scale(k) * ShiftedOut(b, k) == 256 * (b % Scale(k))
  {
    if k > 0 {
      ShiftOut(b, k - 1);
      OutStep(b, ShiftedOut(b, k - 1), k);
    }
  }

  // What is left of a byte below its k-th bit.
  lemma Below(b: Byte, k: nat)
    requires 1 <= k <= 8
    ensures b % Scale(k - 1) == b % Scale(k) + if Bit(b, k - 1) == 1 then Scale(k) else 0
  {
    assert Scale(k - 1) == 2 * Scale(k);
    Division.Halve(b, Scale(k));
  }

  lemma OutStep(b: Byte, shifted: Byte, k: nat)
    requires 1 <= k < 8 && Scale(k - 1) * shifted == 256 * (b % Scale(k - 1))
    ensures Scale(k) * ((2 * shifted) % 0x100) == 256 * (b % Scale(k))
  {
    hide Bit;
    Below(b, k);
    OutStepOf(shifted, b % Scale(k - 1), b % Scale(k), Bit(b, k - 1), k);
  }

  lemma OutStepOf(shifted: Byte, rest: nat, next: nat, bit: nat, k: nat)
    requires 1 <= k < 8 && Scale(k - 1) * shifted == 256 * rest
    requires rest == next + (if bit == 1 then Scale(k) else 0) && next < Scale(k) && bit <= 1
    ensures Scale(k) * ((2 * shifted) % 0x100) == 256 * next
  {
    match k
    case 1 => case 2 => case 3 => case 4 => case 5 => case 6 => case 7 =>
  }

  // The bit on the line is the one whose turn it is.
  lemma TopBit(b: Byte, k: nat)
    requires k < 8
    ensures ShiftedOut(b, k) >= 0x80 <==> Bit(b, k) == 1
  {
    ShiftOut(b, k);
    Top(b, ShiftedOut(b, k), k);
  }

  lemma Top(b: Byte, shifted: Byte, k: nat)
    requires k < 8 && Scale(k) * shifted == 256 * (b % Scale(k))
    ensures shifted >= 0x80 <==> Bit(b, k) == 1
  {
    Below(b, k + 1);
    TopOf(shifted, b % Scale(k), b % Scale(k + 1), Bit(b, k), k);
  }

  lemma TopOf(shifted: Byte, rest: nat, next: nat, bit: nat, k: nat)
    requires k < 8 && Scale(k) * shifted == 256 * rest
    requires rest == next + (if bit == 1 then Scale(k + 1) else 0) && next < Scale(k + 1) && bit <= 1
    ensures shifted >= 0x80 <==> bit == 1
  {
    match k
    case 0 => case 1 => case 2 => case 3 => case 4 => case 5 => case 6 => case 7 =>
  }

  // What a rising edge of the clock works on: the number of bits so far, the shift
  // registers, and the card.
  datatype Shift = Shift(count: nat, out: Byte, cardIn: Byte, card: Card) {
    predicate Valid() {
      count < 8 && card.Valid()
    }
  }

  function Rise(s: Shift, selected: bool, bit: nat): (t: Shift)
    requires s.Valid() && bit <= 1
    ensures t.Valid()
  {
    var latch := selected && s.count == 0;
    var card := if latch then Get(s.card) else s.card;
    var cardIn := if latch then Sent(s.card) else if selected then (2 * s.cardIn) % 0x100 else s.cardIn;
    var out := ShiftBit(s.out, bit);
    if s.count < 7 then Shift(s.count + 1, out, cardIn, card)
    else Shift(0, 0, cardIn, if selected then Put(card, out) else card)
  }

  // The first k bits of a byte, with the card selected.
  function RiseBits(s: Shift, b: Byte, k: nat): (t: Shift)
    requires s.Valid() && k <= 8
    ensures t.Valid()
  {
    if k == 0 then s else Rise(RiseBits(s, b, k - 1), true, Bit(b, k - 1))
  }

  lemma {:induction false} BitsSoFar(s: Shift, b: Byte, k: nat)
    requires s.Valid() && s.count == 0 && s.out == 0 && k <= 8
    ensures 0 < k ==> RiseBits(s, b, k).cardIn == ShiftedOut(Sent(s.card), k - 1)
    ensures 0 < k < 8 ==> RiseBits(s, b, k).card == Get(s.card)
    ensures k < 8 ==> RiseBits(s, b, k).count == k && RiseBits(s, b, k).out == ShiftedIn(b, k)
    ensures k == 8 ==> RiseBits(s, b, k).count == 0 && RiseBits(s, b, k).out == 0
    ensures k == 8 ==> RiseBits(s, b, k).card == Put(Get(s.card), b)
  {
    hide Put, Get, Bit, ShiftBit;
    if k > 0 {
      BitsSoFar(s, b, k - 1);
      ShiftIn(b, 8);
    }
  }

  // What the data bits of the port are when a bit is clocked out.
  lemma PortBits(bit: nat)
    requires bit <= 1
    ensures var low := SPI_MOSI * bit;
      && !Clock(low) && !Deselect(low) && Clock(low + SPI_CLK) && !Deselect(low + SPI_CLK)
      && (DataOut(low + SPI_CLK) <==> bit == 1)
  {
    if bit == 0 {
    } else {
    }
  }

  class Spi {
    const card: SdCard
    var count: nat
    var out: Byte
    var clkState: bool
    var selected: bool
    var cardIn: Byte
    // What the port reads as at the pins that are driven here.
    var pins: Byte

    constructor (card: SdCard)
      ensures this.card == card && Aligned() && !selected
    {
      this.card := card;
      count, out, clkState, selected, cardIn, pins := 0, 0, false, false, 0, SPI_MISO + SPI_DETECT;
    }

    // Between bytes, with the clock low.
    predicate Aligned()
      reads this
    {
      count == 0 && out == 0 && !clkState
    }

    function Shifts(): Shift
      reads this, card
    {
      Shift(count, out, cardIn, card.State())
    }

    method UpdateOutputs()
      modifies `pins
      ensures DataIn(pins) <==> selected ==> cardIn >= 0x80
      ensures Detect(pins)
    {
      var data := 0;
      if selected {
        if cardIn >= 0x80 {
          data := data + SPI_MISO;
        }
      } else {
        data := data + SPI_MISO;
      }
      data := data + SPI_DETECT;
      pins := data;
    }

    // Port B is written.
    method PortbWrite(data: Byte)
      requires Shifts().Valid()
      modifies this, card
      ensures Shifts().Valid() && Shifts() ==
        if Clock(data) && !old(clkState)
        then Rise(old(Shifts()), selected, if DataOut(data) then 1 else 0) else old(Shifts())
      ensures selected == !Deselect(data) && clkState == Clock(data)
      ensures DataIn(pins) <==> selected ==> cardIn >= 0x80
    {
      hide Has, Get, Put, Sent, ShiftBit, Clock, DataOut, DataIn, Deselect, Detect;
      Pins(data);
      selected := !Has(data, SPI_SS_SDCARD);
      if Has(data, SPI_CLK) && !clkState {
        if selected {
          if count == 0 {
            cardIn := card.SpiGet();
          } else {
            cardIn := (2 * cardIn) % 0x100;
          }
        }
        out := ShiftBit(out, if Has(data, SPI_MOSI) then 1 else 0);
        count := count + 1;
        if count == 8 {
          if selected {
            card.SpiWrite(out);
          }
          count, out := 0, 0;
        }
      }
      clkState := Has(data, SPI_CLK);
      UpdateOutputs();
    }

    // As the firmware sends and receives a bit: set it with the clock low, raise the clock,
    // and look at the input.
    method TransferBit(bit: nat) returns (received: nat)
      requires Shifts().Valid() && !clkState && bit <= 1
      modifies this, card
      ensures Shifts().Valid() && !clkState && Shifts() == Rise(old(Shifts()), true, bit)
      ensures received == if cardIn >= 0x80 then 1 else 0
    {
      hide Has, Rise, Clock, DataOut, DataIn, Deselect, Detect;
      PortBits(bit);
      var low := SPI_MOSI * bit;
      PortbWrite(low);
      PortbWrite(low + SPI_CLK);
      Pins(pins);
      received := if Has(pins, SPI_MISO) then 1 else 0;
      PortbWrite(low);
    }

    method TransferByte(b: Byte) returns (received: Byte)
      requires Aligned() && card.State().Valid()
      modifies this, card
      ensures Aligned() && card.State().Valid()
      ensures received == Sent(old(card.State())) && card.State() == Exchanged(old(card.State()), b)
    {
      hide Bit, Rise, Get, Put, ShiftedOut, ShiftBit;
      ghost var s := Shifts();
      ghost var g := Sent(s.card);
      received := 0;
      for k := 0 to 8
        invariant !clkState && Shifts().Valid() && Shifts() == RiseBits(s, b, k) && received == ShiftedIn(g, k)
      {
        var bit := TransferBit(Bit(b, k));
        BitsSoFar(s, b, k + 1);
        TopBit(g, k);
        received := ShiftBit(received, bit);
      }
      BitsSoFar(s, b, 8);
      ShiftIn(g, 8);
    }

    // With the card selected throughout, the card gets just the bytes that are clocked out
    // and the master just those that the card sends.
    method Transfer(bytes: seq<Byte>) returns (received: seq<Byte>)
      requires Aligned() && card.State().Valid()
      modifies this, card
      ensures Aligned() && card.State() == After(old(card.State()), bytes)
      ensures received == Response(old(card.State()), bytes)
    {
      hide Sent, Exchanged;
      received := [];
      for i := 0 to |bytes|
        invariant Aligned() && card.State().Valid() && card.State() == After(old(card.State()), bytes[..i])
        invariant received == Response(old(card.State()), bytes[..i])
      {
        assert bytes[..i + 1][..i] == bytes[..i];
        var r := TransferByte(bytes[i]);
        received := received + [r];
      }
      assert bytes[..|bytes|] == bytes;
    }

    // Takes a card that has just been powered up, bit by bit, to where blocks can be read: CMD0, and
    // then CMD55 and ACMD41 six times.
    method BringUp()
      requires Aligned() && Waits(card.State(), SdMode, false, 0)
      modifies this, card
      ensures Aligned() && Waits(card.State(), Ready, false, 6)
    {
      hide After, Response;
      var reset: seq<Byte> := [0x40, 0, 0, 0, 0, 0x95, 0xFF];
      Resets(card.State(), reset, 0x40, 0);
      var _ := Transfer(reset);
      var rounds := AskRounds(6);
      Initialises(card.State(), rounds, 6);
      var _ := Transfer(rounds);
    }

    // So a block is read through the port bit by bit.
    method ReadBlockBits(block: nat) returns (data: seq<Byte>)
      requires Aligned() && card.State().Valid() && block < 0x1_0000_0000
      requires card.State().cmdState == Idle && card.State().cardState == Ready && !card.State().acmdPending
      requires 512 * (block + 1) <= |card.image|
      modifies this, card
      ensures Aligned() && data == [0x00, 0xFF, 0xFE] + card.image[512 * block..512 * (block + 1)] + [0x00, 0x00]
      ensures card.State().Valid() && card.cmdState == Idle && card.cardState == Ready && !card.acmdPending
    {
      hide After, Response, BlockNumber;
      var cmd := ReadCommand(block);
      var fill: seq<Byte> := seq(BLOCK + 5, _ => 0xFF);
      ReadBlock(card.State(), cmd, block, fill);
      var received := Transfer(cmd + fill);
      data := received[6..];
    }
  }

  // CMD55 and ACMD41, n times, with a byte after each to take the answer.
  method AskRounds(n: nat) returns (bytes: seq<Byte>)
    ensures Rounds(bytes, n)
  {
    bytes := [];
    var ask: seq<Byte> := [0x77, 0, 0, 0, 0, 0xFF, 0xFF, 0x69, 0, 0, 0, 0, 0xFF, 0xFF];
    for i := 0 to n
      invariant Rounds(bytes, i)
    {
      ghost var was := bytes;
      bytes := bytes + ask;
      assert bytes[14 * i..14 * i + 7] == ask[..7] && bytes[14 * i + 7..14 * i + 14] == ask[7..];
      forall k | 0 <= k < i
        ensures bytes[14 * k..14 * k + 7] == was[14 * k..14 * k + 7]
        ensures bytes[14 * k + 7..14 * k + 14] == was[14 * k + 7..14 * k + 14]
      {
      }
    }
  }

  // CMD17 with a block number.
  function ReadCommand(block: nat): (cmd: seq<Byte>)
    requires block < 0x1_0000_0000
    ensures |cmd| == 6 && cmd[0] == 0x51 && Names(cmd, block)
  {
    var b0, b1, b2 := block / 0x100, block / 0x1_0000, block / 0x100_0000;
    assert b1 == b0 / 0x100 && b2 == b1 / 0x100;
    [CMD17, b2, b1 % 0x100, b0 % 0x100, block % 0x100, 0xFF]
  }
}

// The AT28C256 EEPROM: page loads, write cycles and software data protection, by the
// nanosecond.
module Eeprom {

  import opened Words

  const T_BLC := 150_000
  const T_WC := 10_000_000
  const PAGE_SIZE := 64
  const IMAGE_SIZE := 0x8000

  datatype WriteState = Idle | Sdp | SdpWriteEn | ByteLoad | WriteCycle
  datatype SeqState = SeqIdle | Sdp0 | Sdp1 | SdpDis80 | SdpDisAA | SdpDis55

  // Everything the device remembers; the mask has the places of the page buffer in use.
  datatype Chip = Chip(image: seq<Byte>, sdpEnabled: bool, writesEnabled: bool,
                       pageBuffer: seq<Byte>, pageMask: set<nat>, pageAddr: nat,
                       lastWrite: Byte, lastAddr: Addr,
                       state: WriteState, seqState: SeqState, elapsed: nat) {

    predicate Blocked() {
      sdpEnabled && !writesEnabled
    }

    // Writes are let through for the time of one load and write cycle only.
    predicate Valid() {
      && |image| == IMAGE_SIZE && |pageBuffer| == PAGE_SIZE
      && (forall i :: i in pageMask ==> i < PAGE_SIZE)
      && pageAddr % PAGE_SIZE == 0 && pageAddr < IMAGE_SIZE
      && (state == Sdp <==> seqState != SeqIdle)
      && (state.Sdp? || state.SdpWriteEn? || state.ByteLoad? ==> elapsed < T_BLC)
      && (state == WriteCycle ==> elapsed < T_WC)
      && (writesEnabled ==> state.SdpWriteEn? || state.ByteLoad? || state.WriteCycle?)
    }
  }

  function PageOf(addr: nat): nat {
    addr - addr % PAGE_SIZE
  }

  // A write to the page buffer; once an SDP sequence is past its first write there is none.
  function PageWrite(c: Chip, addr: nat, val: Byte): Chip
    requires |c.pageBuffer| == PAGE_SIZE
  {
    var d := c.(elapsed := 0);
    if d.seqState == SeqIdle || d.seqState == Sdp0 then
      d.(pageMask := d.pageMask + {addr % PAGE_SIZE}, pageBuffer := d.pageBuffer[addr % PAGE_SIZE := val])
    else d
  }

  // The write that takes an SDP sequence on.  The one that says enable or disable may go
  // to any address.
  predicate Expected(s: SeqState, addr: nat, val: Byte) {
    match s
    case SeqIdle => addr == 0x5555 && val == 0xAA
    case Sdp0 => addr == 0x2AAA && val == 0x55
    case Sdp1 => val == 0xA0 || val == 0x80
    case SdpDis80 => addr == 0x5555 && val == 0xAA
    case SdpDisAA => addr == 0x2AAA && val == 0x55
    case SdpDis55 => addr == 0x5555 && val == 0x20
  }

  function NextSeq(s: SeqState): SeqState {
    match s
    case SeqIdle => Sdp0
    case Sdp0 => Sdp1
    case Sdp1 => SdpDis80
    case SdpDis80 => SdpDisAA
    case SdpDisAA => SdpDis55
    case SdpDis55 => SeqIdle
  }

  function SdpWrite(c: Chip, addr: nat, val: Byte): Chip {
    if !Expected(c.seqState, addr, val) then c.(elapsed := 0, seqState := SeqIdle, state := Idle)
    else if c.seqState == Sdp1 && val == 0xA0 then
      c.(elapsed := 0, sdpEnabled := true, writesEnabled := true, pageMask := {}, state := SdpWriteEn,
         seqState := SeqIdle)
    else if c.seqState == SdpDis55 then
      c.(elapsed := 0, sdpEnabled := false, pageMask := {}, state := SdpWriteEn, seqState := SeqIdle)
    else c.(elapsed := 0, seqState := NextSeq(c.seqState))
  }

  // A write, to an address in the image.
  function Written(c: Chip, addr: nat, val: Byte): Chip
    requires c.Valid() && addr < IMAGE_SIZE
  {
    match c.state
    case Idle =>
      var d := if addr == 0x5555 && val == 0xAA then c.(seqState := Sdp0, state := Sdp) else c.(state := ByteLoad);
      PageWrite(d.(pageMask := {}, pageAddr := PageOf(addr)), addr, val).(lastAddr := addr, lastWrite := val)
    case Sdp =>
      if !Expected(c.seqState, addr, val) then SdpWrite(c, addr, val)
      else SdpWrite(c, addr, val).(lastAddr := addr, lastWrite := val)
    case SdpWriteEn =>
      PageWrite(c.(pageMask := {}, pageAddr := PageOf(addr), state := ByteLoad), addr, val)
        .(lastAddr := addr, lastWrite := val)
    case ByteLoad =>
      if c.pageAddr != PageOf(addr) then c
      else PageWrite(c, addr, val).(lastAddr := addr, lastWrite := val)
    case WriteCycle => c.(lastAddr := addr, lastWrite := val)
  }

  // The image with the masked places of a page buffer put in at a page.
  function Burnt(image: seq<Byte>, page: nat, buffer: seq<Byte>, mask: set<nat>): (r: seq<Byte>)
    requires |buffer| == PAGE_SIZE
    ensures |r| == |image|
  {
    seq(|image|, a requires 0 <= a < |image| =>
      if page <= a < page + PAGE_SIZE && a - page in mask then buffer[a - page] else image[a])
  }

  // The end of the write cycle.
  function Burn(c: Chip): Chip
    requires |c.pageBuffer| == PAGE_SIZE
  {
    c.(image := if c.Blocked() then c.image else Burnt(c.image, c.pageAddr, c.pageBuffer, c.pageMask),
       writesEnabled := false, state := Idle, elapsed := 0)
  }

  // How long the state lasts, if nothing is written.
  function Limit(s: WriteState): nat {
    if s == WriteCycle then T_WC else T_BLC
  }

  // What follows it.
  function Expire(c: Chip): Chip
    requires |c.pageBuffer| == PAGE_SIZE
  {
    if c.state == WriteCycle then Burn(c)
    else c.(state := WriteCycle, seqState := SeqIdle, elapsed := 0)
  }

  function Ticked(c: Chip, nanos: nat): (d: Chip)
    requires c.Valid()
    ensures d.Valid()
    decreases nanos
  {
    if nanos == 0 || c.state == Idle then c
    else if c.elapsed + nanos >= Limit(c.state) then Ticked(Expire(c), nanos - (Limit(c.state) - c.elapsed))
    else c.(elapsed := c.elapsed + nanos)
  }

  lemma ExpireKeeps(c: Chip)
    requires c.Valid()
    ensures Expire(c).Valid()
  {
  }

  lemma WriteKeeps(c: Chip, addr: nat, val: Byte)
    requires c.Valid() && addr < IMAGE_SIZE
    ensures Written(c, addr, val).Valid() && Written(c, addr, val).image == c.image
  {
    var m := addr % PAGE_SIZE;
    assert PageOf(addr) % PAGE_SIZE == 0;
  }

  // How long it takes, without writes, until what was loaded is in the image.
  function Remaining(c: Chip): int {
    if c.state == WriteCycle then T_WC - c.elapsed else T_BLC - c.elapsed + T_WC
  }

  // Time adds up: it makes no difference how it is divided into ticks.
  lemma {:induction false} TicksAdd(c: Chip, a: nat, b: nat)
    requires c.Valid()
    ensures Ticked(c, a + b) == Ticked(Ticked(c, a), b)
    decreases a
  {
    if a > 0 && c.state != Idle {
      var left := Limit(c.state) - c.elapsed;
      if a >= left {
        TicksAdd(Expire(c), a - left, b);
      } else if b >= left - a {
        assert a + b - left == b - (left - a);
      }
    }
  }

  // The image changes when the write cycle ends and not before, only if the load was not
  // blocked, and only in the page that was loaded, at the places that were written.
  lemma ImageChanges(c: Chip, nanos: nat)
    requires c.Valid()
    ensures Ticked(c, nanos).image ==
            if c.state != Idle && nanos >= Remaining(c) && !c.Blocked()
            then Burnt(c.image, c.pageAddr, c.pageBuffer, c.pageMask) else c.image
    ensures c.state != Idle && nanos >= Remaining(c) ==>
      Ticked(c, nanos).state == Idle && !Ticked(c, nanos).writesEnabled
    ensures Ticked(c, nanos).sdpEnabled == c.sdpEnabled
    ensures Ticked(c, nanos).writesEnabled ==> c.writesEnabled
  {
    if nanos > 0 && c.state != Idle && c.elapsed + nanos >= Limit(c.state) && c.state != WriteCycle {
      var d := Expire(c);
      var rest := nanos - (T_BLC - c.elapsed);
      if rest > 0 && rest >= T_WC {
        assert Ticked(d, rest) == Ticked(Burn(d), rest - T_WC);
      }
    }
  }

  // What can happen to the device.
  datatype Op = Write(addr: Addr, val: Byte) | Tick(nanos: nat) | Read(addr: Addr) | SetSdp(enable: bool)

  function Toggle6(b: Byte): Byte {
    if b % 0x80 >= 0x40 then b - 0x40 else b + 0x40
  }

  function Complement7(b: Byte): Byte {
    if b >= 0x80 then b - 0x80 else b + 0x80
  }

  // The value read and what reading does: during a load or a write cycle the address last
  // written to reads as the complement in bit 7, and toggling in bit 6.
  function ReadValue(c: Chip, addr: Addr): Byte
    requires c.Valid()
  {
    if c.state != Idle && addr == c.lastAddr then Complement7(Toggle6(c.lastWrite))
    else c.image[addr % IMAGE_SIZE]
  }

  function AfterRead(c: Chip, addr: Addr): Chip {
    if c.state != Idle && addr == c.lastAddr then c.(lastWrite := Toggle6(c.lastWrite)) else c
  }

  function AfterSetSdp(c: Chip, enable: bool): Chip {
    if c.state != Idle then c else c.(sdpEnabled := enable)
  }

  function Apply(c: Chip, op: Op): (d: Chip)
    requires c.Valid()
    ensures d.Valid()
  {
    match op
    case Write(addr, val) => WriteKeeps(c, addr % IMAGE_SIZE, val); Written(c, addr % IMAGE_SIZE, val)
    case Tick(nanos) => Ticked(c, nanos)
    case Read(addr) => AfterRead(c, addr)
    case SetSdp(enable) => AfterSetSdp(c, enable)
  }

  function Run(c: Chip, ops: seq<Op>): (d: Chip)
    requires c.Valid()
    ensures d.Valid()
  {
    if ops == [] then c else Apply(Run(c, ops[..|ops| - 1]), ops[|ops| - 1])
  }

  // The write that completes an enable or a disable sequence.
  predicate Completes(c: Chip, op: Op) {
    op.Write? && c.state == Sdp && Expected(c.seqState, op.addr % IMAGE_SIZE, op.val)
    && ((c.seqState == Sdp1 && op.val == 0xA0) || c.seqState == SdpDis55)
  }

  // What completes a sequence protects the image just if it says A0, and lets one load through.
  lemma SequenceSets(c: Chip, op: Op)
    requires c.Valid() && Completes(c, op)
    ensures var d := Apply(c, op);
      && d.state == SdpWriteEn && d.image == c.image && d.elapsed == 0 && !d.Blocked()
      && (d.sdpEnabled <==> op.val == 0xA0) && (op.val == 0xA0 ==> d.writesEnabled)
  {
  }

  // Left alone for 10.15 milliseconds, the image is then protected, or not, and as it was.
  lemma SequenceHolds(c: Chip, op: Op, quiet: nat)
    requires c.Valid() && Completes(c, op) && quiet >= 10_150_000
    ensures var d := Ticked(Apply(c, op), quiet);
      d.state == Idle && d.image == c.image && (d.Blocked() <==> op.val == 0xA0)
  {
    SequenceSets(c, op);
    ImageChanges(Apply(c, op), quiet);
    assert Apply(c, op).pageMask == {};
  }

  // The switch works while the device is idle, and only then.
  lemma SwitchSets(c: Chip, enable: bool)
    requires c.Valid()
    ensures Apply(c, SetSdp(enable)) == if c.state == Idle then c.(sdpEnabled := enable) else c
  {
  }

  // The only ways past protection.
  predicate Unlocks(c: Chip, op: Op) {
    Completes(c, op) || (op == SetSdp(false) && c.state == Idle)
  }

  lemma StaysProtected(c: Chip, op: Op)
    requires c.Valid() && c.Blocked() && !Unlocks(c, op)
    ensures Apply(c, op).Blocked() && Apply(c, op).image == c.image
  {
    match op
    case Write(addr, val) => WriteKeeps(c, addr % IMAGE_SIZE, val);
    case Tick(nanos) => ImageChanges(c, nanos);
    case Read(_) =>
    case SetSdp(_) =>
  }

  // A protected image stays as it is through any run in which nothing unlocks it.
  lemma {:induction false} ProtectedRun(c: Chip, ops: seq<Op>)
    requires c.Valid() && c.Blocked()
    requires forall k :: 0 <= k < |ops| ==> !Unlocks(Run(c, ops[..k]), ops[k])
    ensures Run(c, ops).Blocked() && Run(c, ops).image == c.image
  {
    if ops != [] {
      var before := ops[..|ops| - 1];
      assert forall k :: 0 <= k < |before| ==> before[..k] == ops[..k];
      ProtectedRun(c, before);
      StaysProtected(Run(c, before), ops[|ops| - 1]);
    }
  }

  // The writes of the sequence the device is in.
  function SequenceWrites(c: Chip, ops: seq<Op>): seq<(nat, Byte)>
    requires c.Valid()
  {
    if ops == [] || Run(c, ops).state != Sdp then []
    else
      var op := ops[|ops| - 1];
      SequenceWrites(c, ops[..|ops| - 1]) + if op.Write? then [(op.addr % IMAGE_SIZE, op.val)] else []
  }

  function Place(s: SeqState): nat {
    match s
    case SeqIdle => 0 case Sdp0 => 1 case Sdp1 => 2 case SdpDis80 => 3 case SdpDisAA => 4 case SdpDis55 => 5
  }

  // What must have been written, and nothing else, to be in a state of the sequence.
  ghost predicate IsPrefix(writes: seq<(nat, Byte)>, s: SeqState) {
    && |writes| == Place(s)
    && (|writes| > 0 ==> writes[0] == (0x5555, 0xAA))
    && (|writes| > 1 ==> writes[1] == (0x2AAA, 0x55))
    && (|writes| > 2 ==> writes[2].1 == 0x80)
    && (|writes| > 3 ==> writes[3] == (0x5555, 0xAA))
    && (|writes| > 4 ==> writes[4] == (0x2AAA, 0x55))
  }

  lemma {:induction false} SequenceIsWritten(c: Chip, ops: seq<Op>)
    requires c.Valid() && c.state != Sdp
    ensures Run(c, ops).state == Sdp ==> IsPrefix(SequenceWrites(c, ops), Run(c, ops).seqState)
  {
    if ops != [] {
      var before, op := ops[..|ops| - 1], ops[|ops| - 1];
      SequenceIsWritten(c, before);
      if Run(c, ops).state == Sdp {
        SequenceStep(Run(c, before), op);
      }
    }
  }

  // One step stays in, enters or takes on a sequence, or the device is in none afterwards.
  lemma SequenceStep(c: Chip, op: Op)
    requires c.Valid() && Apply(c, op).state == Sdp
    ensures op.Write? ==> Expected(c.seqState, op.addr % IMAGE_SIZE, op.val)
    ensures op.Write? ==> Apply(c, op).seqState == NextSeq(c.seqState) && !Completes(c, op)
    ensures !op.Write? ==> c.state == Sdp && Apply(c, op).seqState == c.seqState
    ensures c.state != Sdp ==> c.state == Idle && c.seqState == SeqIdle
  {
    if op.Tick? {
      TickInSequence(c, op.nanos);
    }
  }

  // Only writes take a device into a sequence, and time either leaves it there or ends it.
  lemma {:induction false} TickInSequence(c: Chip, nanos: nat)
    requires c.Valid()
    ensures Ticked(c, nanos).state == Sdp ==> c.state == Sdp && Ticked(c, nanos).seqState == c.seqState
    decreases nanos
  {
    if nanos > 0 && c.state != Idle && c.elapsed + nanos >= Limit(c.state) {
      TickInSequence(Expire(c), nanos - (Limit(c.state) - c.elapsed));
    }
  }

  // So what completes a sequence is the last of three writes, or of six, each the one the
  // sequence asks for and none left out or put in between.
  lemma CompleteSequence(c: Chip, ops: seq<Op>, op: Op)
    requires c.Valid() && c.state != Sdp && Completes(Run(c, ops), op)
    ensures var w := SequenceWrites(c, ops) + [(op.addr % IMAGE_SIZE, op.val)];
      && w[0] == (0x5555, 0xAA) && w[1] == (0x2AAA, 0x55)
      && ((|w| == 3 && w[2].1 == 0xA0) ||
          (|w| == 6 && w[2].1 == 0x80 && w[3] == (0x5555, 0xAA) && w[4] == (0x2AAA, 0x55) && w[5] == (0x5555, 0x20)))
  {
    SequenceIsWritten(c, ops);
  }

  // A write of a load, and the time until the next.
  datatype Load = Load(addr: nat, val: Byte, gap: nat)

  // Pages are of 64 bytes, and after 150 microseconds without a write a load is over.
  ghost predicate OnePage(loads: seq<Load>, page: nat) {
    page % 64 == 0 && forall i :: 0 <= i < |loads| ==>
      loads[i].addr < 0x8000 && loads[i].addr / 64 == page / 64 && loads[i].gap < 150_000
  }

  lemma PageIs(addr: nat, page: nat)
    requires page % 64 == 0 && addr / 64 == page / 64
    ensures PageOf(addr) == page
  {
  }

  function Loaded(c: Chip, loads: seq<Load>): (d: Chip)
    requires c.Valid() && forall i :: 0 <= i < |loads| ==> loads[i].addr < IMAGE_SIZE
    ensures d.Valid()
  {
    if loads == [] then c
    else
      var last := loads[|loads| - 1];
      var before := Loaded(c, loads[..|loads| - 1]);
      WriteKeeps(before, last.addr, last.val);
      Ticked(Written(before, last.addr, last.val), last.gap)
  }

  // The last value written to each address.
  function Overlaid(image: seq<Byte>, loads: seq<Load>): (r: seq<Byte>)
    requires forall i :: 0 <= i < |loads| ==> loads[i].addr < |image|
    ensures |r| == |image|
  {
    if loads == [] then image
    else Overlaid(image, loads[..|loads| - 1])[loads[|loads| - 1].addr := loads[|loads| - 1].val]
  }

  // Ready for a load that will not be blocked: idle and unprotected, or just after an
  // enable or disable sequence.
  ghost predicate Ready(c: Chip, loads: seq<Load>) {
    && c.Valid() && !c.Blocked() && loads != []
    && (c.state == SdpWriteEn || (c.state == Idle && !(loads[0].addr == 0x5555 && loads[0].val == 0xAA)))
  }

  lemma {:induction false} LoadedSoFar(c: Chip, loads: seq<Load>, page: nat)
    requires Ready(c, loads) && OnePage(loads, page)
    ensures var d := Loaded(c, loads);
      && d.state == ByteLoad && d.pageAddr == page && d.image == c.image && !d.Blocked()
      && Burnt(d.image, page, d.pageBuffer, d.pageMask) == Overlaid(c.image, loads)
  {
    var n := |loads| - 1;
    var last, before := loads[n], Loaded(c, loads[..n]);
    PageIs(last.addr, page);
    if n > 0 {
      assert loads[..n][0] == loads[0];
      LoadedSoFar(c, loads[..n], page);
    }
    LoadOne(before, last, page);
    assert n == 0 ==> Overlaid(c.image, loads[..n]) == c.image;
  }

  // One more write to the page, or the first.
  lemma LoadOne(c: Chip, load: Load, page: nat)
    requires c.Valid() && !c.Blocked() && load.addr < IMAGE_SIZE && PageOf(load.addr) == page && load.gap < T_BLC
    requires (c.state == ByteLoad && c.pageAddr == page) || c.state == SdpWriteEn ||
             (c.state == Idle && !(load.addr == 0x5555 && load.val == 0xAA))
    ensures Written(c, load.addr, load.val).Valid()
    ensures var d := Ticked(Written(c, load.addr, load.val), load.gap);
      && d.state == ByteLoad && d.pageAddr == page && d.image == c.image && !d.Blocked()
      && Burnt(d.image, page, d.pageBuffer, d.pageMask) ==
         (if c.state == ByteLoad then Burnt(c.image, page, c.pageBuffer, c.pageMask) else c.image)
           [load.addr := load.val]
  {
    WriteKeeps(c, load.addr, load.val);
    var w := Written(c, load.addr, load.val);
    assert w.elapsed == 0 && w.state == ByteLoad;
    assert load.addr == page + load.addr % PAGE_SIZE;
  }

  // A load of one page, with less than 150 microseconds between the writes: 10.15 milliseconds
  // after the last one, and not before, the image is the old one with the last value written to
  // each address.
  lemma BurstIsWritten(c: Chip, loads: seq<Load>, page: nat, quiet: nat)
    requires Ready(c, loads) && OnePage(loads, page)
    ensures var passed := loads[|loads| - 1].gap + quiet;
      && Ticked(Loaded(c, loads), quiet).image == (if passed < 10_150_000 then c.image else Overlaid(c.image, loads))
      && (Ticked(Loaded(c, loads), quiet).state == Idle <==> passed >= 10_150_000)
  {
    LoadedSoFar(c, loads, page);
    ImageChanges(Loaded(c, loads), quiet);
    JustLoaded(c, loads, page);
    BusyUntil(Loaded(c, loads), quiet);
  }

  lemma JustLoaded(c: Chip, loads: seq<Load>, page: nat)
    requires Ready(c, loads) && OnePage(loads, page)
    ensures Loaded(c, loads).elapsed == loads[|loads| - 1].gap
  {
    var n := |loads| - 1;
    PageIs(loads[n].addr, page);
    if n > 0 {
      assert loads[..n][0] == loads[0];
      LoadedSoFar(c, loads[..n], page);
    }
  }

  lemma BusyUntil(c: Chip, quiet: nat)
    requires c.Valid() && c.state != Idle
    ensures Ticked(c, quiet).state == Idle <==> quiet >= Remaining(c)
  {
    ImageChanges(c, quiet);
    if c.state != WriteCycle && c.elapsed + quiet >= T_BLC {
      assert quiet - (T_BLC - c.elapsed) < T_WC ==>
        Ticked(Expire(c), quiet - (T_BLC - c.elapsed)).state == WriteCycle;
    }
  }

  // Over any run, an image byte differs after a step only if that step ended a write cycle
  // that was not blocked, and only if it lies in the loaded page and was loaded.
  lemma ChangesAreLoads(c: Chip, op: Op, a: nat)
    requires c.Valid() && a < IMAGE_SIZE && Apply(c, op).image[a] != c.image[a]
    ensures op.Tick? && c.state != Idle && op.nanos >= Remaining(c) && !c.Blocked()
    ensures c.pageAddr <= a < c.pageAddr + PAGE_SIZE && a - c.pageAddr in c.pageMask
    ensures Apply(c, op).image[a] == c.pageBuffer[a - c.pageAddr]
  {
    if op.Tick? {
      ImageChanges(c, op.nanos);
    } else if op.Write? {
      WriteKeeps(c, op.addr % IMAGE_SIZE, op.val);
    }
  }

  // Polling during a load or a write cycle: each read shows the complement of bit 7 and the
  // other value of bit 6, and two reads leave the device as it was.
  lemma PollingToggles(c: Chip, addr: Addr)
    requires c.Valid() && c.state != Idle && addr == c.lastAddr
    ensures var once := AfterRead(c, addr);
      && ReadValue(once, addr) == Toggle6(ReadValue(c, addr)) != ReadValue(c, addr)
      && (ReadValue(c, addr) >= 0x80 <==> c.lastWrite < 0x80)
      && AfterRead(once, addr) == c
      && ReadValue(c, addr) % 0x40 == c.lastWrite % 0x40
      && ReadValue(c, addr) / 0x40 % 2 != c.lastWrite / 0x40 % 2
  {
    assert Toggle6(Toggle6(c.lastWrite)) == c.lastWrite;
  }

  // The writes of the enable and of the disable sequence; the third may go to any address.
  ghost predicate Spaced(loads: seq<Load>) {
    forall i :: 0 <= i < |loads| ==> loads[i].addr < 0x8000 && loads[i].gap < 150_000
  }

  ghost predicate Opens(loads: seq<Load>, k: nat) {
    && k + 2 <= |loads| && loads[k].addr == 0x5555 && loads[k].val == 0xAA
    && loads[k + 1].addr == 0x2AAA && loads[k + 1].val == 0x55
  }

  ghost predicate SaysEnable(loads: seq<Load>) {
    Spaced(loads) && |loads| == 3 && Opens(loads, 0) && loads[2].val == 0xA0
  }

  ghost predicate SaysDisable(loads: seq<Load>) {
    && Spaced(loads) && |loads| == 6 && Opens(loads, 0) && loads[2].val == 0x80 && Opens(loads, 3)
    && loads[5].addr == 0x5555 && loads[5].val == 0x20
  }

  // One more write the sequence asks for.
  lemma NextInSequence(c: Chip, load: Load)
    requires c.Valid() && (c.state == Sdp || c.state == Idle) && load.addr < 0x8000 && load.gap < 150_000
    requires Expected(c.seqState, load.addr, load.val)
    ensures Written(c, load.addr, load.val).Valid()
    ensures var d := Ticked(Written(c, load.addr, load.val), load.gap);
      if (c.seqState == Sdp1 && load.val == 0xA0) || c.seqState == SdpDis55 then
        && d.state == SdpWriteEn && d.image == c.image && (d.sdpEnabled <==> c.seqState == Sdp1)
        && d.writesEnabled == (c.writesEnabled || c.seqState == Sdp1)
      else
        && d.state == Sdp && d.seqState == NextSeq(c.seqState) && d.image == c.image
        && d.writesEnabled == c.writesEnabled
  {
    WriteKeeps(c, load.addr, load.val);
  }

  lemma {:induction false} InSequence(c: Chip, loads: seq<Load>, k: nat)
    requires c.Valid() && c.state == Idle && Spaced(loads) && 1 <= k <= |loads| && Opens(loads, 0)
    requires k <= 2 || (k <= 5 && SaysDisable(loads))
    ensures var d := Loaded(c, loads[..k]);
      && d.state == Sdp && d.image == c.image && !d.writesEnabled
      && d.seqState == match k case 1 => Sdp0 case 2 => Sdp1 case 3 => SdpDis80 case 4 => SdpDisAA case _ => SdpDis55
  {
    hide Ticked, Written;
    var before := loads[..k][..k - 1];
    assert before == loads[..k - 1];
    if k > 1 {
      InSequence(c, loads, k - 1);
    } else {
      assert Loaded(c, before) == c;
    }
    NextInSequence(Loaded(c, before), loads[k - 1]);
  }

  // The enable sequence protects an idle chip, whether it was protected before or not, and the
  // disable sequence ends that; both let the load that follows through.
  lemma Enables(c: Chip, loads: seq<Load>)
    requires c.Valid() && c.state == Idle && SaysEnable(loads)
    ensures var d := Loaded(c, loads);
      d.state == SdpWriteEn && d.sdpEnabled && d.writesEnabled && d.image == c.image
  {
    hide Ticked, Written;
    InSequence(c, loads, 2);
    NextInSequence(Loaded(c, loads[..2]), loads[2]);
  }

  lemma Disables(c: Chip, loads: seq<Load>)
    requires c.Valid() && c.state == Idle && SaysDisable(loads)
    ensures var d := Loaded(c, loads); d.state == SdpWriteEn && !d.sdpEnabled && d.image == c.image
  {
    hide Ticked, Written;
    InSequence(c, loads, 5);
    NextInSequence(Loaded(c, loads[..5]), loads[5]);
  }

  // A write that the sequence does not ask for ends it, and is not remembered.
  lemma BreaksSequence(c: Chip, addr: Addr, val: Byte)
    requires c.Valid() && c.state == Sdp && !Expected(c.seqState, addr % 0x8000, val)
    ensures Apply(c, Write(addr, val)) == c.(elapsed := 0, seqState := SeqIdle, state := Idle)
  {
  }

  // If nothing follows the first write of a sequence it was a load of one byte.
  lemma Abandoned(c: Chip, quiet: nat)
    requires c.Valid() && c.state == Idle && !c.Blocked() && quiet >= 10_150_000
    ensures Ticked(Written(c, 0x5555, 0xAA), quiet).image == c.image[0x5555 := 0xAA]
  {
    WriteKeeps(c, 0x5555, 0xAA);
    ImageChanges(Written(c, 0x5555, 0xAA), quiet);
  }

  // Any other read is of the image, whose 32 kilobytes repeat, and changes nothing.
  lemma ImageReads(c: Chip, addr: Addr)
    requires c.Valid() && (c.state == Idle || addr != c.lastAddr)
    ensures ReadValue(c, addr) == c.image[addr % 0x8000] && AfterRead(c, addr) == c
  {
  }

  // During a load a write to another page is ignored, and during a write cycle any write, but
  // for what polling shows.
  lemma OtherPageIgnored(c: Chip, addr: Addr, val: Byte)
    requires c.Valid() && c.state == ByteLoad && addr % 0x8000 / 64 != c.pageAddr / 64
    ensures Apply(c, Write(addr, val)) == c
  {
  }

  lemma BusyIgnores(c: Chip, addr: Addr, val: Byte)
    requires c.Valid() && c.state == WriteCycle
    ensures Apply(c, Write(addr, val)) == c.(lastAddr := addr % 0x8000, lastWrite := val)
  {
  }

  class At28c256 {
    const image: array<Byte>
    const pageBuffer: array<Byte>
    var sdpEnabled: bool
    var writesEnabled: bool
    var pageMask: set<nat>
    var pageAddr: nat
    var lastWrite: Byte
    var lastAddr: Addr
    var state: WriteState
    var seqState: SeqState
    var elapsed: nat

    constructor (enableSdp: bool)
      ensures Valid() && fresh(image) && fresh(pageBuffer)
      ensures State().state == Idle && State().sdpEnabled == enableSdp && State().image == seq(IMAGE_SIZE, _ => 0)
    {
      image := new Byte[IMAGE_SIZE](_ => 0);
      pageBuffer := new Byte[PAGE_SIZE](_ => 0);
      sdpEnabled, writesEnabled := enableSdp, false;
      pageMask, pageAddr := {}, 0;
      lastWrite, lastAddr := 0, 0;
      state, seqState, elapsed := Idle, SeqIdle, 0;
    }

    function State(): Chip
      reads this, image, pageBuffer
    {
      Chip(image[..], sdpEnabled, writesEnabled, pageBuffer[..], pageMask, pageAddr, lastWrite, lastAddr,
           state, seqState, elapsed)
    }

    ghost predicate Valid()
      reads this, image, pageBuffer
    {
      image != pageBuffer && State().Valid()
    }

    method HandlePageWrite(addr: nat, val: Byte)
      requires pageBuffer.Length == PAGE_SIZE && image != pageBuffer
      modifies `elapsed, `pageMask, pageBuffer
      ensures State() == PageWrite(old(State()), addr, val)
    {
      elapsed := 0;
      if seqState == SeqIdle || seqState == Sdp0 {
        pageMask := pageMask + {addr % PAGE_SIZE};
        pageBuffer[addr % PAGE_SIZE] := val;
      }
    }

    // A write while the device is in an SDP sequence; false if it breaks the sequence.
    method HandleSdpWrite(addr: nat, val: Byte) returns (ok: bool)
      modifies `elapsed, `seqState, `state, `sdpEnabled, `writesEnabled, `pageMask
      ensures State() == SdpWrite(old(State()), addr, val)
      ensures ok == old(Expected(seqState, addr, val))
    {
      elapsed := 0;
      ok := Expected(seqState, addr, val);
      if ok {
        if seqState == Sdp1 && val == 0xA0 {
          sdpEnabled, writesEnabled := true, true;
          pageMask := {};
          state, seqState := SdpWriteEn, SeqIdle;
        } else if seqState == SdpDis55 {
          sdpEnabled := false;
          state, seqState := SdpWriteEn, SeqIdle;
          pageMask := {};
        } else {
          seqState := NextSeq(seqState);
        }
      } else {
        seqState, state := SeqIdle, Idle;
      }
    }

    method Write(address: Addr, val: Byte)
      requires Valid()
      modifies this, pageBuffer
      ensures Valid() && State() == Apply(old(State()), Op.Write(address, val))
    {
      WriteKeeps(State(), address % IMAGE_SIZE, val);
      WriteLocal(address % IMAGE_SIZE, val);
    }

    method WriteLocal(addr: nat, val: Byte)
      requires Valid() && addr < IMAGE_SIZE
      modifies this, pageBuffer
      ensures State() == Written(old(State()), addr, val)
    {
      hide PageWrite, SdpWrite, PageOf, Expected;
      if state == Sdp {
        var ok := HandleSdpWrite(addr, val);
        if !ok {
          return;
        }
      } else if state == ByteLoad {
        if pageAddr != PageOf(addr) {
          return;
        }
        HandlePageWrite(addr, val);
      } else if state == Idle || state == SdpWriteEn {
        if state == Idle && addr == 0x5555 && val == 0xAA {
          seqState, state := Sdp0, Sdp;
        } else {
          state := ByteLoad;
        }
        pageMask, pageAddr := {}, PageOf(addr);
        HandlePageWrite(addr, val);
      }
      lastAddr, lastWrite := addr, val;
    }

    method Read(addr: Addr) returns (val: Byte)
      requires Valid()
      modifies `lastWrite
      ensures val == ReadValue(old(State()), addr)
      ensures Valid() && State() == Apply(old(State()), Op.Read(addr))
    {
      if state != Idle && addr == lastAddr {
        lastWrite := Toggle6(lastWrite);
        return Complement7(lastWrite);
      }
      return image[addr % IMAGE_SIZE];
    }

    // Puts the loaded places of the page into the image.
    method WritePage()
      requires Valid()
      modifies image
      ensures image[..] == Burnt(old(image[..]), pageAddr, pageBuffer[..], pageMask)
    {
      for i := 0 to PAGE_SIZE
        invariant forall a :: 0 <= a < IMAGE_SIZE ==>
          image[a] == if pageAddr <= a < pageAddr + i && a - pageAddr in pageMask then pageBuffer[a - pageAddr]
                      else old(image[a])
      {
        if i in pageMask {
          image[pageAddr + i] := pageBuffer[i];
        }
      }
    }

    // The load or the write cycle is over.
    method EndState()
      requires Valid() && state != Idle
      modifies `state, `seqState, `elapsed, `writesEnabled, image
      ensures State() == Expire(old(State()))
    {
      if state == WriteCycle {
        if !(sdpEnabled && !writesEnabled) {
          WritePage();
        }
        writesEnabled := false;
        state, elapsed := Idle, 0;
      } else {
        if state == Sdp {
          seqState := SeqIdle;
        }
        state, elapsed := WriteCycle, 0;
      }
    }

    method Tick(nanoseconds: nat)
      requires Valid()
      modifies this, image
      ensures Valid() && State() == Apply(old(State()), Op.Tick(nanoseconds))
    {
      hide Expire;
      var nanos := nanoseconds;
      while nanos > 0
        invariant 0 <= nanos && Valid() && Ticked(State(), nanos) == Ticked(old(State()), nanoseconds)
      {
        var limit := if state == WriteCycle then T_WC else T_BLC;
        if state == Idle {
          nanos := 0;
        } else if elapsed + nanos >= limit {
          nanos := nanos - (limit - elapsed);
          ExpireKeeps(State());
          EndState();
        } else {
          elapsed, nanos := elapsed + nanos, 0;
        }
      }
    }

    method SetSdpEnable(enable: bool)
      requires Valid()
      modifies `sdpEnabled
      ensures Valid() && State() == Apply(old(State()), SetSdp(enable))
    {
      if state != Idle {
        return;
      }
      sdpEnabled := enable;
    }
  }
}

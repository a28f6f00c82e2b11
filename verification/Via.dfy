// The VIA as far as it counts time and asks for interrupts: timer 1, the interrupt flags
// and their vote on the bus, and the edges of the C1 inputs.
module ViaModel {
  import opened BusModel
  import C = CpuTypes
  import Division
  import opened Optional
  import opened Words

  type Counter = Addr

  datatype Reg =
    DATAB | DATAA | DDRB | DDRA | T1CL | T1CH | T1LL | T1LH | T2CL | T2CH | SR | ACR | PCR | IFR | IER | DA2

  datatype Flag = CA2 | CA1 | ShiftReg | CB2 | CB1 | Timer2 | Timer1

  function Weight(f: Flag): nat {
    match f
    case CA2 => 0x01 case CA1 => 0x02 case ShiftReg => 0x04 case CB2 => 0x08
    case CB1 => 0x10 case Timer2 => 0x20 case Timer1 => 0x40
  }

  function FlagsOf(val: Byte): set<Flag> {
    set f: Flag | Has(val, Weight(f))
  }

  // The interrupt flag register: bits 0 to 6, and bit 7.
  datatype Flags = Flags(bits: set<Flag>, any: bool) {
    // Bit 7 is set just when some other bit is.
    predicate Valid() {
      any <==> bits != {}
    }

    predicate NonZero() {
      any || bits != {}
    }

    function Raised(more: set<Flag>): Flags {
      if more == {} then this else Flags(bits + more, true)
    }

    function Cleared(less: set<Flag>): Flags {
      Flags(bits - less, any && bits - less != {})
    }
  }

  // ----- the flags as a byte -----

  function FlagOf(k: nat): Flag
    requires k < 7
  {
    match k case 0 => CA2 case 1 => CA1 case 2 => ShiftReg case 3 => CB2 case 4 => CB1 case 5 => Timer2 case 6 => Timer1
  }

  // The flags from bit k on, as a number.
  function Above(f: Flags, k: nat): nat
    requires k <= 7
    decreases 7 - k
  {
    if k == 7 then C.Push1(0, f.any) else C.Push1(Above(f, k + 1), FlagOf(k) in f.bits)
  }

  lemma FlagBits(f: Flags)
    ensures forall k :: 0 <= k < 7 ==> Above(f, k) / 2 == Above(f, k + 1) && C.Odd(Above(f, k)) == (FlagOf(k) in f.bits)
    ensures Above(f, 7) == if f.any then 1 else 0
  {
    forall k | 0 <= k < 7
      ensures Above(f, k) / 2 == Above(f, k + 1) && C.Odd(Above(f, k)) == (FlagOf(k) in f.bits)
    {
      C.Halve(Above(f, k + 1), FlagOf(k) in f.bits);
      hide C.Push1, FlagOf;
    }
  }

  lemma FlagHalves(f: Flags)
    ensures var w := Above(f, 0);
      && Above(f, 1) == w / 2 && Above(f, 2) == w / 4 && Above(f, 3) == w / 8 && Above(f, 4) == w / 16
      && Above(f, 5) == w / 32 && Above(f, 6) == w / 64 && Above(f, 7) == w / 128
  {
    FlagBits(f);
    hide Above;
  }

  lemma FlagPlace(f: Flags, g: Flag)
    ensures Has(Above(f, 0), Weight(g)) <==> g in f.bits
  {
    FlagBits(f);
    FlagHalves(f);
    hide Above;
    match g
    case CA2 => assert FlagOf(0) == g;
    case CA1 => assert FlagOf(1) == g;
    case ShiftReg => assert FlagOf(2) == g;
    case CB2 => assert FlagOf(3) == g;
    case CB1 => assert FlagOf(4) == g;
    case Timer2 => assert FlagOf(5) == g;
    case Timer1 => assert FlagOf(6) == g;
  }

  lemma FlagNumber(f: Flags)
    ensures Above(f, 0) < 0x100 && FlagsOf(Above(f, 0)) == f.bits && (Has(Above(f, 0), 0x80) <==> f.any)
  {
    FlagBits(f);
    FlagHalves(f);
    hide Above;
    forall g: Flag
      ensures Has(Above(f, 0), Weight(g)) <==> g in f.bits
    {
      hide Weight, Has;
      FlagPlace(f, g);
    }
  }

  function FlagByte(f: Flags): (b: Byte)
    ensures FlagsOf(b) == f.bits && (Has(b, 0x80) <==> f.any)
  {
    FlagNumber(f);
    Above(f, 0)
  }

  // Writing back what the flag register reads as acknowledges just the flags it showed.
  lemma WriteBackClears(shown: Flags, now: Flags, pcr: Byte)
    requires shown.Valid() && now.Valid() && shown.bits <= now.bits
    ensures var left := now.Cleared(WriteClears(IFR, FlagByte(shown), pcr));
      left.Valid() && left.bits == now.bits - shown.bits
    ensures now.Cleared(WriteClears(IFR, FlagByte(now), pcr)) == Flags({}, false)
  {
    hide FlagsOf, FlagByte, Has;
  }

  // Timer 1.  Its counter runs through FFFF, where it is loaded from the latch again.
  datatype Timer = Timer(counter: Counter, latch: Counter, armed: bool, pb7: bool, writePending: bool)

  const EMPTY: Counter := 0xFFFF

  predicate Expires(t: Timer) {
    t.armed && t.counter == EMPTY
  }

  function PosEdge(t: Timer, continuous: bool): Timer {
    if Expires(t) then t.(pb7 := !t.pb7, armed := continuous) else t
  }

  function NegEdge(t: Timer): Timer {
    if t.writePending then t.(writePending := false)
    else if t.counter == EMPTY then t.(counter := t.latch)
    else if t.counter == 0 then t.(counter := EMPTY)
    else t.(counter := t.counter - 1)
  }

  // A clock cycle begins with the rising edge.
  function Cycle(t: Timer, continuous: bool): Timer {
    NegEdge(PosEdge(t, continuous))
  }

  function Cycles(t: Timer, continuous: bool, n: nat): Timer {
    if n == 0 then t else Cycle(Cycles(t, continuous, n - 1), continuous)
  }

  function Expiries(t: Timer, continuous: bool, n: nat): nat {
    if n == 0 then 0
    else Expiries(t, continuous, n - 1) + if Expires(Cycles(t, continuous, n - 1)) then 1 else 0
  }

  // The timer as loading N leaves it, once the falling edge of the write is past.
  function Loaded(n: Counter): Timer {
    Timer(n, n, true, false, false)
  }

  // What the counter shows r cycles after it was loaded.
  function Shown(n: Counter, r: nat): Counter
    requires r < n + 2
  {
    if r == n + 1 then EMPTY else n - r
  }

  // After q full periods of N + 2 cycles and r more.
  function TimerAt(n: Counter, continuous: bool, q: nat, r: nat): Timer
    requires r < n + 2
  {
    Timer(Shown(n, r), n, continuous || q == 0, if continuous then q % 2 == 1 else q > 0, false)
  }

  lemma {:induction false} PeriodSteps(n: Counter, continuous: bool, q: nat, r: nat)
    requires n < EMPTY && r < n + 2
    ensures r < n + 1 ==>
      && !Expires(TimerAt(n, continuous, q, r))
      && Cycle(TimerAt(n, continuous, q, r), continuous) == TimerAt(n, continuous, q, r + 1)
    ensures r == n + 1 ==>
      && (Expires(TimerAt(n, continuous, q, r)) <==> continuous || q == 0)
      && Cycle(TimerAt(n, continuous, q, r), continuous) == TimerAt(n, continuous, q + 1, 0)
  {
  }

  // In closed form: loaded with N, the timer expires every N + 2 cycles, just once in one
  // shot mode, and PB7 turns at each expiry.
  lemma {:induction false} ClosedForm(n: Counter, continuous: bool, cycles: nat)
    requires n < 0xFFFF
    ensures Cycles(Loaded(n), continuous, cycles) == TimerAt(n, continuous, cycles / (n + 2), cycles % (n + 2))
    ensures Expiries(Loaded(n), continuous, cycles) ==
            if continuous then cycles / (n + 2) else if cycles / (n + 2) > 0 then 1 else 0
  {
    hide Cycle, Expires, Loaded;
    if cycles == 0 {
      Division.Quotient(0, n + 2, 0);
      AtLoad(n, continuous);
    } else {
      var m := cycles - 1;
      ClosedForm(n, continuous, m);
      PeriodSteps(n, continuous, m / (n + 2), m % (n + 2));
      Division.Successor(m, n + 2);
    }
  }

  // A latch of FFFF is loaded at each falling edge, so that the counter stays empty.
  lemma {:induction false} LimitForm(continuous: bool, cycles: nat)
    ensures Expiries(Loaded(0xFFFF), continuous, cycles) == if continuous then cycles else if cycles > 0 then 1 else 0
    ensures var t := Cycles(Loaded(0xFFFF), continuous, cycles);
      && t.counter == 0xFFFF && t.latch == 0xFFFF && t.armed == (continuous || cycles == 0) && !t.writePending
      && (t.pb7 <==> Expiries(Loaded(0xFFFF), continuous, cycles) % 2 == 1)
  {
    if cycles > 0 {
      LimitForm(continuous, cycles - 1);
    }
  }

  // The cycles between the expiries of a timer loaded with N.
  function Interval(n: Counter): (p: nat)
    ensures p > 0
  {
    if n == 0xFFFF then 1 else n + 2
  }

  // Whatever it is loaded with.
  lemma Expired(n: Counter, continuous: bool, cycles: nat)
    ensures Expiries(Loaded(n), continuous, cycles) ==
            if continuous then cycles / Interval(n) else if cycles / Interval(n) > 0 then 1 else 0
    ensures Cycles(Loaded(n), continuous, cycles).pb7 <==> Expiries(Loaded(n), continuous, cycles) % 2 == 1
  {
    if n == 0xFFFF {
      LimitForm(continuous, cycles);
      Division.Quotient(cycles, 1, cycles);
    } else {
      ClosedForm(n, continuous, cycles);
      Pb7IsParity(n, continuous, cycles);
    }
  }

  lemma AtLoad(n: Counter, continuous: bool)
    ensures Loaded(n) == TimerAt(n, continuous, 0, 0)
  {
  }

  lemma Pb7IsParity(n: Counter, continuous: bool, cycles: nat)
    requires n < 0xFFFF
    ensures Cycles(Loaded(n), continuous, cycles).pb7 <==> Expiries(Loaded(n), continuous, cycles) % 2 == 1
  {
    ClosedForm(n, continuous, cycles);
  }

  function WithLow(c: Counter, val: Byte): Counter {
    c - c % 0x100 + val
  }

  function WithHigh(c: Counter, val: Byte): Counter {
    c % 0x100 + 0x100 * val
  }

  // Whether C2 is an interrupt input that only writing the flag register clears.
  predicate IsIndependent(pcr: Byte, porta: bool) {
    var control := if porta then (pcr / 2) % 8 else pcr / 0x20;
    control == 1 || control == 3
  }

  // The flags that a write to a register clears, and those that a read clears.
  function WriteClears(reg: Reg, val: Byte, pcr: Byte): set<Flag> {
    match reg
    case DATAA => if IsIndependent(pcr, true) then {CA1, CA2} else {CA1}
    case DATAB => if IsIndependent(pcr, false) then {CB1, CB2} else {CB1}
    case T1CH => {Timer1}
    case T1LH => {Timer1}
    case IFR => FlagsOf(val)
    case _ => {}
  }

  function ReadClears(reg: Reg): set<Flag> {
    match reg
    case DATAA => {CA1}
    case DATAB => {CB1}
    case T1CL => {Timer1}
    case _ => {}
  }

  // What a write does to the timer.
  function TimerWritten(t: Timer, reg: Reg, val: Byte): Timer {
    match reg
    case T1CL => t.(latch := WithLow(t.latch, val))
    case T1LL => t.(latch := WithLow(t.latch, val))
    case T1LH => t.(latch := WithHigh(t.latch, val))
    case T1CH =>
      var n := WithHigh(t.latch, val);
      Timer(n, n, true, t.armed && t.pb7, true)
    case _ => t
  }

  lemma LoadsWhatIsWritten(t: Timer, n: Counter)
    ensures TimerWritten(TimerWritten(t, T1CL, n % 0x100), T1CH, n / 0x100) == Timer(n, n, true, t.armed && t.pb7, true)
  {
  }

  // Registers that have nothing to do with the timer, or with the flags.
  lemma OtherWrites(t: Timer, reg: Reg, val: Byte, pcr: Byte)
    ensures !(reg == T1CL || reg == T1CH || reg == T1LL || reg == T1LH) ==> TimerWritten(t, reg, val) == t
    ensures !(reg == DATAA || reg == DATAB || reg == IFR || reg == T1CH || reg == T1LH) ==>
      WriteClears(reg, val, pcr) == {}
  {
  }

  lemma ClearsNothing(f: Flags)
    requires f.Valid()
    ensures f.Cleared({}) == f
  {
  }

  // ----- the registers by their bits -----

  // Whether the flag's bit is set in a byte.
  predicate InByte(f: Flag, val: Byte) {
    match f
    case CA2 => val % 2 == 1
    case CA1 => val / 0x02 % 2 == 1
    case ShiftReg => val / 0x04 % 2 == 1
    case CB2 => val / 0x08 % 2 == 1
    case CB1 => val / 0x10 % 2 == 1
    case Timer2 => val / 0x20 % 2 == 1
    case Timer1 => val / 0x40 % 2 == 1
  }

  // Whether a write clears a flag.
  predicate Lowers(f: Flag, reg: Reg, val: Byte, pcr: Byte) {
    || (reg == IFR && InByte(f, val))
    || (f == Timer1 && (reg == T1CH || reg == T1LH))
    || (f == CA1 && reg == DATAA) || (f == CB1 && reg == DATAB)
    || (f == CA2 && reg == DATAA && (pcr / 0x02 % 8 == 1 || pcr / 0x02 % 8 == 3))
    || (f == CB2 && reg == DATAB && (pcr / 0x20 == 1 || pcr / 0x20 == 3))
  }

  // And a read.
  predicate ReadLowers(f: Flag, reg: Reg) {
    (f == Timer1 && reg == T1CL) || (f == CA1 && reg == DATAA) || (f == CB1 && reg == DATAB)
  }

  lemma FlagsAreBits(val: Byte, f: Flag)
    ensures f in FlagsOf(val) <==> InByte(f, val)
  {
  }

  lemma ClearsAre(reg: Reg, val: Byte, pcr: Byte)
    ensures forall f :: f in WriteClears(reg, val, pcr) <==> Lowers(f, reg, val, pcr)
    ensures forall f :: f in ReadClears(reg) <==> ReadLowers(f, reg)
  {
    hide FlagsOf, InByte;
    forall f: Flag
      ensures f in WriteClears(reg, val, pcr) <==> Lowers(f, reg, val, pcr)
    {
      FlagsAreBits(val, f);
    }
  }

  ghost predicate Spares(was: set<Flag>, now: set<Flag>, reg: Reg, val: Byte, pcr: Byte) {
    forall f :: f in now <==> f in was && !Lowers(f, reg, val, pcr)
  }

  lemma SparesThose(f: Flags, reg: Reg, val: Byte, pcr: Byte)
    ensures Spares(f.bits, f.Cleared(WriteClears(reg, val, pcr)).bits, reg, val, pcr)
  {
    hide WriteClears, Lowers;
    ClearsAre(reg, val, pcr);
  }

  // What becomes of the enabled interrupts.
  ghost predicate Sets(was: set<Flag>, now: set<Flag>, reg: Reg, val: Byte) {
    forall f :: f in now <==> if reg == IER && InByte(f, val) then val >= 0x80 else f in was
  }

  lemma EnablesAre(ier: set<Flag>, val: Byte)
    ensures Sets(ier, if Has(val, 0x80) then ier + FlagsOf(val) else ier - FlagsOf(val), IER, val)
    ensures forall reg :: reg != IER ==> Sets(ier, ier, reg, val)
  {
    hide InByte;
    assert Has(val, 0x80) <==> val >= 0x80;
    forall f: Flag
      ensures f in FlagsOf(val) <==> InByte(f, val)
    {
      FlagsAreBits(val, f);
    }
  }

  // What the timer's registers become.
  predicate IsLoaded(was: Timer, now: Timer, reg: Reg, val: Byte) {
    && now.latch == (if reg == T1CL || reg == T1LL then was.latch / 0x100 * 0x100 + val
                     else if reg == T1CH || reg == T1LH then was.latch % 0x100 + val * 0x100
                     else was.latch)
    && now.counter == (if reg == T1CH then now.latch else was.counter)
    && now.armed == (was.armed || reg == T1CH) && now.writePending == (was.writePending || reg == T1CH)
    && now.pb7 == (was.pb7 && (was.armed || reg != T1CH))
  }

  lemma LoadsRegister(t: Timer, reg: Reg, val: Byte)
    ensures IsLoaded(t, TimerWritten(t, reg, val), reg, val)
  {
    assert t.latch - t.latch % 0x100 == t.latch / 0x100 * 0x100;
  }

  // The flag register as it reads.
  function Number(f: Flags): nat {
    On(CA2 in f.bits) + 0x02 * On(CA1 in f.bits) + 0x04 * On(ShiftReg in f.bits) + 0x08 * On(CB2 in f.bits)
    + 0x10 * On(CB1 in f.bits) + 0x20 * On(Timer2 in f.bits) + 0x40 * On(Timer1 in f.bits) + 0x80 * On(f.any)
  }

  function On(b: bool): nat { if b then 1 else 0 }

  lemma PushedIs(high: nat, on: bool)
    ensures C.Push1(high, on) == 2 * high + On(on)
  {
  }

  lemma ReadsAsNumber(f: Flags)
    ensures FlagByte(f) == Number(f)
  {
    PushedIs(0, f.any);
    PushedIs(Above(f, 7), Timer1 in f.bits);
    PushedIs(Above(f, 6), Timer2 in f.bits);
    PushedIs(Above(f, 5), CB1 in f.bits);
    PushedIs(Above(f, 4), CB2 in f.bits);
    PushedIs(Above(f, 3), ShiftReg in f.bits);
    PushedIs(Above(f, 2), CA1 in f.bits);
    PushedIs(Above(f, 1), CA2 in f.bits);
    hide C.Push1, On;
    assert Above(f, 7) == C.Push1(0, f.any);
    assert Above(f, 5) == C.Push1(Above(f, 6), Timer2 in f.bits);
    assert Above(f, 3) == C.Push1(Above(f, 4), CB2 in f.bits);
    assert Above(f, 1) == C.Push1(Above(f, 2), CA1 in f.bits);
  }

  // Writing a data register clears the flag of C2 just if C2 is an input that is to be independent
  // of it, and so never leaves the flag as it should, but where it was not set.
  lemma IndependentExact(was: Flags, val: Byte, pcr: Byte)
    ensures var independent := pcr / 0x02 % 8 == 1 || pcr / 0x02 % 8 == 3;
      (CA2 in was.Cleared(WriteClears(DATAA, val, pcr)).bits <==> CA2 in was.bits && independent) <==>
      CA2 !in was.bits
    ensures var independent := pcr / 0x20 == 1 || pcr / 0x20 == 3;
      (CB2 in was.Cleared(WriteClears(DATAB, val, pcr)).bits <==> CB2 in was.bits && independent) <==>
      CB2 !in was.bits
  {
    ClearsAre(DATAA, val, pcr);
    ClearsAre(DATAB, val, pcr);
    hide WriteClears;
  }

  // The device as the events of its surroundings change it.
  datatype State = State(timer: Timer, ifr: Flags, ier: set<Flag>, acr: Byte, pcr: Byte, ca1In: bool, cb1In: bool)

  function AfterEdge(s: State, posedge: bool): State {
    s.(timer := if posedge then PosEdge(s.timer, Has(s.acr, 0x40)) else NegEdge(s.timer),
       ifr := if posedge && Expires(s.timer) then s.ifr.Raised({Timer1}) else s.ifr)
  }

  function AfterC1(s: State, porta: bool, val: bool): State {
    var was, wanted, flag := if porta then s.ca1In else s.cb1In, Has(s.pcr, if porta then 0x01 else 0x10),
                             if porta then CA1 else CB1;
    s.(ca1In := if porta then val else s.ca1In, cb1In := if porta then s.cb1In else val,
       ifr := if was != val && val == wanted then s.ifr.Raised({flag}) else s.ifr)
  }

  function Enabled(ier: set<Flag>, val: Byte): set<Flag> {
    if Has(val, 0x80) then ier + FlagsOf(val) else ier - FlagsOf(val)
  }

  function AfterWrite(s: State, reg: Reg, val: Byte): State {
    s.(timer := TimerWritten(s.timer, reg, val), ifr := s.ifr.Cleared(WriteClears(reg, val, s.pcr)),
       acr := if reg == ACR then val else s.acr, pcr := if reg == PCR then val else s.pcr,
       ier := if reg == IER then Enabled(s.ier, val) else s.ier)
  }

  function AfterRead(s: State, reg: Reg): State {
    s.(ifr := s.ifr.Cleared(ReadClears(reg)))
  }

  // What a register reads as, but for the ports.
  predicate Shows(s: State, reg: Reg, val: Option<int>) {
    match reg
    case T1CL => val == Some(s.timer.counter % 0x100)
    case T1CH => val == Some(s.timer.counter / 0x100)
    case T1LL => val == Some(s.timer.latch % 0x100)
    case T1LH => val == Some(s.timer.latch / 0x100)
    case ACR => val == Some(s.acr)
    case PCR => val == Some(s.pcr)
    case IFR => val == Some(Number(s.ifr))
    case IER => val == Some(Number(Flags(s.ier, false)))
    case T2CL | T2CH | SR | DA2 => val == Some(0)
    case _ => true
  }

  class Via {
    const bus: Bus
    var voter: nat
    var t1c: Counter
    var t1l: Counter
    var t1pb7: bool
    var t1Armed: bool
    var t1WritePending: bool
    var ifr: Flags
    var ier: set<Flag>
    var acr: Byte
    var pcr: Byte
    var ca1In: bool
    var cb1In: bool
    ghost var expiries: nat

    constructor (bus: Bus)
      ensures this.bus == bus && voter == MAX_SIG_VOTERS && ifr == Flags({}, false)
      ensures T1() == Timer(0, 0, false, true, false) && expiries == 0
      ensures acr == 0 && pcr == 0 && ier == {} && !ca1In && !cb1In
    {
      this.bus, voter := bus, MAX_SIG_VOTERS;
      t1c, t1l, t1pb7, t1Armed, t1WritePending := 0, 0, true, false, false;
      ifr, ier, acr, pcr := Flags({}, false), {}, 0, 0;
      ca1In, cb1In := false, false;
      expiries := 0;
    }

    function T1(): Timer
      reads this
    {
      Timer(t1c, t1l, t1Armed, t1pb7, t1WritePending)
    }

    function Now(): State
      reads this
    {
      State(T1(), ifr, ier, acr, pcr, ca1In, cb1In)
    }

    predicate Continuous()
      reads this
    {
      Has(acr, 0x40)
    }

    // The device's vote says what its flags say.
    ghost predicate Votes()
      reads this, bus
    {
      ifr.Valid() && (voter == MAX_SIG_VOTERS || (voter in bus.voters && (voter in bus.irq <==> ifr.any)))
    }

    method RegisterIrq() returns (ok: bool)
      requires Votes() && voter == MAX_SIG_VOTERS && !ifr.any && bus.irq <= bus.voters
      modifies `voter, bus`voters
      ensures Votes() && bus.irq <= bus.voters && bus.voters == old(bus.voters) + if ok then {voter} else {}
      ensures if ok then voter !in old(bus.voters) && voter != MAX_SIG_VOTERS else voter == MAX_SIG_VOTERS
    {
      voter := bus.RegisterVoter();
      ok := voter != MAX_SIG_VOTERS;
    }

    // What a change of the flags may do to the bus.
    twostate predicate OnlyOwnVote()
      reads this, bus
    {
      && (forall v :: v != voter || voter == MAX_SIG_VOTERS ==> (v in bus.irq <==> v in old(bus.irq)))
      && bus.nmi == old(bus.nmi) && bus.rdy == old(bus.rdy) && bus.be == old(bus.be)
      && bus.nmiPending == old(bus.nmiPending)
    }

    twostate predicate SameInputs()
      reads this
    {
      ca1In == old(ca1In) && cb1In == old(cb1In)
    }

    method SetIfr(bits: set<Flag>)
      requires Votes()
      modifies `ifr, bus`irq, bus`nmi, bus`rdy, bus`be, bus`nmiPending
      ensures Votes() && ifr == old(ifr).Raised(bits) && OnlyOwnVote()
    {
      if bits == {} {
        return;
      }
      var was := ifr.any;
      ifr := Flags(ifr.bits + bits, true);
      if !was && voter != MAX_SIG_VOTERS {
        bus.SigVote(voter, SIG_IRQ, true);
      }
    }

    method ClearIfr(bits: set<Flag>)
      requires Votes()
      modifies `ifr, bus`irq, bus`nmi, bus`rdy, bus`be, bus`nmiPending
      ensures Votes() && ifr == old(ifr).Cleared(bits) && OnlyOwnVote()
    {
      var voted := ifr.NonZero();
      ifr := ifr.(bits := ifr.bits - bits);
      if ifr.bits == {} {
        ifr := Flags({}, false);
        if voted && voter != MAX_SIG_VOTERS {
          bus.SigVote(voter, SIG_IRQ, false);
        }
      }
    }

    // One edge of the bus clock.
    method ClockTick(posedge: bool)
      requires Votes()
      modifies this, bus`irq, bus`nmi, bus`rdy, bus`be, bus`nmiPending
      ensures Votes() && voter == old(voter) && acr == old(acr) && OnlyOwnVote() && SameInputs()
      ensures pcr == old(pcr) && ier == old(ier)
      ensures T1() == if posedge then PosEdge(old(T1()), Continuous()) else NegEdge(old(T1()))
      ensures ifr == if posedge && old(Expires(T1())) then old(ifr).Raised({Timer1}) else old(ifr)
      ensures expiries == old(expiries) + if posedge && old(Expires(T1())) then 1 else 0
      ensures Now() == AfterEdge(old(Now()), posedge)
    {
      hide Voted, Has;
      if posedge {
        if t1Armed && t1c == EMPTY {
          SetIfr({Timer1});
          t1pb7 := !t1pb7;
          expiries := expiries + 1;
          if !Continuous() {
            t1Armed := false;
          }
        }
      } else if !t1WritePending {
        t1c := if t1c == EMPTY then t1l else if t1c == 0 then EMPTY else t1c - 1;
      } else {
        t1WritePending := false;
      }
    }

    // A C1 input changes; the edge that the peripheral control register asks for is flagged.
    method WriteC1(porta: bool, val: bool)
      requires Votes()
      modifies this, bus`irq, bus`nmi, bus`rdy, bus`be, bus`nmiPending
      ensures Votes() && voter == old(voter) && acr == old(acr) && OnlyOwnVote() && T1() == old(T1())
      ensures expiries == old(expiries) && pcr == old(pcr) && ier == old(ier)
      ensures ca1In == (if porta then val else old(ca1In)) && cb1In == if porta then old(cb1In) else val
      ensures ifr ==
        if old(if porta then ca1In else cb1In) != val && val == Has(pcr, if porta then 0x01 else 0x10)
        then old(ifr).Raised({if porta then CA1 else CB1}) else old(ifr)
      ensures Now() == AfterC1(old(Now()), porta, val)
    {
      if val == (if porta then ca1In else cb1In) {
        return;
      }
      if porta {
        ca1In := val;
      } else {
        cb1In := val;
      }
      if val == Has(pcr, if porta then 0x01 else 0x10) {
        SetIfr({if porta then CA1 else CB1});
      }
    }

    method WriteTimer(reg: Reg, val: Byte)
      requires Votes() && (reg == T1CL || reg == T1CH || reg == T1LL || reg == T1LH)
      modifies `t1c, `t1l, `t1pb7, `t1Armed, `t1WritePending, `ifr
      modifies bus`irq, bus`nmi, bus`rdy, bus`be, bus`nmiPending
      ensures Votes() && OnlyOwnVote() && T1() == TimerWritten(old(T1()), reg, val)
      ensures ifr == old(ifr).Cleared(WriteClears(reg, val, pcr))
    {
      hide WithLow, WithHigh;
      if reg == T1CH {
        t1l := WithHigh(t1l, val);
        t1c := t1l;
        ClearIfr({Timer1});
        if !t1Armed {
          t1pb7 := false;
        }
        t1Armed, t1WritePending := true, true;
      } else if reg == T1LH {
        t1l := WithHigh(t1l, val);
        ClearIfr({Timer1});
      } else {
        t1l := WithLow(t1l, val);
      }
    }

    // What a write does, register by register and bit by bit.
    method Write(reg: Reg, val: Byte)
      requires Votes()
      modifies this, bus`irq, bus`nmi, bus`rdy, bus`be, bus`nmiPending
      ensures Votes() && voter == old(voter) && OnlyOwnVote() && expiries == old(expiries) && SameInputs()
      ensures IsLoaded(old(T1()), T1(), reg, val)
      ensures Spares(old(ifr.bits), ifr.bits, reg, val, old(pcr)) && Sets(old(ier), ier, reg, val)
      ensures acr == (if reg == ACR then val else old(acr)) && pcr == if reg == PCR then val else old(pcr)
      ensures T1() == TimerWritten(old(T1()), reg, val) && ifr == old(ifr).Cleared(WriteClears(reg, val, old(pcr)))
      ensures Now() == AfterWrite(old(Now()), reg, val)
    {
      hide Has, FlagsOf, TimerWritten, WriteClears, IsLoaded, Spares, Sets, Votes, AfterWrite;
      LoadsRegister(T1(), reg, val);
      SparesThose(ifr, reg, val, pcr);
      EnablesAre(ier, val);
      WriteRegister(reg, val);
    }

    method WriteRegister(reg: Reg, val: Byte)
      requires Votes()
      modifies this, bus`irq, bus`nmi, bus`rdy, bus`be, bus`nmiPending
      ensures Votes() && voter == old(voter) && OnlyOwnVote() && expiries == old(expiries) && SameInputs()
      ensures T1() == TimerWritten(old(T1()), reg, val) && ifr == old(ifr).Cleared(WriteClears(reg, val, old(pcr)))
      ensures acr == (if reg == ACR then val else old(acr)) && pcr == if reg == PCR then val else old(pcr)
      ensures ier == if reg != IER then old(ier)
                     else if Has(val, 0x80) then old(ier) + FlagsOf(val) else old(ier) - FlagsOf(val)
      ensures Now() == AfterWrite(old(Now()), reg, val)
    {
      hide Has, FlagsOf, Voted, TimerWritten, WriteClears;
      OtherWrites(T1(), reg, val, pcr);
      if reg == DATAA || reg == DATAB || reg == IFR {
        ClearIfr(WriteClears(reg, val, pcr));
      } else if reg == T1CL || reg == T1CH || reg == T1LL || reg == T1LH {
        WriteTimer(reg, val);
      } else {
        ClearsNothing(ifr);
        WriteControl(reg, val);
      }
    }

    method WriteControl(reg: Reg, val: Byte)
      modifies `acr, `pcr, `ier
      ensures acr == (if reg == ACR then val else old(acr)) && pcr == if reg == PCR then val else old(pcr)
      ensures ier == if reg != IER then old(ier)
                     else if Has(val, 0x80) then old(ier) + FlagsOf(val) else old(ier) - FlagsOf(val)
    {
      if reg == ACR {
        acr := val;
      } else if reg == PCR {
        pcr := val;
      } else if reg == IER {
        ier := if Has(val, 0x80) then ier + FlagsOf(val) else ier - FlagsOf(val);
      }
    }

    // What a register reads as; the ports and their directions are not modelled.
    function Value(reg: Reg): Option<int>
      reads this
    {
      match reg
      case T1CL => Some(t1c % 0x100)
      case T1CH => Some(t1c / 0x100)
      case T1LL => Some(t1l % 0x100)
      case T1LH => Some(t1l / 0x100)
      case ACR => Some(acr)
      case PCR => Some(pcr)
      case IER => Some(FlagByte(Flags(ier, false)))
      case IFR => Some(FlagByte(ifr))
      case T2CL => Some(0)
      case T2CH => Some(0)
      case SR => Some(0)
      case DA2 => Some(0)
      case _ => None
    }

    lemma ValueShows(reg: Reg)
      ensures Shows(Now(), reg, Value(reg))
    {
      hide FlagByte, Number;
      ReadsAsNumber(ifr);
      ReadsAsNumber(Flags(ier, false));
    }

    method Read(reg: Reg) returns (val: Option<int>)
      requires Votes()
      modifies this, bus`irq, bus`nmi, bus`rdy, bus`be, bus`nmiPending
      ensures Votes() && voter == old(voter) && acr == old(acr) && OnlyOwnVote() && SameInputs()
      ensures pcr == old(pcr) && ier == old(ier)
      ensures T1() == old(T1()) && expiries == old(expiries)
      ensures forall f :: f in ifr.bits <==> f in old(ifr.bits) && !ReadLowers(f, reg)
      ensures Shows(old(Now()), reg, val)
      ensures val == old(Value(reg)) && ifr == old(ifr).Cleared(ReadClears(reg))
      ensures Now() == AfterRead(old(Now()), reg)
    {
      hide FlagByte, Number, ReadLowers, FlagsOf;
      ClearsAre(reg, 0, pcr);
      ValueShows(reg);
      hide Shows;
      val := Value(reg);
      match reg
      case DATAA => ClearIfr({CA1});
      case DATAB => ClearIfr({CB1});
      case T1CL => ClearIfr({Timer1});
      case _ =>
    }

    // A whole cycle.
    method ClockCycle()
      requires Votes()
      modifies this, bus`irq, bus`nmi, bus`rdy, bus`be, bus`nmiPending
      ensures Votes() && voter == old(voter) && acr == old(acr) && T1() == Cycle(old(T1()), Continuous())
      ensures OnlyOwnVote() && SameInputs() && pcr == old(pcr) && ier == old(ier)
      ensures expiries == old(expiries) + if old(Expires(T1())) then 1 else 0
      ensures Timer1 in ifr.bits <==> old(Timer1 in ifr.bits || Expires(T1()))
    {
      hide PosEdge, NegEdge, Expires, Voted;
      ClockTick(true);
      ClockTick(false);
    }

    // Loads the unarmed timer with N and lets it run: it expires each N + 2 cycles, or each cycle if
    // N is FFFF, once only in one shot mode, and flags that it did.
    method LoadAndRun(n: Counter, cycles: nat)
      requires Votes() && !t1Armed
      modifies this, bus`irq, bus`nmi, bus`rdy, bus`be, bus`nmiPending
      ensures Votes() && voter == old(voter) && acr == old(acr) && pcr == old(pcr) && ier == old(ier) && SameInputs()
      ensures var p := if n == 0xFFFF then 1 else n + 2;
        expiries - old(expiries) == if acr / 0x40 % 2 == 1 then cycles / p else if cycles / p > 0 then 1 else 0
      ensures t1pb7 <==> (expiries - old(expiries)) % 2 == 1
      ensures Timer1 in ifr.bits <==> expiries > old(expiries)
    {
      hide PosEdge, NegEdge, TimerWritten, WriteClears, Cycle, Expires, Loaded, Voted, IsLoaded, Sets;
      assert Continuous() <==> acr / 0x40 % 2 == 1;
      ghost var start := T1();
      LoadsWhatIsWritten(start, n);
      NegEdgeAfterLoad(n);
      TimerCleared(n / 0x100, pcr);
      Write(T1CL, n % 0x100);
      Write(T1CH, n / 0x100);
      ClockTick(false);
      for i := 0 to cycles
        invariant Votes() && voter == old(voter) && acr == old(acr) && pcr == old(pcr) && ier == old(ier)
        invariant SameInputs()
        invariant T1() == Cycles(Loaded(n), Continuous(), i)
        invariant expiries - old(expiries) == Expiries(Loaded(n), Continuous(), i)
        invariant Timer1 in ifr.bits <==> expiries > old(expiries)
      {
        ClockCycle();
      }
      Expired(n, Continuous(), cycles);
    }
  }

  lemma NegEdgeAfterLoad(n: Counter)
    ensures NegEdge(Timer(n, n, true, false, true)) == Loaded(n)
  {
  }

  lemma TimerCleared(val: Byte, pcr: Byte)
    ensures WriteClears(T1CH, val, pcr) == {Timer1}
  {
  }

  // The interrupt enable register does not gate the vote: it is what a gated one would be
  // just if no flag is set or one of those set is enabled.
  lemma IerGatesExact(v: Via)
    requires v.Votes() && v.voter != MAX_SIG_VOTERS
    ensures (v.voter in v.bus.irq <==> v.ifr.bits * v.ier != {}) <==> (v.ifr.bits == {} || v.ifr.bits * v.ier != {})
  {
  }

  // An edge on CA1 asks for an interrupt though none is enabled.
  method RequestNotEnabled(v: Via)
    requires v.Votes() && v.voter != MAX_SIG_VOTERS && v.ier == {} && v.pcr == 1 && !v.ca1In
    modifies v, v.bus`irq, v.bus`nmi, v.bus`rdy, v.bus`be, v.bus`nmiPending
    ensures v.ier == {} && v.voter in v.bus.irq
  {
    v.WriteC1(true, true);
  }
}

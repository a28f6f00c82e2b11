// Where the core is not the 65C02 of its data sheet, and exactly when it is all the same.
module IsaDeviations {
  import opened Division
  import opened Words
  import opened CpuTypes
  import opened Isa

  // ----- decimal arithmetic -----

  predicate IsBcd(b: Byte) { b % 16 <= 9 && b / 16 <= 9 }

  // The number two digits stand for, also if they are no digits.
  function Decimal(b: Byte): int { 10 * (b / 16) + b % 16 }

  // The sum of the low digits, and that of the high ones with what the low ones carry.
  function LowSum(a: Byte, v: Byte, f: Flags): int { a % 16 + v % 16 + CarryIn(f) }

  function HighSum(a: Byte, v: Byte, f: Flags): int {
    a / 16 + v / 16 + if LowSum(a, v, f) > 9 then 1 else 0
  }

  // Decimal ADC is right just if neither pair of digits adds up to more than fifteen: it
  // looks for digits above nine, but not for carries out of a digit.
  lemma DecimalAddExact(r: Regs, v: Byte)
    requires r.status.d && IsBcd(r.a) && IsBcd(v)
    ensures var n := AddTo(r, v);
      Decimal(n.a) + 100 * CarryIn(n.status) == Decimal(r.a) + Decimal(v) + CarryIn(r.status) <==>
      LowSum(r.a, v, r.status) <= 15 && HighSum(r.a, v, r.status) <= 15
  {
    hide SumFlags;
    var sum := SumOf(r.a, v, r.status);
    DecimalDigits(r.a / 16 + v / 16, LowSum(r.a, v, r.status));
    assert sum == 16 * (r.a / 16 + v / 16) + LowSum(r.a, v, r.status);
  }

  lemma Nibbles(h: nat, l: nat)
    requires l < 16
    ensures (16 * h + l) / 16 == h && (16 * h + l) % 16 == l
  {
    Quotient(16 * h + l, 16, h);
  }

  lemma LowOf(b: Byte, k: nat)
    ensures Low(b + 0x100 * k) == b
  {
    Quotient(b + 0x100 * k, 0x100, k);
  }

  // The correction of the high digit.
  lemma HighDigit(h: nat, l: nat)
    requires h < 32 && l < 16
    ensures var s := 16 * h + l; var d := if h < 16 then h else h - 16;
      && s / 16 == h && s % 16 == l && h % 16 == d && Low(s) == 16 * d + l && Decimal(Low(s)) == 10 * d + l
      && (d > 9 ==> Decimal(Low(s + 0x60)) == 10 * (d - 10) + l)
  {
    var d, k := if h < 16 then h else h - 16, if h < 16 then 0 else 1;
    Nibbles(h, l);
    Nibbles(d, l);
    LowOf(16 * d + l, k);
    if d > 9 {
      Nibbles(d - 10, l);
      LowOf(16 * (d - 10) + l, k + 1);
    }
    hide Low;
  }

  // The correction, in terms of the sums of the high and of the low digits.
  lemma DecimalDigits(high: nat, low: nat)
    requires high <= 18 && low <= 19
    ensures var (b, c) := DecimalAdd(16 * high + low);
      Decimal(b) + (if c then 100 else 0) == 10 * high + low <==>
      low <= 15 && high + (if low > 9 then 1 else 0) <= 15
  {
    var s := 16 * high + low;
    hide Low;
    if low > 15 {
      HighDigit(high + 1, low - 16);
    } else if low > 9 {
      HighDigit(high, low);
      HighDigit(high + 1, low - 10);
    } else {
      HighDigit(high, low);
    }
  }

  // 9 + 9 gives 12 instead of 18.
  lemma DecimalAddFails(r: Regs)
    requires r.status.d && !r.status.c && r.a == 0x09
    ensures AddTo(r, 0x09).a == 0x12 && !AddTo(r, 0x09).status.c
  {
    hide SumFlags;
  }

  // Decimal SBC corrects the accumulator it started with: the operand makes no difference
  // to the digits and the carry.
  lemma DecimalSubIgnoresOperand(r: Regs, v: Byte, w: Byte)
    requires r.status.d
    ensures SubFrom(r, v).a == SubFrom(r, w).a && SubFrom(r, v).status.c == SubFrom(r, w).status.c
  {
    hide SumFlags, DecimalSub;
  }

  lemma LowIs(w: int, b: Byte, k: int)
    requires w == b + 0x100 * k && -1 <= k <= 1
    ensures Low(w) == b
  {
    if k == -1 {
    } else if k == 0 {
    }
  }

  // The first step of the correction takes six off each digit, modulo sixteen, but mends a
  // low digit that was below six.
  lemma FirstCorrection(h: nat, l: nat)
    requires h <= 9 && l <= 9
    ensures var d := if h >= 6 then h - 6 else h + 10;
      var a1 := Low(16 * h + l - 0x66);
      l >= 6 ==> a1 == 16 * d + l - 6 && a1 % 16 == l - 6
    ensures var d := if h >= 6 then h - 6 else h + 10;
      var a1 := Low(16 * h + l - 0x66);
      l < 6 ==> a1 % 16 == l + 10 && Low(a1 + 0x06) == 16 * d + l
  {
    var w := 16 * h + l - 0x66;
    var e := if h >= 7 then h - 7 else h + 9;
    if l >= 6 {
      var d := if h >= 6 then h - 6 else h + 10;
      LowIs(w, 16 * d + l - 6, if h >= 6 then 0 else -1);
      Nibbles(d, l - 6);
    } else {
      LowIs(w, 16 * e + l + 10, if h >= 7 then 0 else -1);
      Nibbles(e, l + 10);
      LowIs(16 * e + l + 16, 16 * (if h >= 6 then h - 6 else h + 10) + l, if h == 6 then 1 else 0);
    }
    hide Low;
  }

  // What the correction leaves of an accumulator with digits h and l.
  lemma DecimalSubDigits(h: nat, l: nat)
    requires h <= 9 && l <= 9
    ensures DecimalSub(16 * h + l) ==
            (16 * (if h >= 6 then h - 6 else h) + (if l >= 6 then l - 6 else l), h < 6)
  {
    var d := if h >= 6 then h - 6 else h + 10;
    var m := if l >= 6 then l - 6 else l;
    FirstCorrection(h, l);
    Nibbles(d, m);
    if h < 6 {
      LowIs(16 * d + m + 0x60, 16 * h + m, 1);
    }
    hide Low;
  }

  // Whatever the accumulator, at most one operand is subtracted correctly.
  lemma DecimalSubAtMostOne(r: Regs, v: Byte, w: Byte)
    requires r.status.d && IsBcd(v) && IsBcd(w) && v != w
    ensures var borrow := 1 - CarryIn(r.status);
      var n := SubFrom(r, v);
      var m := SubFrom(r, w);
      !(Decimal(n.a) - 100 * (1 - CarryIn(n.status)) == Decimal(r.a) - Decimal(v) - borrow
        && Decimal(m.a) - 100 * (1 - CarryIn(m.status)) == Decimal(r.a) - Decimal(w) - borrow)
  {
    DecimalSubIgnoresOperand(r, v, w);
    if Decimal(v) == Decimal(w) {
      DecimalTells(v, w);
    }
    hide SubFrom, Decimal, IsBcd;
  }

  lemma DecimalTells(v: Byte, w: Byte)
    requires IsBcd(v) && IsBcd(w) && Decimal(v) == Decimal(w)
    ensures v == w
  {
  }

  // Decimal SBC of valid digits is right just if the accumulator is below sixty and the
  // operand, with the borrow, is six or nothing, as the low digit of the accumulator has it.
  lemma DecimalSubExact(r: Regs, v: Byte)
    requires r.status.d && IsBcd(r.a) && IsBcd(v)
    ensures var n := SubFrom(r, v);
      var borrow := 1 - CarryIn(r.status);
      Decimal(n.a) - 100 * (1 - CarryIn(n.status)) == Decimal(r.a) - Decimal(v) - borrow <==>
      r.a < 0x60 && Decimal(v) + borrow == if r.a % 16 >= 6 then 6 else 0
  {
    hide SumFlags, DecimalSub;
    var h, l := r.a / 16, r.a % 16;
    assert r.a == 16 * h + l;
    DecimalSubDigits(h, l);
    Nibbles(if h >= 6 then h - 6 else h, if l >= 6 then l - 6 else l);
    hide Low, BitNot, SumOf;
  }

  // 10 - 1 leaves 10, with no borrow.
  lemma DecimalSubFails(r: Regs)
    requires r.status.d && r.status.c && r.a == 0x10
    ensures SubFrom(r, 0x01).a == 0x10 && SubFrom(r, 0x01).status.c
  {
    hide SumFlags;
  }

  // ----- bit instructions -----

  // The bit that an RMB, SMB, BBR or BBS names.
  function BitOf(op: Byte): (bit: nat)
    ensures bit < 8
  {
    (op / 16) % 8
  }

  function MaskOf(bit: nat): Byte
    requires bit < 8
  {
    match bit case 0 => 0x01 case 1 => 0x02 case 2 => 0x04 case 3 => 0x08
              case 4 => 0x10 case 5 => 0x20 case 6 => 0x40 case 7 => 0x80
  }

  lemma MaskIs(bit: nat)
    requires bit < 8
    ensures BitNot(MaskOf(bit)) as bv8 == !(MaskOf(bit) as bv8)
    ensures var m := MaskOf(bit) as bv8;
      && (m == 0x01 || m == 0x02 || m == 0x04 || m == 0x08 || m == 0x10 || m == 0x20 || m == 0x40 || m == 0x80)
      && (m == 0x01 <==> bit == 0)
  {
  }

  lemma ClearBits(v: bv8, m: bv8)
    requires m == 0x01 || m == 0x02 || m == 0x04 || m == 0x08 || m == 0x10 || m == 0x20 || m == 0x40 || m == 0x80
    ensures v & 0xFE == v & !m <==> m == 0x01 || (v & 0x01 == 0 && v & m == 0)
    ensures v | 0x01 == v | m <==> m == 0x01 || (v & 0x01 != 0 && v & m != 0)
  {
  }

  // Equal as bytes is equal as bits.
  lemma SameBits(a: bv8, b: bv8)
    ensures a as int == b as int <==> a == b
  {
    assert (a as int) as bv8 == a && (b as int) as bv8 == b;
  }

  lemma ClearByte(v: Byte, m: Byte, bit: nat)
    requires bit < 8 && m == MaskOf(bit)
    ensures BitAnd(v, 0xFE) == BitAnd(v, BitNot(m)) <==> bit == 0 || (BitAnd(v, 0x01) == 0 && BitAnd(v, m) == 0)
  {
    MaskIs(bit);
    hide MaskOf;
    var w, n, k := v as bv8, m as bv8, BitNot(m) as bv8;
    hide BitNot;
    ClearBits(w, n);
    SameBits(w & 0xFE, w & k);
    SameBits(w & 0x01, 0);
    SameBits(w & n, 0);
  }

  lemma SetByte(v: Byte, m: Byte, bit: nat)
    requires bit < 8 && m == MaskOf(bit)
    ensures BitOr(v, 0x01) == BitOr(v, m) <==> bit == 0 || (BitAnd(v, 0x01) != 0 && BitAnd(v, m) != 0)
  {
    MaskIs(bit);
    hide MaskOf;
    var w, n := v as bv8, m as bv8;
    hide BitNot;
    ClearBits(w, n);
    SameBits(w | 0x01, w | n);
    SameBits(w & 0x01, 0);
    SameBits(w & n, 0);
  }

  // RMB clears bit 0 and SMB sets it, whatever bit they name.
  lemma ResetBitExact(r: Regs, op: Byte, v: Byte)
    ensures var m := MaskOf(BitOf(op));
      RmwValue(Rmb, r, v) == BitAnd(v, BitNot(m)) <==> BitOf(op) == 0 || (BitAnd(v, 0x01) == 0 && BitAnd(v, m) == 0)
  {
    hide MaskOf, BitNot, BitOf, BitAnd, BitOr;
    ClearByte(v, MaskOf(BitOf(op)), BitOf(op));
  }

  lemma SetBitExact(r: Regs, op: Byte, v: Byte)
    ensures var m := MaskOf(BitOf(op));
      RmwValue(Smb, r, v) == BitOr(v, m) <==> BitOf(op) == 0 || (BitAnd(v, 0x01) != 0 && BitAnd(v, m) != 0)
  {
    hide MaskOf, BitNot, BitOf, BitAnd, BitOr;
    SetByte(v, MaskOf(BitOf(op)), BitOf(op));
  }

  // RMB1 $10 at address 0 takes FF to FE, and SMB1 $10 takes 00 to 01.
  lemma ResetBitFails(r: Regs)
    ensures Read(Exec(Outcome(r.(pc := 0), map[0 := 0x17, 1 := 0x10, 0x10 := 0xFF], false)).mem, 0x10) == 0xFE
  {
    ChangeBitRuns(r, map[0 := 0x17, 1 := 0x10, 0x10 := 0xFF]);
    assert 0xFF as bv8 & 0xFE == 0xFE;
    hide Exec;
  }

  lemma SetBitFails(r: Regs)
    ensures Read(Exec(Outcome(r.(pc := 0), map[0 := 0x97, 1 := 0x10, 0x10 := 0x00], false)).mem, 0x10) == 0x01
  {
    ChangeBitRuns(r, map[0 := 0x97, 1 := 0x10, 0x10 := 0x00]);
    assert 0x00 as bv8 | 0x01 == 0x01;
    hide Exec;
  }

  lemma ChangeBitRuns(r: Regs, mem: Memory)
    requires Read(mem, 0) == 0x17 || Read(mem, 0) == 0x97
    requires Read(mem, 1) == 0x10
    ensures Exec(Outcome(r.(pc := 0), mem, false)).mem ==
            Write(mem, 0x10, RmwValue(if Read(mem, 0) == 0x17 then Rmb else Smb, r.(pc := 2), Read(mem, 0x10)))
  {
    hide Read, Write, RmwValue, RmwFlags;
  }

  // BBR takes its branch on a zero byte, not on a clear bit.
  lemma BranchOnBitExact(op: Byte, f: Flags, v: Byte)
    ensures Taken(Bbr, op, f, v) == !Has(v, MaskOf(BitOf(op))) <==> v == 0 || Has(v, MaskOf(BitOf(op)))
    ensures Taken(Bbs, op, f, v) == Has(v, MaskOf(BitOf(op))) <==> v == 0 || Has(v, MaskOf(BitOf(op)))
  {
  }

  // The offset of BBR and BBS is taken as unsigned: backward branches go forward.
  lemma BitBranchTargetExact(r: Regs, mem: Memory)
    ensures var o := Resolve(ZPREL, r, mem);
      var offset := Read(mem, Inc16(r.pc));
      Add16(o.pc, o.rel) == Add16(o.pc, Signed(offset)) <==> offset < 0x80
  {
    hide Read, Inc16;
  }

  // BBR1 $10,+2 at address 0 falls through on a byte whose bit 1 is clear but bit 0 set, and
  // BBS1 takes its branch there.
  lemma BranchOnBitFails(r: Regs)
    ensures Exec(Outcome(r.(pc := 0), map[0 := 0x1F, 1 := 0x10, 2 := 0x02, 0x10 := 0x01], false)).r.pc == 3
    ensures Exec(Outcome(r.(pc := 0), map[0 := 0x9F, 1 := 0x10, 2 := 0x02, 0x10 := 0x01], false)).r.pc == 5
  {
    BitBranchRuns(r, map[0 := 0x1F, 1 := 0x10, 2 := 0x02, 0x10 := 0x01]);
    BitBranchRuns(r, map[0 := 0x9F, 1 := 0x10, 2 := 0x02, 0x10 := 0x01]);
    hide Exec;
  }

  // BBR0 $10,-2 at address 0 goes on at 257 instead of at 1.
  lemma BitBranchTargetFails(r: Regs)
    ensures Exec(Outcome(r.(pc := 0), map[0 := 0x0F, 1 := 0x10, 2 := 0xFE, 0x10 := 0x00], false)).r.pc == 257
  {
    BitBranchRuns(r, map[0 := 0x0F, 1 := 0x10, 2 := 0xFE, 0x10 := 0x00]);
    hide Exec;
  }

  lemma BitBranchRuns(r: Regs, mem: Memory)
    requires Read(mem, 0) == 0x0F || Read(mem, 0) == 0x1F || Read(mem, 0) == 0x9F
    requires Read(mem, 1) == 0x10
    ensures Exec(Outcome(r.(pc := 0), mem, false)).r.pc ==
            if (Read(mem, 0x10) == 0) == (Read(mem, 0) < 0x80) then Add16(3, Read(mem, 2)) else 3
  {
    hide Read, Add16;
  }

  // BIT sets N and V from its operand also in the immediate mode, where only Z is documented.
  lemma BitImmediateExact(r: Regs, v: Byte, ea: Addr)
    ensures SingleResult(Bit, r, v, ea) == r.(status := r.status.(z := BitAnd(r.a, v) == 0)) <==>
            Has(v, 0x80) == r.status.n && Has(v, 0x40) == r.status.v
  {
    hide Has, BitAnd;
  }

  // BIT #$C0 sets N and V.
  lemma BitImmediateFails(r: Regs)
    ensures var t := Exec(Outcome(r.(pc := 0), map[0 := 0x89, 1 := 0xC0], false)); t.r.status.n && t.r.status.v
  {
    hide BitAnd;
  }

  // WAI does not wait: the next instruction follows at once.
  lemma WaiIsNop(s: Outcome)
    requires Read(s.mem, s.r.pc) == 0xCB
    ensures Exec(s) == s.(r := s.r.(pc := Inc16(s.r.pc))) && Cycles(s) == 2
  {
    hide Read, Inc16;
  }

  // ----- the sticky page flag -----

  // The instructions that pay for a page crossing whether or not there is one: STA abs,X,
  // STA abs,Y, STA (zp),Y, STZ abs,X, INC abs,X and DEC abs,X.
  predicate PaysAlways(op: Byte) {
    op == 0x9D || op == 0x99 || op == 0x91 || op == 0x9E || op == 0xFE || op == 0xDE
  }

  // The cycles they are documented to take.
  function Documented(op: Byte): nat
    requires PaysAlways(op)
  {
    if op == 0x91 then 6 else if op == 0xFE || op == 0xDE then 7 else 5
  }

  // They take that number of cycles just if no instruction has crossed a page yet or this
  // one does; else one less.
  lemma FixedCyclesExact(s: Outcome)
    requires PaysAlways(Read(s.mem, s.r.pc))
    ensures var n := Documented(Read(s.mem, s.r.pc));
      && (Cycles(s) == n <==> !s.page || Fetch(s).o.crossed)
      && (s.page && !Fetch(s).o.crossed ==> Cycles(s) == n - 1)
  {
    hide Read, Inc16, Add16, Word, ZpWord, SamePage, Resolve;
  }

  // No other instruction's cycles depend on what was executed before.
  lemma PageFlagExact(s: Outcome)
    requires s.page
    ensures Cycles(s) == Cycles(s.(page := false)) <==>
            !PaysAlways(Read(s.mem, s.r.pc)) || Fetch(s).o.crossed
  {
    var op := Read(s.mem, s.r.pc);
    PenaltyOps(op);
    hide Read, Inc16, OperandOf, ModeOf, HandlerOf, KindOf, PaysAlways, OperandTicks, Taken, BranchTicks;
  }

  lemma PenaltyOps(op: Byte)
    ensures var k, h, m := KindOf(HandlerOf(op)), HandlerOf(op), ModeOf(op);
      PaysAlways(op) <==> (k.Saving? && SavePenalty(h, m, false) == 1)
                          || (k.Stepping? && !m.ACC? && StepPenalty(m, false) == 1)
  {
    if op < 0x80 {
    } else if op < 0xC0 {
    }
  }

  // After a page crossing anywhere before it, STA $1000,X at address 0 takes four cycles.
  lemma FixedCyclesFail(r: Regs)
    ensures var mem: Memory := map[0 := 0x9D, 1 := 0x00, 2 := 0x10];
      Cycles(Outcome(r.(pc := 0, x := 0), mem, true)) == 4 && Cycles(Outcome(r.(pc := 0, x := 0), mem, false)) == 5
  {
    var mem: Memory := map[0 := 0x9D, 1 := 0x00, 2 := 0x10];
    var s := Outcome(r.(pc := 0, x := 0), mem, true);
    JoinIsSum(0x00, 0x10);
    FixedCyclesExact(s);
    FixedCyclesExact(s.(page := false));
    hide Cycles;
  }
}

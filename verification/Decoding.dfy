// The opcode map and the instruction set say the same: what the decoding tables come to, where
// operands are, what operations do and how long they take.
module Decoding {
  import opened CpuTypes
  import opened Division
  import opened InstructionMachine
  import opened Isa
  import opened OpcodeMap
  import opened Words
  import IsaMeaning

  // ----- the decoding tables -----

  function GridMode(op: Byte): AddrMode {
    var col := Col(op);
    if op == 0x20 then ABSO
    else if op == 0x6C then IND
    else if op == 0x7C then ABIN
    else if op == 0x00 || op == 0x40 || op == 0x60 || op == 0xCB || (col == 0x2 && op < 0x80 && !Second(op)) then IMP
    else if IsAcc(op) then ACC
    else if col == 0x8 || col == 0xA then IMP
    else if IsBranch(op) then REL
    else if col == 0x2 && Second(op) then INDZ
    else if col == 0x1 || col == 0x3 then if Second(op) then INDY else INDX
    else if 0x4 <= col <= 0x7 then
      if !Second(op) || col == 0x7 || op == 0x14 then ZP else if op == 0x96 || op == 0xB6 then ZPY else ZPX
    else if !Second(op) && col < 0xC then IMM
    else if col == 0xF then ZPREL
    else if !Second(op) || op == 0x1C || op == 0x9C then ABSO
    else if col == 0x9 || col == 0xB || op == 0xBE then ABSY
    else ABSX
  }

  lemma ModeIs(op: Byte)
    ensures ModeOf(op) == GridMode(op)
  {
    if op < 0x80 {
      LowModes(op);
    } else {
      HighModes(op);
    }
  }

  lemma LowModes(op: Byte)
    requires op < 0x80
    ensures ModeOf(op) == GridMode(op)
  {
    if op < 0x10 {
    } else if op < 0x20 {
    } else if op < 0x30 {
    } else if op < 0x40 {
    } else if op < 0x50 {
    } else if op < 0x60 {
    } else if op < 0x70 {
    }
  }

  lemma HighModes(op: Byte)
    requires op >= 0x80
    ensures ModeOf(op) == GridMode(op)
  {
    if op < 0x90 {
    } else if op < 0xA0 {
    } else if op < 0xB0 {
    } else if op < 0xC0 {
    } else if op < 0xD0 {
    } else if op < 0xE0 {
    } else if op < 0xF0 {
    }
  }

  function GridHandler(op: Byte): Handler {
    var row := Row(op);
    if IsAlu(op) then
      match row case 0 => Ora case 1 => And case 2 => Eor case 3 => Adc
                case 4 => Sta case 5 => Lda case 6 => Cmp case _ => Sbc
    else if IsColumn(op) then
      match row case 0 => Asl case 1 => Rol case 2 => Lsr case 3 => Ror
                case 4 => if op == 0x9E then Stz else Stx case 5 => Ldx case 6 => Dec case _ => Inc
    else if IsAcc(op) then
      match AccRow(op) case 0 => Asl case 1 => Rol case 2 => Lsr case 3 => Ror case 6 => Dec case _ => Inc
    else if Col(op) == 0x7 then if op < 0x80 then Rmb else Smb
    else if Col(op) == 0xF then if op < 0x80 then Bbr else Bbs
    else if IsBranch(op) then if op == 0x80 then Bra else Bxx
    else OtherHandler(op)
  }

  function OtherHandler(op: Byte): Handler {
    match op
    case 0x00 => Brk case 0x20 => Jsr case 0x40 => Rti case 0x60 => Rts
    case 0x4C | 0x6C | 0x7C => Jmp
    case 0x08 | 0x48 | 0x5A | 0xDA => Push
    case 0x28 | 0x68 | 0x7A | 0xFA => Pull
    case 0x24 | 0x2C | 0x34 | 0x3C | 0x89 => Bit
    case 0x04 | 0x0C => Tsb case 0x14 | 0x1C => Trb
    case 0x64 | 0x74 | 0x9C => Stz
    case 0x84 | 0x8C | 0x94 => Sty
    case 0xA2 => Ldx
    case 0xA0 | 0xA4 | 0xAC | 0xB4 | 0xBC => Ldy
    case 0xC0 | 0xC4 | 0xCC => Cpy
    case 0xE0 | 0xE4 | 0xEC => Cpx
    case 0x18 => Clc case 0x38 => Sec case 0x58 => Cli case 0x78 => Sei
    case 0xB8 => Clv case 0xD8 => Cld case 0xF8 => Sed
    case 0x88 => Dey case 0xC8 => Iny case 0xCA => Dex case 0xE8 => Inx
    case 0x8A => Txa case 0x98 => Tya case 0x9A => Txs case 0xA8 => Tay case 0xAA => Tax case 0xBA => Tsx
    case 0xCB => Wai
    case _ => Nop
  }

  lemma HandlerIs(op: Byte)
    ensures HandlerOf(op) == GridHandler(op)
  {
    if op < 0x20 {
      Handlers00(op);
    } else if op < 0x40 {
      Handlers20(op);
    } else if op < 0x60 {
      Handlers40(op);
    } else if op < 0x80 {
      Handlers60(op);
    } else if op < 0xA0 {
      Handlers80(op);
    } else if op < 0xC0 {
      HandlersA0(op);
    } else if op < 0xE0 {
      HandlersC0(op);
    } else {
      HandlersE0(op);
    }
  }

  lemma InLine(op: Byte, line: nat)
    requires 0x10 * line <= op < 0x10 * line + 0x10
    ensures op / 0x10 == line && op % 0x10 == op - 0x10 * line
  {
    Quotient(op, 0x10, line);
  }

  lemma Handlers00(op: Byte)
    requires op < 0x20
    ensures HandlerOf(op) == GridHandler(op)
  {
    if op < 0x10 {
      InLine(op, 0x0);
    } else {
      InLine(op, 0x1);
    }
  }

  lemma Handlers20(op: Byte)
    requires 0x20 <= op < 0x40
    ensures HandlerOf(op) == GridHandler(op)
  {
    if op < 0x30 {
      InLine(op, 0x2);
    } else {
      InLine(op, 0x3);
    }
  }

  lemma Handlers40(op: Byte)
    requires 0x40 <= op < 0x60
    ensures HandlerOf(op) == GridHandler(op)
  {
    if op < 0x50 {
      InLine(op, 0x4);
    } else {
      InLine(op, 0x5);
    }
  }

  lemma Handlers60(op: Byte)
    requires 0x60 <= op < 0x80
    ensures HandlerOf(op) == GridHandler(op)
  {
    if op < 0x70 {
      InLine(op, 0x6);
    } else {
      InLine(op, 0x7);
    }
  }

  lemma Handlers80(op: Byte)
    requires 0x80 <= op < 0xA0
    ensures HandlerOf(op) == GridHandler(op)
  {
    if op < 0x90 {
      InLine(op, 0x8);
    } else {
      InLine(op, 0x9);
    }
  }

  lemma HandlersA0(op: Byte)
    requires 0xA0 <= op < 0xC0
    ensures HandlerOf(op) == GridHandler(op)
  {
    if op < 0xB0 {
      InLine(op, 0xA);
    } else {
      InLine(op, 0xB);
    }
  }

  lemma HandlersC0(op: Byte)
    requires 0xC0 <= op < 0xE0
    ensures HandlerOf(op) == GridHandler(op)
  {
    if op < 0xD0 {
      InLine(op, 0xC);
    } else {
      InLine(op, 0xD);
    }
  }

  lemma HandlersE0(op: Byte)
    requires op >= 0xE0
    ensures HandlerOf(op) == GridHandler(op)
  {
    if op < 0xF0 {
      InLine(op, 0xE);
    } else {
      InLine(op, 0xF);
    }
  }

  // ----- operands -----

  lemma ReadIs(mem: Memory, addr: Addr)
    ensures Read(mem, addr) == At(mem, addr)
  {
  }

  lemma PageLeft(base: Addr, index: Byte)
    ensures SamePage(base, Add16(base, index)) <==> base % 0x100 + index < 0x100
  {
    assert base == 0x100 * (base / 0x100) + base % 0x100;
    if base % 0x100 + index < 0x100 {
      Quotient(base + index, 0x100, base / 0x100);
    } else if base + index < 0x10000 {
      Quotient(base + index, 0x100, base / 0x100 + 1);
    }
  }

  // The same, mode by mode.
  function ModePlace(mode: AddrMode, s: Outcome): Addr {
    var b, w := Arg(s), ArgWord(s);
    match mode
    case IMM => Wrap(s.r.pc + 1)
    case ZP => b
    case ZPX => (b + s.r.x) % 0x100
    case ZPY => (b + s.r.y) % 0x100
    case ABSO => w
    case ABSX => Wrap(w + s.r.x)
    case ABSY => Wrap(w + s.r.y)
    case INDX => Pointer(s.mem, b + s.r.x)
    case INDY => Wrap(Pointer(s.mem, b) + s.r.y)
    case INDZ => Pointer(s.mem, b)
    case _ => 0
  }

  predicate ModeCrosses(mode: AddrMode, s: Outcome) {
    (mode.INDY? && Pointer(s.mem, Arg(s)) % 0x100 + s.r.y >= 0x100)
    || (mode.ABSX? && Arg(s) + s.r.x >= 0x100) || (mode.ABSY? && Arg(s) + s.r.y >= 0x100)
  }

  function ModeLength(mode: AddrMode): nat {
    if mode.IMP? || mode.ACC? then 1
    else if mode.ABSO? || mode.ABSX? || mode.ABSY? || mode.IND? || mode.ABIN? || mode.ZPREL? then 3
    else 2
  }

  predicate HasPlace(mode: AddrMode) {
    !(mode.IMP? || mode.ACC? || mode.REL? || mode.IND? || mode.ABIN? || mode.ZPREL?)
  }

  lemma PlaceIs(s: Outcome)
    ensures var mode := GridMode(Opcode(s));
      && Length(Opcode(s)) == ModeLength(mode) && Crosses(s) == ModeCrosses(mode, s)
      && (HasPlace(mode) && Opcode(s) != 0x20 ==> Place(s) == ModePlace(mode, s))
  {
    hide Pointer, At, ArgWord, Arg;
    var op := Opcode(s);
    hide Opcode;
  }

  // Fetch finds the operand where Place has it, and leaves the program counter past the
  // instruction's bytes.
  lemma Found(s: Outcome)
    ensures Fetch(s).opcode == Opcode(s) && Fetch(s).page == (s.page || Crosses(s))
    ensures var op := Opcode(s);
      op != 0x20 && op != 0x6C && op != 0x7C ==> Fetch(s).r == s.r.(pc := Wrap(s.r.pc + Length(op)))
    ensures HasPlace(GridMode(Opcode(s))) && Opcode(s) != 0x20 ==> Fetch(s).o.ea == Place(s)
  {
    var op, q := Opcode(s), s.r.(pc := Inc16(s.r.pc));
    var mode := GridMode(op);
    ModeIs(op);
    PlaceIs(s);
    ReadIs(s.mem, s.r.pc);
    NoSuchMode(op);
    Resolves(s, q, mode);
    hide ModeOf, GridMode, At, Read, Length, Crosses, Place, Resolve, ModePlace, ModeCrosses, HasPlace;
    if op == 0x20 {
      CallHasNoPage(s);
    }
  }

  lemma NoSuchMode(op: Byte)
    ensures GridMode(op).IND? <==> op == 0x6C
    ensures GridMode(op).ABIN? <==> op == 0x7C
    ensures op == 0x20 ==> GridMode(op).ABSO?
  {
  }

  lemma CallHasNoPage(s: Outcome)
    requires Opcode(s) == 0x20
    ensures !Crosses(s)
  {
  }

  // What Resolve makes of a mode, in these terms.
  predicate IsFound(s: Outcome, mode: AddrMode, o: Operand) {
    && o.crossed == ModeCrosses(mode, s) && (HasPlace(mode) ==> o.ea == ModePlace(mode, s))
    && (!mode.IND? && !mode.ABIN? ==> o.pc == Wrap(s.r.pc + ModeLength(mode)))
  }

  lemma Resolves(s: Outcome, q: Regs, mode: AddrMode)
    requires q == s.r.(pc := Inc16(s.r.pc))
    ensures IsFound(s, mode, Resolve(mode, q, s.mem))
  {
    ReadIs(s.mem, q.pc);
    assert Read(s.mem, q.pc) == Arg(s);
    hide Read, At;
    if mode.INDX? || mode.INDY? || mode.INDZ? {
      ResolvesPointer(s, q, mode);
    } else if mode.ABSO? {
      ResolvesAbsolute(s, q);
    } else if mode.ABSX? || mode.ABSY? {
      ResolvesIndexed(s, q, mode);
    } else {
      hide Pointer, Word, ArgWord, Signed;
    }
  }

  lemma ResolvesPointer(s: Outcome, q: Regs, mode: AddrMode)
    requires q == s.r.(pc := Inc16(s.r.pc)) && Read(s.mem, q.pc) == Arg(s)
    requires mode.INDX? || mode.INDY? || mode.INDZ?
    ensures IsFound(s, mode, Resolve(mode, q, s.mem))
  {
    hide At, Read, Arg, SamePage, ZpWord, Pointer, ZpAdd;
    var b := Arg(s);
    if mode.INDX? {
      PointerIs(s.mem, ZpAdd(b, s.r.x));
      PointerWraps(s.mem, b, s.r.x);
    } else {
      PointerIs(s.mem, b);
      PageLeft(Pointer(s.mem, b), s.r.y);
    }
  }

  lemma WrapIs(a: Addr, d: int)
    ensures Add16(a, d) == Wrap(a + d)
  {
  }

  lemma ResolvesAbsolute(s: Outcome, q: Regs)
    requires q == s.r.(pc := Inc16(s.r.pc))
    ensures IsFound(s, ABSO, Resolve(ABSO, q, s.mem))
  {
    ArgsAreWord(s, q.pc);
    AddSmall(s.r.pc);
    hide At, Word, Arg, Pointer, ArgWord, Inc16;
  }

  // The index is X or Y.
  lemma ResolvesIndexed(s: Outcome, q: Regs, mode: AddrMode)
    requires q == s.r.(pc := Inc16(s.r.pc)) && (mode.ABSX? || mode.ABSY?)
    ensures IsFound(s, mode, Resolve(mode, q, s.mem))
  {
    hide At, Word, Arg, Arg2, Pointer, ArgWord, SamePage, Little, Wrap, Inc16, Add16;
    var w, index := ArgWord(s), if mode.ABSX? then s.r.x else s.r.y;
    ArgsAreWord(s, q.pc);
    ThirdByte(s.r.pc);
    WrapIs(w, index);
    ArgWordCrosses(s, index);
    assert Resolve(mode, q, s.mem) == Indexed(w, index, Inc16(Inc16(q.pc)));
  }

  lemma ThirdByte(p: Addr)
    ensures Inc16(Inc16(Inc16(p))) == Wrap(p + 3)
  {
  }

  lemma ArgWordCrosses(s: Outcome, index: Byte)
    ensures SamePage(ArgWord(s), Add16(ArgWord(s), index)) <==> Arg(s) + index < 0x100
  {
    WordCrosses(Arg(s), Arg2(s), index);
  }

  lemma PointerWraps(mem: Memory, b: Byte, x: Byte)
    ensures Pointer(mem, ZpAdd(b, x)) == Pointer(mem, b + x)
  {
    hide At;
    if b + x >= 0x100 {
      assert (b + x) % 0x100 == b + x - 0x100;
    }
  }

  lemma ArgsAreWord(s: Outcome, p: Addr)
    requires p == Inc16(s.r.pc)
    ensures Word(s.mem, p) == ArgWord(s)
  {
    WordIs(s.mem, p);
    hide Word;
    if s.r.pc == 0xFFFF {
    } else if s.r.pc == 0xFFFE {
    }
  }

  lemma WordCrosses(lo: Byte, hi: Byte, index: Byte)
    ensures SamePage(Little(lo, hi), Add16(Little(lo, hi), index)) <==> lo + index < 0x100
  {
    Quotient(Little(lo, hi), 0x100, hi);
    PageLeft(Little(lo, hi), index);
    hide SamePage, Add16;
  }

  lemma PointerIs(mem: Memory, b: Byte)
    ensures ZpWord(mem, b) == Pointer(mem, b)
  {
    JoinIsSum(Read(mem, b), Read(mem, ZpInc(b)));
    ReadIs(mem, b);
    ReadIs(mem, ZpInc(b));
    hide Join, Read, At;
  }

  lemma WordIs(mem: Memory, addr: Addr)
    ensures Word(mem, addr) == WordIn(mem, addr)
  {
    JoinIsSum(Read(mem, addr), Read(mem, Inc16(addr)));
    hide Join;
  }

  // ----- operations -----

  lemma NzIs(f: Flags, v: Byte)
    ensures SetNZ(f, v) == NZ(f, v)
  {
  }

  lemma SumFlagsIs(f: Flags, a: Byte, v: Byte)
    ensures var sum, total := a + v + Carry(f), Int8(a) + Int8(v) + Carry(f);
      SumFlags(f, a, v) == NZ(f, sum % 0x100).(c := sum >= 0x100, v := total < -128 || total > 127)
  {
    IsaMeaning.SumFlagsMeaning(f, a, v);
    NzIs(f, Low(SumOf(a, v, f)));
    hide Has, SetNZ;
  }

  lemma AddIs(r: Regs, v: Byte)
    ensures AddTo(r, v) == Added(r, v)
  {
    SumFlagsIs(r.status, r.a, v);
    hide SumFlags, NZ;
  }

  // A difference is a sum with the complement.
  lemma DiffFlagsIs(f: Flags, a: Byte, v: Byte)
    ensures var borrow := 1 - Carry(f);
      var diff, total := a - v - borrow, Int8(a) - Int8(v) - borrow;
      && SumFlags(f, a, BitNot(v)) == NZ(f, diff % 0x100).(c := diff >= 0, v := total < -128 || total > 127)
      && Low(SumOf(a, BitNot(v), f)) == diff % 0x100
  {
    SumFlagsIs(f, a, BitNot(v));
    var diff := a - v - (1 - Carry(f));
    assert SumOf(a, BitNot(v), f) == diff + 0x100 && Int8(BitNot(v)) == -1 - Int8(v);
    assert (diff + 0x100) % 0x100 == diff % 0x100;
    hide SumFlags, NZ, Int8;
  }

  lemma SubIs(r: Regs, v: Byte)
    ensures SubFrom(r, v) == Subtracted(r, v)
  {
    DiffFlagsIs(r.status, r.a, v);
    DecimalSubIs(r.a);
    hide SumFlags, NZ, SumOf, Int8, BitNot, Low, DecimalSub;
  }

  lemma DecimalSubIs(a: Byte)
    ensures var low := (a - 0x66) % 0x100;
      var t := if low % 0x10 > 9 then (low + 6) % 0x100 else low;
      var over := t / 0x10 % 0x10 > 9;
      DecimalSub(a) == ((if over then t + 0x60 else t) % 0x100, over)
  {
  }

  lemma CompareIs(f: Flags, reg: Byte, v: Byte)
    ensures Compare(f, reg, v) == Compared(f, reg, v)
  {
    NzIs(f, Low(reg - v));
    hide SetNZ;
  }

  lemma BitsAre(a: Byte, b: Byte)
    ensures BitAnd(a, b) == And8(a, b) && BitOr(a, b) == Or8(a, b) && BitXor(a, b) == Xor8(a, b)
  {
  }

  lemma SetIs(r: Regs, v: Byte)
    ensures SetA(r, v) == WithA(r, v) && SetX(r, v) == WithX(r, v) && SetY(r, v) == WithY(r, v)
  {
    NzIs(r.status, v);
    hide SetNZ, NZ;
  }

  lemma AluHandlers(op: Byte)
    requires IsAlu(op)
    ensures GridHandler(op) ==
      match Row(op) case 0 => Ora case 1 => And case 2 => Eor case 3 => Adc
                      case 4 => Sta case 5 => Lda case 6 => Cmp case _ => Sbc
    ensures HasPlace(GridMode(op)) && op != 0x20 && op != 0x6C && op != 0x7C
  {
  }

  lemma AluIs(row: nat, h: Handler, r: Regs, v: Byte, p: Addr)
    requires row < 8 && row != 4 && row != 3 && row != 7
    requires h == match row case 0 => Ora case 1 => And case 2 => Eor case 5 => Lda case _ => Cmp
    ensures KindOf(h) == Single && SingleResult(h, r, v, p) == Alu(row, r, v)
  {
    BitsAre(r.a, v);
    SetIs(r, BitOr(r.a, v));
    SetIs(r, BitAnd(r.a, v));
    SetIs(r, BitXor(r.a, v));
    SetIs(r, v);
    CompareIs(r.status, r.a, v);
    hide Compare, Compared, SetA, SetX, SetY, WithA, WithX, WithY, Has, BitAnd, BitOr, BitXor, And8, Or8, Xor8;
  }

  // ----- the instructions, column by column -----

  predicate IsRegular(op: Byte) {
    IsAlu(op) || IsColumn(op) || IsAcc(op) || Col(op) == 0x7 || Col(op) == 0xF || IsBranch(op)
  }

  predicate HasOperand(op: Byte) { TestsBits(op) || ChangesBits(op) || Stores(op) || Loads(op) || Compares(op) }

  // The columns have no opcode in common.
  lemma Columns(s: Outcome, m: Machine, p: Addr, v: Byte)
    ensures var op, n := Opcode(s), Step(s, m, p, v);
      && (IsAlu(op) ==> n == AluStep(Row(op), m, p, v))
      && (IsColumn(op) ==> n == ColumnStep(op, m, p, v))
      && (IsAcc(op) ==> n == m.(r := ShiftA(AccRow(op), m.r)))
      && (Col(op) == 0x7 ==> n == BitStep(op, m, p, v))
      && (Col(op) == 0xF ==> n == if BitBranches(s) then JumpBy(m, Arg2(s)) else m)
      && (IsBranch(op) ==> n == if Branches(op, m.r.status) then JumpBy(m, Int8(Arg(s))) else m)
      && (!IsRegular(op) ==> n == Irregular(s, m, p, v))
  {
    hide AluStep, ColumnStep, ShiftA, BitStep, JumpBy, Irregular, BitBranches, Branches, Opcode, AccRow;
  }

  lemma Others(s: Outcome, m: Machine, p: Addr, v: Byte)
    ensures var op, n := Opcode(s), Irregular(s, m, p, v);
      && (TestsBits(op) ==> n == TestStep(m, v)) && (ChangesBits(op) ==> n == ChangeStep(op, m, p, v))
      && (Stores(op) ==> n == StoreStep(op, m, p)) && (Loads(op) ==> n == LoadStep(op, m, v))
      && (Compares(op) ==> n == CompareStep(op, m, v)) && (UsesStack(op) ==> n == StackStep(s, m))
      && (Transfers(op) ==> n == TransferStep(s, m))
      && (!HasOperand(op) && !UsesStack(op) && !Transfers(op) ==> n == m.(r := Implied(op, m.r)))
  {
    hide TestStep, ChangeStep, StoreStep, LoadStep, CompareStep, StackStep, TransferStep, Implied, Opcode;
  }

  lemma OtherIs(op: Byte)
    ensures !IsRegular(op) ==> GridHandler(op) == OtherHandler(op)
  {
    hide OtherHandler, Line, Col, Second, Row, AccRow;
  }

  // What an instruction's operation makes of the machine past its bytes.
  function Operated(s: Outcome): Machine {
    var op, f := Opcode(s), Fetch(s);
    Operate(KindOf(GridHandler(op)), GridHandler(op), GridMode(op), op, f.r, f.o, s.mem)
  }

  // If that is the step, then instruction and effect are the same.
  lemma SameEffect(s: Outcome)
    requires Operated(s) == Step(s, Past(s), Place(s), At(s.mem, Place(s)))
    ensures Exec(s) == Effect(s)
  {
    hide HandlerOf, GridHandler, ModeOf, GridMode, KindOf, Operate, Opcode, Crosses, Length, Place, Step, At;
    HandlerIs(Opcode(s));
    ModeIs(Opcode(s));
    Found(s);
    hide Fetch;
  }

  // Fetch leaves the machine past the instruction's bytes, and finds the operand.
  lemma Fetches(s: Outcome)
    ensures Opcode(s) != 0x20 && Opcode(s) != 0x6C && Opcode(s) != 0x7C ==> Fetch(s).r == Past(s).r
    ensures HasPlace(GridMode(Opcode(s))) && Opcode(s) != 0x20 ==>
      Fetch(s).o.ea == Place(s) && Read(s.mem, Fetch(s).o.ea) == At(s.mem, Place(s))
  {
    hide GridMode, Opcode, Crosses, Length, Place;
    Found(s);
    ReadIs(s.mem, Fetch(s).o.ea);
    hide At, Read, Fetch;
  }

  lemma AluOperated(op: Byte, mode: AddrMode, m: Machine, o: Operand, v: Byte)
    requires IsAlu(op) && HasPlace(mode) && v == Read(m.mem, o.ea)
    ensures Operate(KindOf(GridHandler(op)), GridHandler(op), mode, op, m.r, o, m.mem) == AluStep(Row(op), m, o.ea, v)
  {
    hide GridHandler, IsAlu, Read, SingleResult, KindOf, AddTo, SubFrom, Alu;
    AluHandlers(op);
    var row := Row(op);
    AluKinds(m.r, v);
    if row != 3 && row != 4 && row != 7 {
      AluIs(row, GridHandler(op), m.r, v, o.ea);
    }
  }

  lemma AluEffect(s: Outcome)
    requires IsAlu(Opcode(s))
    ensures Exec(s) == Effect(s)
  {
    hide GridHandler, GridMode, Fetch, Place, Read, At, Operate, Step, AluStep, KindOf;
    AluHandlers(Opcode(s));
    Fetches(s);
    hide Opcode, IsAlu, HasPlace;
    AluOperated(Opcode(s), GridMode(Opcode(s)), Past(s), Fetch(s).o, At(s.mem, Place(s)));
    Columns(s, Past(s), Place(s), At(s.mem, Place(s)));
    SameEffect(s);
  }

  lemma AluKinds(r: Regs, v: Byte)
    ensures KindOf(Sta) == Saving && KindOf(Adc) == Arith && KindOf(Sbc) == Arith
    ensures AddTo(r, v) == Alu(3, r, v) && SubFrom(r, v) == Alu(7, r, v)
  {
    AddIs(r, v);
    SubIs(r, v);
    hide AddTo, Added, SubFrom, Subtracted;
  }

  lemma StepsAre(b: Byte)
    ensures Inc8(b) == Up(b) && Dec8(b) == Down(b)
  {
  }

  lemma ShiftedIs(row: nat, h: Handler, r: Regs, v: Byte)
    requires row < 8 && row != 4 && row != 5
    requires h == match row case 0 => Asl case 1 => Rol case 2 => Lsr case 3 => Ror case 6 => Dec case _ => Inc
    ensures Shifted(row, r.status, v) == (RmwValue(h, r, v), RmwFlags(h, r, v))
    ensures KindOf(h) == (if row >= 6 then Stepping else Shifting)
  {
    hide SetNZ, BitAnd, BitOr, Inc8, Dec8, Up, Down, Has;
    NzIs(r.status, RmwValue(h, r, v));
    if row >= 6 {
      StepsAre(v);
    } else {
      EndBits(v);
    }
  }

  lemma EndBits(v: Byte)
    ensures Has(v, 0x80) <==> v >= 0x80
    ensures Has(v, 1) <==> v % 2 == 1
  {
  }

  lemma ColumnHandlers(op: Byte)
    requires IsColumn(op)
    ensures HasPlace(GridMode(op)) && op != 0x20 && op != 0x6C && op != 0x7C
    ensures GridHandler(op) ==
      match Row(op) case 0 => Asl case 1 => Rol case 2 => Lsr case 3 => Ror
                      case 4 => if op == 0x9E then Stz else Stx case 5 => Ldx case 6 => Dec case _ => Inc
  {
  }

  lemma ColumnOperated(op: Byte, mode: AddrMode, m: Machine, o: Operand, v: Byte)
    requires IsColumn(op) && HasPlace(mode) && v == Read(m.mem, o.ea)
    ensures Operate(KindOf(GridHandler(op)), GridHandler(op), mode, op, m.r, o, m.mem) == ColumnStep(op, m, o.ea, v)
  {
    hide GridHandler, Read, Shifted, RmwValue, RmwFlags, SetX, WithX, BitAnd, BitOr, BitXor, Has, Compare;
    ColumnHandlers(op);
    var row := Row(op);
    hide Row, IsColumn;
    if row == 5 {
      SetIs(m.r, v);
    } else if row != 4 {
      ShiftedIs(row, GridHandler(op), m.r, v);
      hide KindOf;
    }
  }

  lemma ColumnEffect(s: Outcome)
    requires IsColumn(Opcode(s))
    ensures Exec(s) == Effect(s)
  {
    hide GridHandler, GridMode, Fetch, Place, Read, At, Operate, Step, ColumnStep, KindOf;
    ColumnHandlers(Opcode(s));
    Fetches(s);
    hide Opcode, HasPlace;
    ColumnOperated(Opcode(s), GridMode(Opcode(s)), Past(s), Fetch(s).o, At(s.mem, Place(s)));
    Columns(s, Past(s), Place(s), At(s.mem, Place(s)));
    SameEffect(s);
  }

  lemma AccHandlers(op: Byte)
    requires IsAcc(op)
    ensures GridMode(op).ACC? && op != 0x20 && op != 0x6C && op != 0x7C
    ensures AccRow(op) < 8 && AccRow(op) != 4 && AccRow(op) != 5
    ensures GridHandler(op) ==
      match AccRow(op) case 0 => Asl case 1 => Rol case 2 => Lsr case 3 => Ror case 6 => Dec case _ => Inc
  {
  }

  lemma AccEffect(s: Outcome)
    requires IsAcc(Opcode(s))
    ensures Exec(s) == Effect(s)
  {
    hide GridHandler, GridMode, Fetch, Place, Read, At, Step, KindOf, RmwValue, RmwFlags, Shifted, AccRow;
    var op := Opcode(s);
    AccHandlers(op);
    Fetches(s);
    hide Opcode, IsAcc;
    ShiftedIs(AccRow(op), GridHandler(op), Past(s).r, Past(s).r.a);
    Columns(s, Past(s), Place(s), At(s.mem, Place(s)));
    SameEffect(s);
  }

  lemma BitHandlers(op: Byte)
    requires Col(op) == 0x7
    ensures HasPlace(GridMode(op)) && op != 0x20 && op != 0x6C && op != 0x7C
    ensures GridHandler(op) == if op < 0x80 then Rmb else Smb
  {
  }

  lemma BitOperated(h: Handler, op: Byte, mode: AddrMode, m: Machine, o: Operand, v: Byte)
    requires h == (if op < 0x80 then Rmb else Smb) && HasPlace(mode) && v == Read(m.mem, o.ea)
    ensures Operate(KindOf(h), h, mode, op, m.r, o, m.mem) == BitStep(op, m, o.ea, v)
  {
    BitsAre(v, 0xFE);
    BitsAre(v, 0x01);
    hide Read, BitAnd, BitOr, And8, Or8, SetNZ;
  }

  lemma BitEffect(s: Outcome)
    requires Col(Opcode(s)) == 0x7
    ensures Exec(s) == Effect(s)
  {
    hide GridHandler, GridMode, Fetch, Place, Read, At, Operate, Step, BitStep, KindOf;
    var op := Opcode(s);
    BitHandlers(op);
    Fetches(s);
    hide Opcode, HasPlace;
    BitOperated(GridHandler(op), op, GridMode(op), Past(s), Fetch(s).o, At(s.mem, Place(s)));
    Columns(s, Past(s), Place(s), At(s.mem, Place(s)));
    SameEffect(s);
  }

  lemma BitBranchHandlers(op: Byte)
    requires Col(op) == 0xF
    ensures GridMode(op).ZPREL? && op != 0x20 && op != 0x6C && op != 0x7C
    ensures GridHandler(op) == if op < 0x80 then Bbr else Bbs
  {
  }

  lemma BitArgs(s: Outcome)
    requires Col(Opcode(s)) == 0xF
    ensures Fetch(s).o.val == At(s.mem, Arg(s)) && Fetch(s).o.rel == Arg2(s)
  {
    ModeIs(Opcode(s));
    BitBranchHandlers(Opcode(s));
    ReadIs(s.mem, s.r.pc);
    ReadIs(s.mem, Inc16(s.r.pc));
    ReadIs(s.mem, Inc16(Inc16(s.r.pc)));
    ReadIs(s.mem, Arg(s));
    hide ModeOf, GridMode, GridHandler, Read;
    assert At(s.mem, Inc16(Inc16(s.r.pc))) == Arg2(s);
    assert At(s.mem, Inc16(s.r.pc)) == Arg(s);
    hide At, Arg, Arg2;
  }

  lemma BitBranchEffect(s: Outcome)
    requires Col(Opcode(s)) == 0xF
    ensures Exec(s) == Effect(s)
  {
    hide GridHandler, GridMode, Fetch, Place, Read, At, Step, Arg, Arg2;
    BitBranchHandlers(Opcode(s));
    Fetches(s);
    BitArgs(s);
    hide Opcode;
    Columns(s, Past(s), Place(s), At(s.mem, Place(s)));
    SameEffect(s);
  }

  lemma BranchOps(op: Byte)
    requires IsBranch(op)
    ensures GridMode(op).REL? && op != 0x20 && op != 0x6C && op != 0x7C
    ensures GridHandler(op) == if op == 0x80 then Bra else Bxx
  {
  }

  lemma BranchesIf(op: Byte, f: Flags, val: Byte)
    requires IsBranch(op)
    ensures Taken(if op == 0x80 then Bra else Bxx, op, f, val) == Branches(op, f)
  {
  }

  lemma BranchArg(s: Outcome)
    requires IsBranch(Opcode(s))
    ensures Fetch(s).o.rel == Signed(Arg(s))
  {
    ModeIs(Opcode(s));
    BranchOps(Opcode(s));
    ReadIs(s.mem, s.r.pc);
    ReadIs(s.mem, Inc16(s.r.pc));
    hide ModeOf, GridMode, GridHandler, Read, Signed;
    assert At(s.mem, Inc16(s.r.pc)) == Arg(s);
  }

  lemma BranchEffect(s: Outcome)
    requires IsBranch(Opcode(s))
    ensures Exec(s) == Effect(s)
  {
    hide GridHandler, GridMode, Fetch, Place, Read, At, Step, Arg, Taken, Branches, Signed;
    var op, f := Opcode(s), Fetch(s);
    BranchOps(op);
    Fetches(s);
    BranchArg(s);
    IsaMeaning.BranchMeaning(f.r.pc, Arg(s));
    BranchesIf(op, f.r.status, f.o.val);
    hide Opcode, IsBranch;
    Columns(s, Past(s), Place(s), At(s.mem, Place(s)));
    SameEffect(s);
  }

  lemma OperandOps(op: Byte)
    requires HasOperand(op)
    ensures TestsBits(op) ==> OtherHandler(op) == Bit
    ensures ChangesBits(op) ==> OtherHandler(op) == if op < 0x10 then Tsb else Trb
    ensures Stores(op) ==> OtherHandler(op) == if op == 0x84 || op == 0x8C || op == 0x94 then Sty else Stz
    ensures Loads(op) ==> OtherHandler(op) == if op == 0xA2 then Ldx else Ldy
    ensures Compares(op) ==> OtherHandler(op) == if op < 0xE0 then Cpy else Cpx
  {
  }

  lemma OperandModes(op: Byte)
    requires HasOperand(op)
    ensures !IsRegular(op) && HasPlace(GridMode(op)) && op != 0x20 && op != 0x6C && op != 0x7C
  {
    if TestsBits(op) {
    } else if ChangesBits(op) {
    } else if Stores(op) {
    } else if Loads(op) {
    }
  }

  // What Operate makes of each.
  lemma PutIs(mem: Memory, addr: Addr, v: Byte)
    ensures Write(mem, addr, v) == Put(mem, addr, v)
  {
  }

  lemma TestIs(mode: AddrMode, op: Byte, m: Machine, o: Operand, v: Byte)
    requires !mode.ACC? && v == Read(m.mem, o.ea)
    ensures Operate(KindOf(Bit), Bit, mode, op, m.r, o, m.mem) == TestStep(m, v)
  {
    BitsAre(m.r.a, v);
    assert Has(v, 0x80) <==> v >= 0x80;
    assert Has(v, 0x40) <==> v / 0x40 % 2 == 1;
    hide Read, BitAnd, And8, Has;
  }

  lemma ChangeIs(h: Handler, mode: AddrMode, op: Byte, m: Machine, o: Operand, v: Byte)
    requires !mode.ACC? && v == Read(m.mem, o.ea) && h == if op < 0x10 then Tsb else Trb
    ensures Operate(KindOf(h), h, mode, op, m.r, o, m.mem) == ChangeStep(op, m, o.ea, v)
  {
    hide Read, Write, Put, SetNZ, BitAnd, BitOr, And8, Or8;
    BitsAre(v, m.r.a);
    BitsAre(v, 0xFF - m.r.a);
    PutIs(m.mem, o.ea, RmwValue(h, m.r, v));
  }

  lemma StoreIs(h: Handler, mode: AddrMode, op: Byte, m: Machine, o: Operand)
    requires !mode.ACC? && h == if op == 0x84 || op == 0x8C || op == 0x94 then Sty else Stz
    ensures Operate(KindOf(h), h, mode, op, m.r, o, m.mem) == StoreStep(op, m, o.ea)
  {
  }

  lemma LoadIs(h: Handler, mode: AddrMode, op: Byte, m: Machine, o: Operand, v: Byte)
    requires !mode.ACC? && v == Read(m.mem, o.ea) && h == if op == 0xA2 then Ldx else Ldy
    ensures Operate(KindOf(h), h, mode, op, m.r, o, m.mem) == LoadStep(op, m, v)
  {
    SetIs(m.r, v);
    hide Read, SetX, SetY, WithX, WithY;
  }

  lemma ComparesIs(h: Handler, mode: AddrMode, op: Byte, m: Machine, o: Operand, v: Byte)
    requires !mode.ACC? && v == Read(m.mem, o.ea) && h == if op < 0xE0 then Cpy else Cpx
    ensures Operate(KindOf(h), h, mode, op, m.r, o, m.mem) == CompareStep(op, m, v)
  {
    CompareIs(m.r.status, m.r.x, v);
    CompareIs(m.r.status, m.r.y, v);
    hide Read, Compare, Compared;
  }

  lemma OperandEffect(s: Outcome)
    requires HasOperand(Opcode(s))
    ensures Exec(s) == Effect(s)
  {
    hide GridHandler, GridMode, Fetch, Place, Read, At, Operate, Step, Irregular, KindOf;
    hide TestStep, ChangeStep, StoreStep, LoadStep, CompareStep;
    var op, o, v := Opcode(s), Fetch(s).o, At(s.mem, Place(s));
    var h, mode, m := GridHandler(op), GridMode(op), Past(s);
    OperandOps(op);
    OperandModes(op);
    OtherIs(op);
    hide OtherHandler;
    Fetches(s);
    Columns(s, m, o.ea, v);
    Others(s, m, o.ea, v);
    hide Opcode, IsRegular, TestsBits, ChangesBits, Stores, Loads, Compares;
    if TestsBits(op) {
      TestIs(mode, op, m, o, v);
    } else if ChangesBits(op) {
      ChangeIs(h, mode, op, m, o, v);
    } else if Stores(op) {
      StoreIs(h, mode, op, m, o);
    } else if Loads(op) {
      LoadIs(h, mode, op, m, o, v);
    } else {
      ComparesIs(h, mode, op, m, o, v);
    }
    SameEffect(s);
  }

  lemma StatusIs(f: Flags)
    ensures ToByte(f) == StatusByte(f)
  {
  }

  lemma FlagsAre(p: Byte)
    ensures FromByte(p) == StatusOf(p)
  {
    assert p / 2 / 2 == p / 4 && p / 4 / 2 == p / 8 && p / 8 / 2 == p / 16;
    assert p / 16 / 2 == p / 32 && p / 32 / 2 == p / 64 && p / 64 / 2 == p / 128;
  }

  lemma StackIs(s: Outcome)
    ensures OnStack(s, 1) == Read(s.mem, StackAddr(Inc8(s.r.sp)))
    ensures OnStack(s, 2) == Read(s.mem, StackAddr(Inc8(Inc8(s.r.sp))))
    ensures OnStack(s, 3) == Read(s.mem, StackAddr(Inc8(Inc8(Inc8(s.r.sp)))))
    ensures Popped(s.r, 1).sp == Inc8(s.r.sp) && Popped(s.r, 2).sp == Inc8(Inc8(s.r.sp))
    ensures Popped(s.r, 3).sp == Inc8(Inc8(Inc8(s.r.sp)))
  {
  }

  lemma StackOps(op: Byte)
    requires UsesStack(op)
    ensures GridMode(op).IMP? && !IsRegular(op) && op != 0x20 && op != 0x6C && op != 0x7C
    ensures GridHandler(op) == if op == 0x08 || op == 0x48 || op == 0x5A || op == 0xDA then Push else Pull
  {
    OtherIs(op);
    hide GridHandler;
  }

  lemma PushIs(s: Outcome, m: Machine)
    requires KnownPush(Opcode(s))
    ensures PushOp(Opcode(s), m.r, m.mem) == StackStep(s, m)
  {
    hide Opcode;
    StatusIs(m.r.status.(b := true));
    hide ToByte, StatusByte;
  }

  lemma PullIs(s: Outcome, m: Machine)
    requires KnownPull(Opcode(s)) && m.r.sp == s.r.sp && m.mem == s.mem
    ensures PullOp(Opcode(s), m.r, m.mem) == StackStep(s, m).r && StackStep(s, m).mem == m.mem
  {
    hide Opcode;
    StackIs(s);
    FlagsAre(OnStack(s, 1));
    SetIs(Popped(m.r, 1), OnStack(s, 1));
    hide FromByte, StatusOf, Read, OnStack, SetA, SetX, SetY, WithA, WithX, WithY;
  }

  lemma StackEffect(s: Outcome)
    requires UsesStack(Opcode(s))
    ensures Exec(s) == Effect(s)
  {
    hide GridHandler, GridMode, Fetch, Place, Read, At, Step, Irregular, StackStep, PushOp, PullOp;
    var op := Opcode(s);
    StackOps(op);
    Fetches(s);
    hide Opcode;
    if KnownPush(op) {
      PushIs(s, Past(s));
    } else {
      PullIs(s, Past(s));
    }
    Columns(s, Past(s), Place(s), At(s.mem, Place(s)));
    Others(s, Past(s), Place(s), At(s.mem, Place(s)));
    SameEffect(s);
  }

  // ----- control -----

  lemma StackedIs(m: Machine, v: Byte)
    ensures Stacked(m, v) == Machine(m.r.(sp := Dec8(m.r.sp)), PushTo(m.mem, m.r.sp, v))
  {
  }

  // The three pushes of an entry.
  lemma EntryStacks(m: Machine, status: Byte)
    ensures var r, sp := m.r, m.r.sp;
      Stacked(Stacked(Stacked(m, r.pc / 0x100), r.pc % 0x100), status) ==
      Machine(r.(sp := Dec8(Dec8(Dec8(sp)))),
              PushTo(PushTo(PushTo(m.mem, sp, High(r.pc)), Dec8(sp), Low(r.pc)), Dec8(Dec8(sp)), status))
  {
    hide Stacked, PushTo, Dec8;
    var n1 := Stacked(m, m.r.pc / 0x100);
    var n2 := Stacked(n1, m.r.pc % 0x100);
    StackedIs(m, m.r.pc / 0x100);
    StackedIs(n1, m.r.pc % 0x100);
    StackedIs(n2, status);
  }

  lemma SavedIs(src: VecSrc, f: Flags)
    ensures SavedStatus(src, f) == StatusByte(f.(b := f.b || src.BRK_VEC?))
  {
    hide ToByte, StatusByte;
    StatusIs(f);
    StatusIs(f.(b := true));
    assert f.(b := f.b) == f;
  }

  lemma EntryIs(src: VecSrc, m: Machine)
    ensures Enter(src, m.r, m.mem) ==
      match src case NMI_VEC => Entry(m, 0xFFFA, false, false) case RST_VEC => Entry(m, 0xFFFC, false, true)
                case IRQ_VEC => Entry(m, 0xFFFE, false, false) case BRK_VEC => Entry(m, 0xFFFE, true, false)
  {
    hide Stacked, PushTo, Word, WordIn, SavedStatus, StatusByte, Dec8, High, Low;
    var status := SavedStatus(src, m.r.status);
    SavedIs(src, m.r.status);
    EntryStacks(m, status);
    var n := Stacked(Stacked(Stacked(m, m.r.pc / 0x100), m.r.pc % 0x100), status);
    WordIs(n.mem, VectorOf(src));
  }

  lemma CallIs(s: Outcome, q: Regs)
    requires q == s.r.(pc := Inc16(s.r.pc))
    ensures Call(q, s.mem) == Called(s)
  {
    var ret := Inc16(q.pc);
    assert ret == Wrap(s.r.pc + 2);
    var m := Machine(s.r, s.mem);
    StackedIs(m, ret / 0x100);
    var n1 := Stacked(m, ret / 0x100);
    StackedIs(n1, ret % 0x100);
    var n2 := Stacked(n1, ret % 0x100);
    ReadIs(s.mem, q.pc);
    assert Read(s.mem, q.pc) == Arg(s);
    ReadIs(n2.mem, ret);
    JoinIsSum(Arg(s), Read(n2.mem, ret));
    hide Stacked, PushTo, Read, At, Arg, Join, Dec8;
  }

  lemma LittleIs(low: Byte, high: Byte)
    ensures Join(low, high) == Little(low, high)
    ensures Inc16(Join(low, high)) == Wrap(Little(low, high) + 1)
  {
    JoinIsSum(low, high);
    hide Join;
  }

  lemma ReturnIs(s: Outcome, m: Machine)
    requires m.r.sp == s.r.sp && m.mem == s.mem && Opcode(s) == 0x60
    ensures TransferStep(s, m) == Machine(ReturnSub(m.r, m.mem), m.mem)
  {
    hide Little, Wrap, ArgWord, WordIn, Entry, Called, StatusOf, Opcode, OnStack, Read, Join, Inc8, Inc16, Popped;
    hide StackAddr;
    StackIs(s);
    var lo, hi := OnStack(s, 1), OnStack(s, 2);
    LittleIs(lo, hi);
    PoppedIs(m.r, s.r, 2);
    assert TransferStep(s, m) == m.(r := Popped(m.r, 2).(pc := Wrap(Little(lo, hi) + 1)));
  }

  lemma PoppedIs(r: Regs, q: Regs, k: nat)
    requires r.sp == q.sp
    ensures Popped(r, k) == r.(sp := Popped(q, k).sp)
  {
  }

  lemma InterruptReturnIs(s: Outcome, m: Machine)
    requires m.r.sp == s.r.sp && m.mem == s.mem && Opcode(s) == 0x40
    ensures TransferStep(s, m) == Machine(ReturnInt(m.r, m.mem), m.mem)
  {
    StackIs(s);
    LittleIs(OnStack(s, 2), OnStack(s, 3));
    FlagsAre(OnStack(s, 1));
    hide Little, ArgWord, WordIn, Entry, Called;
    hide Opcode, OnStack, Read, Join, FromByte, StatusOf, Inc8, Popped;
    PoppedIs(m.r, s.r, 3);
  }

  lemma TransferOps(op: Byte)
    requires Transfers(op)
    ensures !IsRegular(op) && !HasOperand(op) && !UsesStack(op)
    ensures GridHandler(op) == if op == 0x00 then Brk else if op == 0x20 then Jsr else if op == 0x40 then Rti
                               else if op == 0x60 then Rts else Jmp
  {
    OtherIs(op);
    hide GridHandler;
  }

  // Where JMP goes, however it is addressed.
  lemma Targets(s: Outcome, q: Regs, mode: AddrMode)
    requires q == s.r.(pc := Inc16(s.r.pc)) && (mode.ABSO? || mode.IND? || mode.ABIN?)
    ensures Resolve(mode, q, s.mem).ea ==
      if mode.ABSO? then ArgWord(s) else if mode.IND? then WordIn(s.mem, ArgWord(s))
      else WordIn(s.mem, Wrap(ArgWord(s) + s.r.x))
  {
    var w := ArgWord(s);
    ArgsAreWord(s, q.pc);
    WordIs(s.mem, w);
    WordIs(s.mem, Add16(w, s.r.x));
    hide Word, WordIn, ArgWord, Inc16;
  }

  // How JSR and JMP are fetched.
  lemma FetchesTransfer(s: Outcome)
    ensures var f, q := Fetch(s), s.r.(pc := Inc16(s.r.pc));
      && (Opcode(s) == 0x20 ==> f.r == q)
      && (Opcode(s) == 0x4C || Opcode(s) == 0x6C || Opcode(s) == 0x7C ==>
          f.o == Resolve(GridMode(Opcode(s)), q, s.mem) && f.r == q.(pc := f.o.pc))
  {
    hide ModeOf, GridMode, Read, At, Resolve, Inc16;
    ModeIs(Opcode(s));
    NoSuchMode(Opcode(s));
    ReadIs(s.mem, s.r.pc);
  }

  lemma JumpModes(op: Byte)
    ensures op == 0x4C ==> GridMode(op) == ABSO
    ensures op == 0x6C ==> GridMode(op) == IND
    ensures op == 0x7C ==> GridMode(op) == ABIN
  {
  }

  lemma JumpsAre(s: Outcome)
    requires Opcode(s) == 0x4C || Opcode(s) == 0x6C || Opcode(s) == 0x7C
    ensures Operated(s) == TransferStep(s, Past(s))
  {
    hide GridHandler, GridMode, Fetch, Opcode, Resolve, ArgWord, WordIn, Wrap, Inc16, Length, Read, At;
    hide Entry, Called, OnStack, Popped, Little, StatusOf;
    var op, q := Opcode(s), s.r.(pc := Inc16(s.r.pc));
    FetchesTransfer(s);
    TransferOps(op);
    JumpModes(op);
    Targets(s, q, GridMode(op));
  }

  lemma BreakIs(s: Outcome)
    requires Opcode(s) == 0x00
    ensures Operated(s) == TransferStep(s, Past(s))
  {
    hide GridHandler, GridMode, Fetch, Opcode, Length, Wrap, Enter, Entry, Called, OnStack, Popped, ArgWord, WordIn;
    TransferOps(Opcode(s));
    Fetches(s);
    EntryIs(BRK_VEC, Past(s));
  }

  lemma JsrIs(s: Outcome)
    requires Opcode(s) == 0x20
    ensures Operated(s) == TransferStep(s, Past(s))
  {
    hide GridHandler, GridMode, Fetch, Opcode, Call, Called, Entry, OnStack, Popped, ArgWord, WordIn, Inc16;
    FetchesTransfer(s);
    TransferOps(Opcode(s));
    CallIs(s, s.r.(pc := Inc16(s.r.pc)));
  }

  lemma ReturnsAre(s: Outcome)
    requires Opcode(s) == 0x60 || Opcode(s) == 0x40
    ensures Operated(s) == TransferStep(s, Past(s))
  {
    hide GridHandler, GridMode, Fetch, Opcode, Length, Wrap, ReturnSub, ReturnInt, TransferStep;
    TransferOps(Opcode(s));
    Fetches(s);
    if Opcode(s) == 0x60 {
      ReturnIs(s, Past(s));
    } else {
      InterruptReturnIs(s, Past(s));
    }
  }

  lemma TransferEffect(s: Outcome)
    requires Transfers(Opcode(s))
    ensures Exec(s) == Effect(s)
  {
    hide Place, At, Step, Irregular, Opcode, TransferStep, Operated, Past, IsRegular, HasOperand, UsesStack;
    var op := Opcode(s);
    TransferOps(op);
    if op == 0x60 || op == 0x40 {
      ReturnsAre(s);
    } else if op == 0x00 {
      BreakIs(s);
    } else if op == 0x20 {
      JsrIs(s);
    } else {
      JumpsAre(s);
    }
    Columns(s, Past(s), Place(s), At(s.mem, Place(s)));
    Others(s, Past(s), Place(s), At(s.mem, Place(s)));
    SameEffect(s);
  }

  // All opcodes that are left change registers or nothing.
  predicate IsImplied(op: Byte) { !IsRegular(op) && !HasOperand(op) && !UsesStack(op) && !Transfers(op) }

  lemma ImpliedOps(op: Byte)
    requires IsImplied(op)
    ensures GridHandler(op) ==
      match op case 0x18 => Clc case 0x38 => Sec case 0x58 => Cli case 0x78 => Sei case 0xB8 => Clv case 0xD8 => Cld
               case 0xF8 => Sed case 0x88 => Dey case 0xC8 => Iny case 0xCA => Dex case 0xE8 => Inx case 0x8A => Txa
               case 0x98 => Tya case 0x9A => Txs case 0xA8 => Tay case 0xAA => Tax case 0xBA => Tsx case 0xCB => Wai
               case _ => Nop
    ensures KindOf(GridHandler(op)) == Single && op != 0x20 && op != 0x6C && op != 0x7C
  {
    OtherIs(op);
    hide GridHandler, IsRegular;
  }

  // Those that count and those that move.
  predicate Counts(op: Byte) { op == 0x88 || op == 0xC8 || op == 0xCA || op == 0xE8 }

  predicate Moves(op: Byte) { op == 0x8A || op == 0x98 || op == 0x9A || op == 0xA8 || op == 0xAA || op == 0xBA }

  lemma CountsIs(op: Byte, h: Handler, r: Regs, v: Byte, p: Addr)
    requires Counts(op) && h == if op == 0x88 then Dey else if op == 0xC8 then Iny else if op == 0xCA then Dex else Inx
    ensures SingleResult(h, r, v, p) == Implied(op, r)
  {
    StepsAre(r.x);
    StepsAre(r.y);
    hide Up, Down, Inc8, Dec8;
    SetIs(r, match op case 0x88 => Dec8(r.y) case 0xC8 => Inc8(r.y) case 0xCA => Dec8(r.x) case _ => Inc8(r.x));
    hide SetX, SetY, WithX, WithY;
  }

  lemma MovesIs(op: Byte, h: Handler, r: Regs, v: Byte, p: Addr)
    requires Moves(op)
    requires h == match op case 0x8A => Txa case 0x98 => Tya case 0x9A => Txs
                           case 0xA8 => Tay case 0xAA => Tax case _ => Tsx
    ensures SingleResult(h, r, v, p) == Implied(op, r)
  {
    hide SetA, SetX, SetY, WithA, WithX, WithY, BitAnd, BitOr, BitXor, Compare, Has;
    SetIs(r, match op case 0x8A => r.x case 0x98 => r.y case 0xBA => r.sp case _ => r.a);
  }

  lemma ImpliedIs(op: Byte, r: Regs, v: Byte, p: Addr)
    requires IsImplied(op)
    ensures SingleResult(GridHandler(op), r, v, p) == Implied(op, r)
  {
    ImpliedOps(op);
    hide GridHandler, IsImplied;
    if Counts(op) {
      CountsIs(op, GridHandler(op), r, v, p);
    } else if Moves(op) {
      MovesIs(op, GridHandler(op), r, v, p);
    } else {
      hide SetA, SetX, SetY, WithA, WithX, WithY, BitAnd, BitOr, BitXor, Compare, Has;
    }
  }

  lemma ImpliedEffect(s: Outcome)
    requires IsImplied(Opcode(s))
    ensures Exec(s) == Effect(s)
  {
    hide GridHandler, GridMode, Fetch, Place, Read, At, Step, Irregular, SingleResult, Implied, KindOf, ValueAt;
    var op, f := Opcode(s), Fetch(s);
    ImpliedOps(op);
    Fetches(s);
    ImpliedIs(op, f.r, ValueAt(GridMode(op), f.r, s.mem, f.o.ea), f.o.ea);
    Columns(s, Past(s), Place(s), At(s.mem, Place(s)));
    Others(s, Past(s), Place(s), At(s.mem, Place(s)));
    hide Opcode, IsRegular, HasOperand, UsesStack, Transfers;
    SameEffect(s);
  }

  // Whatever the opcode, the instruction does just what this account of it says.
  lemma EveryOpcode(s: Outcome)
    ensures Exec(s) == Effect(s)
  {
    hide Exec, Effect, Opcode, IsAlu, IsAcc, IsBranch, HasOperand, UsesStack, Transfers;
    var op := Opcode(s);
    if IsAlu(op) {
      AluEffect(s);
    } else if IsColumn(op) {
      ColumnEffect(s);
    } else if IsAcc(op) {
      AccEffect(s);
    } else if Col(op) == 0x7 {
      BitEffect(s);
    } else if Col(op) == 0xF {
      BitBranchEffect(s);
    } else if IsBranch(op) {
      BranchEffect(s);
    } else if HasOperand(op) {
      OperandEffect(s);
    } else if UsesStack(op) {
      StackEffect(s);
    } else if Transfers(op) {
      TransferEffect(s);
    } else {
      ImpliedEffect(s);
    }
  }

  // And so does every entry.
  lemma EveryEntry(src: VecSrc, s: Outcome)
    ensures src.NMI_VEC? ==> Interrupt(src, s) == Entered(s, 0xFFFA)
    ensures src.IRQ_VEC? ==> Interrupt(src, s) == Entered(s, 0xFFFE)
    ensures src.RST_VEC? ==>
      var n := Entry(Machine(s.r, s.mem), 0xFFFC, false, true); Interrupt(src, s) == Outcome(n.r, n.mem, s.page)
  {
    hide Enter, Entry;
    EntryIs(src, Machine(s.r, s.mem));
  }

  // ----- cycles -----

  lemma FindingIs(s: Outcome)
    ensures Finding(s) == 1 + OperandTicks(GridMode(Opcode(s)), Opcode(s), Crosses(s))
  {
    hide Opcode, Crosses;
    PlaceIs(s);
    hide Length, Place, ModePlace, ModeLength;
  }

  // The cycles of the operation, as Cycles counts them.
  function Worked(s: Outcome): nat {
    var op, f := Opcode(s), Fetch(s);
    OperateTicks(KindOf(GridHandler(op)), GridHandler(op), GridMode(op), op, f.r, f.o, f.page)
  }

  lemma SameClocks(s: Outcome)
    requires Worked(s) == Working(s) + if Pays(s) then 1 else 0
    ensures Cycles(s) == Clocks(s)
  {
    hide HandlerOf, GridHandler, ModeOf, GridMode, KindOf, OperateTicks, OperandTicks, Opcode, Crosses, Length, Working;
    hide Finding, Pays, At, Read;
    HandlerIs(Opcode(s));
    ModeIs(Opcode(s));
    Found(s);
    FindingIs(s);
    CrossedIs(s);
    hide Fetch;
  }

  lemma CrossedIs(s: Outcome)
    ensures Fetch(s).o.crossed == Crosses(s)
  {
    hide ModeOf, GridMode, At, Read, Length, Crosses, Place, Resolve, ModePlace, ModeCrosses, HasPlace, Inc16;
    ModeIs(Opcode(s));
    PlaceIs(s);
    ReadIs(s.mem, s.r.pc);
    NoSuchMode(Opcode(s));
    Resolves(s, s.r.(pc := Inc16(s.r.pc)), GridMode(Opcode(s)));
    if Opcode(s) == 0x20 {
      CallHasNoPage(s);
    }
  }

  // Only the accumulator's stores, STZ, INC and DEC pay.
  lemma Payers(op: Byte)
    ensures op == 0x91 || op == 0x99 || op == 0x9D ==> IsAlu(op) && Row(op) == 4
    ensures op == 0x9E || op == 0xDE || op == 0xFE ==> IsColumn(op) && Row(op) >= 4 && Row(op) != 5
    ensures IsAlu(op) && Row(op) == 4 ==>
      (op == 0x91 || op == 0x99 || op == 0x9D <==> GridMode(op).ABSX? || GridMode(op).ABSY? || GridMode(op).INDY?)
    ensures IsColumn(op) && Row(op) >= 4 && Row(op) != 5 ==>
      (op == 0x9E || op == 0xDE || op == 0xFE <==> GridMode(op).ABSX? || GridMode(op).ABSY?)
    ensures IsColumn(op) && Row(op) >= 6 ==> !GridMode(op).ABSY? && !GridMode(op).ACC?
    ensures IsColumn(op) ==> !GridMode(op).ACC?
    ensures Row(op) <= 7
  {
    if op < 0x80 {
    } else if op < 0xA0 {
    } else if op < 0xC0 {
    } else if op < 0xE0 {
    }
  }

  lemma AluWork(s: Outcome)
    requires IsAlu(Opcode(s))
    ensures Worked(s) == Working(s) + if Pays(s) then 1 else 0
  {
    hide GridHandler, GridMode, Fetch, Opcode, Crosses, IsAlu, IsColumn, Length, Place, At, Read, Row;
    var op := Opcode(s);
    Found(s);
    AluHandlers(op);
    Payers(op);
    Apart(op);
  }

  lemma ColumnWork(s: Outcome)
    requires IsColumn(Opcode(s))
    ensures Worked(s) == Working(s) + if Pays(s) then 1 else 0
  {
    hide GridHandler, GridMode, Fetch, Opcode, Crosses, IsAlu, IsColumn, Length, Place, At, Read, Row;
    var op := Opcode(s);
    Found(s);
    ColumnHandlers(op);
    Payers(op);
    Apart(op);
  }

  // The columns have no opcode in common.
  lemma Apart(op: Byte)
    ensures IsAlu(op) ==> !IsColumn(op)
    ensures IsAcc(op) || Col(op) == 0x7 || Col(op) == 0xF || IsBranch(op) ==> !IsAlu(op) && !IsColumn(op)
    ensures Col(op) == 0x7 || Col(op) == 0xF || IsBranch(op) ==> !IsAcc(op)
    ensures IsBranch(op) ==> Col(op) != 0x7 && Col(op) != 0xF
  {
  }

  lemma AccWork(s: Outcome)
    requires IsAcc(Opcode(s))
    ensures Worked(s) == Working(s) + if Pays(s) then 1 else 0
  {
    hide GridHandler, GridMode, Fetch, Opcode, Crosses, IsAlu, IsColumn, IsAcc, Length, Place, At, Read, Row, AccRow;
    var op := Opcode(s);
    AccHandlers(op);
    Apart(op);
    Payers(op);
  }

  lemma BitWork(s: Outcome)
    requires Col(Opcode(s)) == 0x7
    ensures Worked(s) == Working(s) + if Pays(s) then 1 else 0
  {
    hide GridHandler, GridMode, Fetch, Opcode, Crosses, IsAlu, IsColumn, IsAcc, Length, Place, At, Read, Row;
    var op := Opcode(s);
    BitHandlers(op);
    Apart(op);
    Payers(op);
  }

  lemma BranchTicksAre(r: Regs, rel: Addr, offset: int)
    requires Add16(r.pc, rel) == Wrap(r.pc + offset)
    ensures 1 + BranchTicks(r, rel) == BranchClocks(r.pc, offset)
  {
    hide Add16, Wrap;
  }

  lemma BitBranchWork(s: Outcome)
    requires Col(Opcode(s)) == 0xF
    ensures Worked(s) == Working(s) + if Pays(s) then 1 else 0
  {
    hide GridHandler, GridMode, Fetch, Opcode, Crosses, IsAlu, IsColumn, IsAcc, Length, Place, At, Read, Row;
    hide Arg, Arg2, BranchTicks, BranchClocks;
    var op, f := Opcode(s), Fetch(s);
    BitBranchHandlers(op);
    Fetches(s);
    BitArgs(s);
    Apart(op);
    Payers(op);
    BranchTicksAre(f.r, f.o.rel, Arg2(s));
  }

  lemma BranchWork(s: Outcome)
    requires IsBranch(Opcode(s))
    ensures Worked(s) == Working(s) + if Pays(s) then 1 else 0
  {
    hide GridHandler, GridMode, Fetch, Opcode, Crosses, IsAlu, IsColumn, IsAcc, Length, Place, At, Read, Row;
    hide Arg, Arg2, BranchTicks, BranchClocks, Taken, Branches, Signed, Int8;
    var op, f := Opcode(s), Fetch(s);
    BranchOps(op);
    BranchesIf(op, f.r.status, f.o.val);
    Fetches(s);
    BranchArg(s);
    SignedIs(f.r.pc, Arg(s));
    Apart(op);
    Payers(op);
    hide IsBranch;
    BranchTicksAre(f.r, f.o.rel, Int8(Arg(s)));
  }

  lemma SignedIs(pc: Addr, offset: Byte)
    ensures Add16(pc, Signed(offset)) == Wrap(pc + Int8(offset))
  {
    IsaMeaning.BranchMeaning(pc, offset);
  }

  lemma OtherWorked(s: Outcome)
    requires !IsRegular(Opcode(s))
    ensures Worked(s) == Working(s) + if Pays(s) then 1 else 0
  {
    hide GridHandler, GridMode, Fetch, Opcode, Crosses, IsAlu, IsColumn, IsAcc, Length, Place, At, Read, Row;
    var op := Opcode(s);
    OtherIs(op);
    Payers(op);
    OtherOps(op);
    hide OtherHandler, OtherWork, Col, IsBranch;
    OtherTicks(op, OtherHandler(op), GridMode(op), Fetch(s));
  }

  lemma OtherOps(op: Byte)
    requires !IsRegular(op)
    ensures OtherHandler(op) == Stz || OtherHandler(op) == Sty ==> !(GridMode(op).ABSX? || GridMode(op).ABSY?)
  {
    hide IsRegular;
    if Stores(op) {
    } else {
      hide GridMode;
    }
  }

  lemma OtherTicks(op: Byte, h: Handler, mode: AddrMode, f: Fetched)
    requires h == OtherHandler(op)
    requires h == Stz || h == Sty ==> !(mode.ABSX? || mode.ABSY?)
    ensures OperateTicks(KindOf(h), h, mode, op, f.r, f.o, f.page) == OtherWork(op)
  {
  }

  // Whatever the opcode, the instruction takes just the time this account of it says.
  lemma EveryOpcodesClocks(s: Outcome)
    ensures Cycles(s) == Clocks(s)
  {
    hide Cycles, Clocks, Opcode, IsAlu, IsColumn, IsAcc, IsBranch, Worked, Working, Pays, Col;
    var op := Opcode(s);
    if IsAlu(op) {
      AluWork(s);
    } else if IsColumn(op) {
      ColumnWork(s);
    } else if IsAcc(op) {
      AccWork(s);
    } else if Col(op) == 0x7 {
      BitWork(s);
    } else if Col(op) == 0xF {
      BitBranchWork(s);
    } else if IsBranch(op) {
      BranchWork(s);
    } else {
      OtherWorked(s);
    }
    SameClocks(s);
  }

  // So what the instruction machine turns to is what follows.
  lemma EveryTurn(s: Outcome, edge: bool, request: bool)
    ensures var w := Choose(Core(s, 0, edge), request);
      Start(w, s) == Follows(s, edge, request) && Duration(w, s) == FollowsIn(s, edge, request)
  {
    hide Exec, Effect, Interrupt, Entered, Cycles, Clocks;
    EveryOpcode(s);
    EveryOpcodesClocks(s);
    EveryEntry(NMI_VEC, s);
    EveryEntry(IRQ_VEC, s);
  }
}

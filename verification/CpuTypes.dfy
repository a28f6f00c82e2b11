// The 65C02's visible registers, the micro-states of an instruction, and the two
// decoding tables of the core.
module CpuTypes {
  import opened Words

  datatype Regs = Regs(pc: Addr, sp: Byte, a: Byte, x: Byte, y: Byte, status: Flags)

  datatype AddrMode =
    | IMP | ACC | IMM | ZP | ZPX | ZPY | REL | ABSO | ABSX | ABSY | IND | INDX | INDY | INDZ | ABIN | ZPREL

  // One constructor for each distinct entry of the operation table; Push and Pull
  // serve the four stack registers, Bxx the eight conditional branches.
  datatype Handler =
    | Adc | And | Asl | Bbr | Bbs | Bit | Bra | Brk | Bxx | Clc | Cld | Cli | Clv | Cmp | Cpx | Cpy
    | Dec | Dex | Dey | Eor | Inc | Inx | Iny | Jmp | Jsr | Lda | Ldx | Ldy | Lsr | Nop | Ora | Pull
    | Push | Rmb | Rol | Ror | Rti | Rts | Sbc | Sec | Sed | Sei | Smb | Sta | Stx | Sty | Stz | Tax
    | Tay | Trb | Tsb | Tsx | Txa | Txs | Tya | Wai

  // How an operation proceeds: Single ones finish in the cycle they start in.
  datatype Kind =
    | Single | Arith | Saving | Shifting | Stepping | Masking | Branching
    | Pushing | Pulling | Calling | Returning | Resuming | Breaking

  function KindOf(h: Handler): Kind {
    match h
    case Adc => Arith
    case Sbc => Arith
    case Sta => Saving
    case Stx => Saving
    case Sty => Saving
    case Stz => Saving
    case Asl => Shifting
    case Lsr => Shifting
    case Rol => Shifting
    case Ror => Shifting
    case Inc => Stepping
    case Dec => Stepping
    case Trb => Masking
    case Tsb => Masking
    case Rmb => Masking
    case Smb => Masking
    case Bxx => Branching
    case Bra => Branching
    case Bbr => Branching
    case Bbs => Branching
    case Push => Pushing
    case Pull => Pulling
    case Jsr => Calling
    case Rts => Returning
    case Rti => Resuming
    case Brk => Breaking
    case _ => Single
  }

  datatype OpState =
    | OPCODE
    | PARAM0 | PARAM1 | PARAM2 | PARAM3 | PARAM4
    | OP0 | OP1 | OP2 | OP3 | OP4
    | VEC0 | VEC1 | VEC2 | VEC3 | VEC4 | VEC5 | VEC6
  {
    predicate IsParam() { PARAM0? || PARAM1? || PARAM2? || PARAM3? || PARAM4? }
    predicate IsOp() { OP0? || OP1? || OP2? || OP3? || OP4? }
    predicate IsVec() { !OPCODE? && !IsParam() && !IsOp() }
  }

  datatype VecSrc = BRK_VEC | NMI_VEC | RST_VEC | IRQ_VEC

  // The core's registers and latches; the cycle-consumed flag is kept apart.
  datatype CpuState = CpuState(
    regs: Regs, ea: Addr, reladdr: Addr, value: Byte, result: Addr, opcode: Byte, tmpval: Addr,
    vecSrc: VecSrc, opState: OpState, pageBoundary: bool)

  // ----- the status register -----

  // n v - b d i z c, from bit 7 to bit 0; u is the unused bit 5.
  datatype Flags = Flags(n: bool, v: bool, u: bool, b: bool, d: bool, i: bool, z: bool, c: bool)

  // Appends one bit below the others.
  function Push1(high: nat, on: bool): nat { 2 * high + if on then 1 else 0 }

  function ToByte(f: Flags): Byte {
    Push1(Push1(Push1(Push1(Push1(Push1(Push1(Push1(0, f.n), f.v), f.u), f.b), f.d), f.i), f.z), f.c)
  }

  predicate Odd(p: nat) { p % 2 == 1 }

  function FromByte(p: Byte): Flags {
    var p1 := p / 2;
    var p2 := p1 / 2;
    var p3 := p2 / 2;
    var p4 := p3 / 2;
    var p5 := p4 / 2;
    var p6 := p5 / 2;
    Flags(Odd(p6 / 2), Odd(p6), Odd(p5), Odd(p4), Odd(p3), Odd(p2), Odd(p1), Odd(p))
  }

  lemma Halve(high: nat, on: bool)
    ensures Odd(Push1(high, on)) == on && Push1(high, on) / 2 == high
  {
  }

  lemma Unhalve(p: nat)
    ensures Push1(p / 2, Odd(p)) == p
  {
  }

  lemma StatusRoundTrip(f: Flags)
    ensures FromByte(ToByte(f)) == f
  {
    var p7 := Push1(0, f.n);
    var p6 := Push1(p7, f.v);
    var p5 := Push1(p6, f.u);
    var p4 := Push1(p5, f.b);
    var p3 := Push1(p4, f.d);
    var p2 := Push1(p3, f.i);
    var p1 := Push1(p2, f.z);
    Halve(0, f.n); Halve(p7, f.v); Halve(p6, f.u); Halve(p5, f.b);
    Halve(p4, f.d); Halve(p3, f.i); Halve(p2, f.z); Halve(p1, f.c);
    hide Push1;
    hide Odd;
  }

  lemma StatusByteRoundTrip(p: Byte)
    ensures ToByte(FromByte(p)) == p
  {
    var p1 := p / 2;
    var p2 := p1 / 2;
    var p3 := p2 / 2;
    var p4 := p3 / 2;
    var p5 := p4 / 2;
    var p6 := p5 / 2;
    var p7 := p6 / 2;
    assert p7 / 2 == 0;
    Unhalve(p); Unhalve(p1); Unhalve(p2); Unhalve(p3); Unhalve(p4); Unhalve(p5); Unhalve(p6); Unhalve(p7);
    hide Push1;
    hide Odd;
  }

  function ModeOf(op: Byte): AddrMode {
    match op / 16
    case 0 =>
      PickAddrMode(op % 16, IMP, INDX, IMP, INDX, ZP, ZP, ZP, ZP, IMP, IMM, ACC, IMM, ABSO, ABSO, ABSO, ZPREL)
    case 1 =>
      PickAddrMode(op % 16, REL, INDY, INDZ, INDY, ZP, ZPX, ZPX, ZP, IMP, ABSY, ACC, ABSY, ABSO, ABSX, ABSX, ZPREL)
    case 2 =>
      PickAddrMode(op % 16, ABSO, INDX, IMP, INDX, ZP, ZP, ZP, ZP, IMP, IMM, ACC, IMM, ABSO, ABSO, ABSO, ZPREL)
    case 3 =>
      PickAddrMode(op % 16, REL, INDY, INDZ, INDY, ZPX, ZPX, ZPX, ZP, IMP, ABSY, ACC, ABSY, ABSX, ABSX, ABSX, ZPREL)
    case 4 =>
      PickAddrMode(op % 16, IMP, INDX, IMP, INDX, ZP, ZP, ZP, ZP, IMP, IMM, ACC, IMM, ABSO, ABSO, ABSO, ZPREL)
    case 5 =>
      PickAddrMode(op % 16, REL, INDY, INDZ, INDY, ZPX, ZPX, ZPX, ZP, IMP, ABSY, IMP, ABSY, ABSX, ABSX, ABSX, ZPREL)
    case 6 =>
      PickAddrMode(op % 16, IMP, INDX, IMP, INDX, ZP, ZP, ZP, ZP, IMP, IMM, ACC, IMM, IND, ABSO, ABSO, ZPREL)
    case 7 =>
      PickAddrMode(op % 16, REL, INDY, INDZ, INDY, ZPX, ZPX, ZPX, ZP, IMP, ABSY, IMP, ABSY, ABIN, ABSX, ABSX, ZPREL)
    case 8 =>
      PickAddrMode(op % 16, REL, INDX, IMM, INDX, ZP, ZP, ZP, ZP, IMP, IMM, IMP, IMM, ABSO, ABSO, ABSO, ZPREL)
    case 9 =>
      PickAddrMode(op % 16, REL, INDY, INDZ, INDY, ZPX, ZPX, ZPY, ZP, IMP, ABSY, IMP, ABSY, ABSO, ABSX, ABSX, ZPREL)
    case 10 =>
      PickAddrMode(op % 16, IMM, INDX, IMM, INDX, ZP, ZP, ZP, ZP, IMP, IMM, IMP, IMM, ABSO, ABSO, ABSO, ZPREL)
    case 11 =>
      PickAddrMode(op % 16, REL, INDY, INDZ, INDY, ZPX, ZPX, ZPY, ZP, IMP, ABSY, IMP, ABSY, ABSX, ABSX, ABSY, ZPREL)
    case 12 =>
      PickAddrMode(op % 16, IMM, INDX, IMM, INDX, ZP, ZP, ZP, ZP, IMP, IMM, IMP, IMP, ABSO, ABSO, ABSO, ZPREL)
    case 13 =>
      PickAddrMode(op % 16, REL, INDY, INDZ, INDY, ZPX, ZPX, ZPX, ZP, IMP, ABSY, IMP, ABSY, ABSX, ABSX, ABSX, ZPREL)
    case 14 =>
      PickAddrMode(op % 16, IMM, INDX, IMM, INDX, ZP, ZP, ZP, ZP, IMP, IMM, IMP, IMM, ABSO, ABSO, ABSO, ZPREL)
    case _ =>
      PickAddrMode(op % 16, REL, INDY, INDZ, INDY, ZPX, ZPX, ZPX, ZP, IMP, ABSY, IMP, ABSY, ABSX, ABSX, ABSX, ZPREL)
  }

  function HandlerOf(op: Byte): Handler {
    match op / 16
    case 0 => PickHandler(op % 16, Brk, Ora, Nop, Nop, Tsb, Ora, Asl, Rmb, Push, Ora, Asl, Nop, Tsb, Ora, Asl, Bbr)
    case 1 => PickHandler(op % 16, Bxx, Ora, Ora, Nop, Trb, Ora, Asl, Rmb, Clc, Ora, Inc, Nop, Trb, Ora, Asl, Bbr)
    case 2 => PickHandler(op % 16, Jsr, And, Nop, Nop, Bit, And, Rol, Rmb, Pull, And, Rol, Nop, Bit, And, Rol, Bbr)
    case 3 => PickHandler(op % 16, Bxx, And, And, Nop, Bit, And, Rol, Rmb, Sec, And, Dec, Nop, Bit, And, Rol, Bbr)
    case 4 => PickHandler(op % 16, Rti, Eor, Nop, Nop, Nop, Eor, Lsr, Rmb, Push, Eor, Lsr, Nop, Jmp, Eor, Lsr, Bbr)
    case 5 => PickHandler(op % 16, Bxx, Eor, Eor, Nop, Nop, Eor, Lsr, Rmb, Cli, Eor, Push, Nop, Nop, Eor, Lsr, Bbr)
    case 6 => PickHandler(op % 16, Rts, Adc, Nop, Nop, Stz, Adc, Ror, Rmb, Pull, Adc, Ror, Nop, Jmp, Adc, Ror, Bbr)
    case 7 => PickHandler(op % 16, Bxx, Adc, Adc, Nop, Stz, Adc, Ror, Rmb, Sei, Adc, Pull, Nop, Jmp, Adc, Ror, Bbr)
    case 8 => PickHandler(op % 16, Bra, Sta, Nop, Nop, Sty, Sta, Stx, Smb, Dey, Bit, Txa, Nop, Sty, Sta, Stx, Bbs)
    case 9 => PickHandler(op % 16, Bxx, Sta, Sta, Nop, Sty, Sta, Stx, Smb, Tya, Sta, Txs, Nop, Stz, Sta, Stz, Bbs)
    case 10 => PickHandler(op % 16, Ldy, Lda, Ldx, Nop, Ldy, Lda, Ldx, Smb, Tay, Lda, Tax, Nop, Ldy, Lda, Ldx, Bbs)
    case 11 => PickHandler(op % 16, Bxx, Lda, Lda, Nop, Ldy, Lda, Ldx, Smb, Clv, Lda, Tsx, Nop, Ldy, Lda, Ldx, Bbs)
    case 12 => PickHandler(op % 16, Cpy, Cmp, Nop, Nop, Cpy, Cmp, Dec, Smb, Iny, Cmp, Dex, Wai, Cpy, Cmp, Dec, Bbs)
    case 13 => PickHandler(op % 16, Bxx, Cmp, Cmp, Nop, Nop, Cmp, Dec, Smb, Cld, Cmp, Push, Nop, Nop, Cmp, Dec, Bbs)
    case 14 => PickHandler(op % 16, Cpx, Sbc, Nop, Nop, Cpx, Sbc, Inc, Smb, Inx, Sbc, Nop, Nop, Cpx, Sbc, Inc, Bbs)
    case _ => PickHandler(op % 16, Bxx, Sbc, Sbc, Nop, Nop, Sbc, Inc, Smb, Sed, Sbc, Pull, Nop, Nop, Sbc, Inc, Bbs)
  }

  // The entry in a row of sixteen.
  function PickAddrMode(
      col: int,
      t0: AddrMode, t1: AddrMode, t2: AddrMode, t3: AddrMode,
      t4: AddrMode, t5: AddrMode, t6: AddrMode, t7: AddrMode,
      t8: AddrMode, t9: AddrMode, t10: AddrMode, t11: AddrMode,
      t12: AddrMode, t13: AddrMode, t14: AddrMode, t15: AddrMode): AddrMode
  {
    if col < 8 then
      if col < 4 then (if col < 2 then (if col < 1 then t0 else t1) else (if col < 3 then t2 else t3))
      else (if col < 6 then (if col < 5 then t4 else t5) else (if col < 7 then t6 else t7))
    else
      if col < 12 then (if col < 10 then (if col < 9 then t8 else t9) else (if col < 11 then t10 else t11))
      else (if col < 14 then (if col < 13 then t12 else t13) else (if col < 15 then t14 else t15))
  }

  function PickHandler(
      col: int,
      t0: Handler, t1: Handler, t2: Handler, t3: Handler,
      t4: Handler, t5: Handler, t6: Handler, t7: Handler,
      t8: Handler, t9: Handler, t10: Handler, t11: Handler,
      t12: Handler, t13: Handler, t14: Handler, t15: Handler): Handler
  {
    if col < 8 then
      if col < 4 then (if col < 2 then (if col < 1 then t0 else t1) else (if col < 3 then t2 else t3))
      else (if col < 6 then (if col < 5 then t4 else t5) else (if col < 7 then t6 else t7))
    else
      if col < 12 then (if col < 10 then (if col < 9 then t8 else t9) else (if col < 11 then t10 else t11))
      else (if col < 14 then (if col < 13 then t12 else t13) else (if col < 15 then t14 else t15))
  }
}

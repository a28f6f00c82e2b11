// The instruction set as one-shot functions: what each instruction and each
// interrupt entry does to the registers and the memory, and how many clock cycles
// it takes.  Nothing here knows about the micro-states the core walks through.
module Isa {
  import opened CpuTypes
  import opened Words

  // The addresses some RAM answers to.  Any other address floats high on a read and
  // swallows a write.
  type Memory = map<Addr, Byte>

  function Read(mem: Memory, addr: Addr): Byte {
    if addr in mem then mem[addr] else 0xFF
  }

  function Write(mem: Memory, addr: Addr, v: Byte): Memory {
    if addr in mem then mem[addr := v] else mem
  }

  // A little-endian word whose second byte is at the next 16-bit address.
  function Word(mem: Memory, addr: Addr): Addr { Join(Read(mem, addr), Read(mem, Inc16(addr))) }

  // A little-endian word in the zero page, which wraps within the page.
  function ZpWord(mem: Memory, addr: Addr): Addr { Join(Read(mem, addr), Read(mem, ZpInc(addr))) }

  // ----- status flags -----

  function SetNZ(f: Flags, v: Byte): Flags { f.(z := v == 0, n := Has(v, 0x80)) }

  function CarryIn(f: Flags): int { if f.c then 1 else 0 }

  // ----- stack -----

  function StackAddr(sp: Byte): Addr { 0x100 + sp }

  function PushTo(mem: Memory, sp: Byte, v: Byte): Memory { Write(mem, StackAddr(sp), v) }

  // ----- addressing -----

  // Where an instruction's operand is: the effective address, the branch offset, the
  // byte a bit branch tests, the program counter after the operand, and whether an
  // index carried into the next page.
  datatype Operand = Operand(ea: Addr, rel: Addr, val: Byte, pc: Addr, crossed: bool)

  function Plain(ea: Addr, pc: Addr): Operand { Operand(ea, 0, 0, pc, false) }

  function Indexed(base: Addr, index: Byte, pc: Addr): Operand {
    var ea := Add16(base, index);
    Operand(ea, 0, 0, pc, !SamePage(base, ea))
  }

  // r.pc is the address after the opcode.
  function Resolve(mode: AddrMode, r: Regs, mem: Memory): Operand {
    var p := r.pc;
    match mode
    case IMP => Plain(0, p)
    case ACC => Plain(0, p)
    case IMM => Plain(p, Inc16(p))
    case ZP => Plain(Read(mem, p), Inc16(p))
    case ZPX => Plain(ZpAdd(Read(mem, p), r.x), Inc16(p))
    case ZPY => Plain(ZpAdd(Read(mem, p), r.y), Inc16(p))
    case REL => Operand(0, Signed(Read(mem, p)), 0, Inc16(p), false)
    case ABSO => Plain(Word(mem, p), Inc16(Inc16(p)))
    case ABSX => Indexed(Word(mem, p), r.x, Inc16(Inc16(p)))
    case ABSY => Indexed(Word(mem, p), r.y, Inc16(Inc16(p)))
    case IND => Plain(Word(mem, Word(mem, p)), Inc16(p))
    case INDX => Plain(ZpWord(mem, ZpAdd(Read(mem, p), r.x)), Inc16(p))
    case INDY => Indexed(ZpWord(mem, Read(mem, p)), r.y, Inc16(p))
    case INDZ => Plain(ZpWord(mem, Read(mem, p)), Inc16(p))
    case ABIN => Plain(Word(mem, Add16(Word(mem, p), r.x)), Inc16(p))
    case ZPREL =>
      var ea := Read(mem, p);
      Operand(ea, Read(mem, Inc16(p)), Read(mem, ea), Inc16(Inc16(p)), false)
  }

  // ----- arithmetic -----

  function SumOf(a: Byte, v: Byte, f: Flags): (sum: int)
    ensures 0 <= sum < 0x200
  {
    a + v + CarryIn(f)
  }

  // C, Z, V and N of an addition, all taken from the binary sum: V says that the
  // operands agree in sign and the result does not.
  function SumFlags(f: Flags, a: Byte, v: Byte): (g: Flags)
    ensures g.d == f.d
  {
    var sum := SumOf(a, v, f);
    SetNZ(f, Low(sum)).(c := sum > 0xFF, v := Has(sum, 0x80) != Has(a, 0x80) && Has(sum, 0x80) != Has(v, 0x80))
  }

  // The decimal correction of an addition: the digits and the carry flag.
  function DecimalAdd(sum: int): (Byte, bool) {
    var s1 := if sum % 16 > 9 then sum + 0x06 else sum;
    if (s1 / 16) % 16 > 9 then (Low(s1 + 0x60), true) else (Low(s1), false)
  }

  // The decimal correction the core applies to the accumulator of a subtraction.
  function DecimalSub(a: Byte): (Byte, bool) {
    var a1 := Low(a - 0x66);
    var a2 := if a1 % 16 > 9 then Low(a1 + 0x06) else a1;
    if (a2 / 16) % 16 > 9 then (Low(a2 + 0x60), true) else (a2, false)
  }

  function FinishAdd(r: Regs, sum: int): Regs {
    var (digits, carry) := DecimalAdd(sum);
    r.(a := digits, status := r.status.(c := carry))
  }

  function FinishSub(r: Regs): Regs {
    var (digits, carry) := DecimalSub(r.a);
    r.(a := digits, status := r.status.(c := carry))
  }

  function AddTo(r: Regs, v: Byte): Regs {
    var sum := SumOf(r.a, v, r.status);
    var f := SumFlags(r.status, r.a, v);
    if r.status.d then FinishAdd(r.(status := f), sum) else r.(a := Low(sum), status := f)
  }

  function SubFrom(r: Regs, v: Byte): Regs {
    var sum := SumOf(r.a, BitNot(v), r.status);
    var f := SumFlags(r.status, r.a, BitNot(v));
    if r.status.d then FinishSub(r.(status := f)) else r.(a := Low(sum), status := f)
  }

  function Compare(f: Flags, reg: Byte, v: Byte): Flags {
    SetNZ(f, Low(reg - v)).(c := reg >= v)
  }

  function SetA(r: Regs, v: Byte): Regs { r.(a := v, status := SetNZ(r.status, v)) }
  function SetX(r: Regs, v: Byte): Regs { r.(x := v, status := SetNZ(r.status, v)) }
  function SetY(r: Regs, v: Byte): Regs { r.(y := v, status := SetNZ(r.status, v)) }

  // ----- read-modify-write -----

  // The bit number of RMB and SMB is the opcode shifted right by eight, which is zero.
  function RmwValue(h: Handler, r: Regs, v: Byte): Byte {
    match h
    case Asl => Low(2 * v)
    case Lsr => v / 2
    case Rol => Low(2 * v + CarryIn(r.status))
    case Ror => v / 2 + 0x80 * CarryIn(r.status)
    case Inc => Inc8(v)
    case Dec => Dec8(v)
    case Trb => BitAnd(v, BitNot(r.a))
    case Tsb => BitOr(v, r.a)
    case Rmb => BitAnd(v, 0xFE)
    case Smb => BitOr(v, 0x01)
    case _ => v
  }

  function RmwFlags(h: Handler, r: Regs, v: Byte): Flags {
    var f := SetNZ(r.status, RmwValue(h, r, v));
    match h
    case Asl => f.(c := Has(v, 0x80))
    case Rol => f.(c := Has(v, 0x80))
    case Lsr => f.(c := Has(v, 1))
    case Ror => f.(c := Has(v, 1))
    case Inc => f
    case Dec => f
    case Trb => r.status.(z := BitAnd(v, r.a) == 0)
    case Tsb => r.status.(z := BitAnd(v, r.a) == 0)
    case _ => r.status
  }

  // ----- control -----

  // The flag a conditional branch looks at is named by the opcode's top two bits, and
  // bit 5 says whether it must be set.
  predicate BranchFlag(opcode: Byte, f: Flags) {
    if opcode < 0x40 then f.n else if opcode < 0x80 then f.v else if opcode < 0xC0 then f.c else f.z
  }

  predicate Taken(h: Handler, opcode: Byte, f: Flags, val: Byte) {
    match h
    case Bxx => BranchFlag(opcode, f) == Has(opcode, 0x20)
    case Bra => true
    case Bbr => val == 0
    case Bbs => val != 0
    case _ => false
  }

  // Which register a push saves; an opcode the push handler does not know saves none.
  predicate KnownPush(opcode: Byte) { opcode == 0x08 || opcode == 0x48 || opcode == 0x5A || opcode == 0xDA }

  function Pushed(opcode: Byte, r: Regs): Byte
    requires KnownPush(opcode)
  {
    if opcode == 0x08 then ToByte(r.status.(b := true))
    else if opcode == 0x48 then r.a
    else if opcode == 0x5A then r.y
    else r.x
  }

  predicate KnownPull(opcode: Byte) { opcode == 0x28 || opcode == 0x68 || opcode == 0x7A || opcode == 0xFA }

  function Pulled(opcode: Byte, r: Regs, v: Byte): Regs
    requires KnownPull(opcode)
  {
    if opcode == 0x28 then r.(status := FromByte(v).(u := true))
    else if opcode == 0x68 then SetA(r, v)
    else if opcode == 0x7A then SetY(r, v)
    else SetX(r, v)
  }

  // ----- one instruction -----

  datatype Machine = Machine(r: Regs, mem: Memory)

  // The high operand byte of JSR is fetched after the return address is pushed.
  function Call(r: Regs, mem: Memory): Machine {
    var lo := Read(mem, r.pc);
    var ret := Inc16(r.pc);
    var m1 := PushTo(mem, r.sp, High(ret));
    var m2 := PushTo(m1, Dec8(r.sp), Low(ret));
    Machine(r.(pc := Join(lo, Read(m2, ret)), sp := Dec8(Dec8(r.sp))), m2)
  }

  function ReturnSub(r: Regs, mem: Memory): Regs {
    var lo := Read(mem, StackAddr(Inc8(r.sp)));
    var hi := Read(mem, StackAddr(Inc8(Inc8(r.sp))));
    r.(pc := Inc16(Join(lo, hi)), sp := Inc8(Inc8(r.sp)))
  }

  function ReturnInt(r: Regs, mem: Memory): Regs {
    var status := Read(mem, StackAddr(Inc8(r.sp)));
    var lo := Read(mem, StackAddr(Inc8(Inc8(r.sp))));
    var hi := Read(mem, StackAddr(Inc8(Inc8(Inc8(r.sp)))));
    r.(pc := Join(lo, hi), status := FromByte(status), sp := Inc8(Inc8(Inc8(r.sp))))
  }

  function VectorOf(src: VecSrc): Addr {
    match src
    case BRK_VEC => 0xFFFE
    case IRQ_VEC => 0xFFFE
    case NMI_VEC => 0xFFFA
    case RST_VEC => 0xFFFC
  }

  function SavedStatus(src: VecSrc, f: Flags): Byte {
    if src.BRK_VEC? then ToByte(f.(b := true)) else ToByte(f)
  }

  function MaskedStatus(src: VecSrc, f: Flags): Flags {
    f.(i := true, d := f.d && !src.RST_VEC?)
  }

  // The common entry sequence of BRK, IRQ, NMI and reset.
  function Enter(src: VecSrc, r: Regs, mem: Memory): Machine {
    var m1 := PushTo(mem, r.sp, High(r.pc));
    var m2 := PushTo(m1, Dec8(r.sp), Low(r.pc));
    var m3 := PushTo(m2, Dec8(Dec8(r.sp)), SavedStatus(src, r.status));
    Machine(r.(pc := Word(m3, VectorOf(src)), sp := Dec8(Dec8(Dec8(r.sp))), status := MaskedStatus(src, r.status)), m3)
  }

  // The registers after an operation that needs no second cycle; v is the byte at the
  // effective address.
  function SingleResult(h: Handler, r: Regs, v: Byte, ea: Addr): Regs {
    match h
    case And => SetA(r, BitAnd(r.a, v))
    case Ora => SetA(r, BitOr(r.a, v))
    case Eor => SetA(r, BitXor(r.a, v))
    case Bit => r.(status := r.status.(z := BitAnd(r.a, v) == 0, n := Has(v, 0x80), v := Has(v, 0x40)))
    case Cmp => r.(status := Compare(r.status, r.a, v))
    case Cpx => r.(status := Compare(r.status, r.x, v))
    case Cpy => r.(status := Compare(r.status, r.y, v))
    case Lda => SetA(r, v)
    case Ldx => SetX(r, v)
    case Ldy => SetY(r, v)
    case Dex => SetX(r, Dec8(r.x))
    case Dey => SetY(r, Dec8(r.y))
    case Inx => SetX(r, Inc8(r.x))
    case Iny => SetY(r, Inc8(r.y))
    case Tax => SetX(r, r.a)
    case Tay => SetY(r, r.a)
    case Tsx => SetX(r, r.sp)
    case Txa => SetA(r, r.x)
    case Txs => r.(sp := r.x)
    case Tya => SetA(r, r.y)
    case Clc => r.(status := r.status.(c := false))
    case Cld => r.(status := r.status.(d := false))
    case Cli => r.(status := r.status.(i := false))
    case Clv => r.(status := r.status.(v := false))
    case Sec => r.(status := r.status.(c := true))
    case Sed => r.(status := r.status.(d := true))
    case Sei => r.(status := r.status.(i := true))
    case Jmp => r.(pc := ea)
    case _ => r
  }

  function Saved(h: Handler, r: Regs): Byte {
    match h case Sta => r.a case Stx => r.x case Sty => r.y case _ => 0
  }

  function PushOp(opcode: Byte, r: Regs, mem: Memory): Machine {
    if KnownPush(opcode) then Machine(r.(sp := Dec8(r.sp)), PushTo(mem, r.sp, Pushed(opcode, r))) else Machine(r, mem)
  }

  function PullOp(opcode: Byte, r: Regs, mem: Memory): Regs {
    if KnownPull(opcode) then Pulled(opcode, r.(sp := Inc8(r.sp)), Read(mem, StackAddr(Inc8(r.sp)))) else r
  }

  function ValueAt(mode: AddrMode, r: Regs, mem: Memory, ea: Addr): Byte {
    if mode.ACC? then r.a else Read(mem, ea)
  }

  function Modify(h: Handler, mode: AddrMode, r: Regs, mem: Memory, ea: Addr): Machine {
    var v := ValueAt(mode, r, mem, ea);
    Store(mode, r.(status := RmwFlags(h, r, v)), mem, ea, RmwValue(h, r, v))
  }

  function Arithmetic(h: Handler, r: Regs, v: Byte): Regs {
    if h.Adc? then AddTo(r, v) else SubFrom(r, v)
  }

  function BranchTo(h: Handler, opcode: Byte, r: Regs, val: Byte, rel: Addr): Regs {
    if Taken(h, opcode, r.status, val) then r.(pc := Add16(r.pc, rel)) else r
  }

  function Operate(k: Kind, h: Handler, mode: AddrMode, opcode: Byte, r: Regs, o: Operand, mem: Memory): Machine {
    match k
    case Single => Machine(SingleResult(h, r, ValueAt(mode, r, mem, o.ea), o.ea), mem)
    case Arith => Machine(Arithmetic(h, r, ValueAt(mode, r, mem, o.ea)), mem)
    case Saving => Store(mode, r, mem, o.ea, Saved(h, r))
    case Shifting => Modify(h, mode, r, mem, o.ea)
    case Stepping => Modify(h, mode, r, mem, o.ea)
    case Masking => Modify(h, mode, r, mem, o.ea)
    case Branching => Machine(BranchTo(h, opcode, r, o.val, o.rel), mem)
    case Pushing => PushOp(opcode, r, mem)
    case Pulling => Machine(PullOp(opcode, r, mem), mem)
    case Calling => Call(r, mem)
    case Returning => Machine(ReturnSub(r, mem), mem)
    case Resuming => Machine(ReturnInt(r, mem), mem)
    case Breaking => Enter(BRK_VEC, r, mem)
  }

  function Store(mode: AddrMode, r: Regs, mem: Memory, ea: Addr, v: Byte): Machine {
    if mode.ACC? then Machine(r.(a := v), mem) else Machine(r, Write(mem, ea, v))
  }

  // ----- timing -----

  // Cycles spent on fetching the operand, after the opcode fetch.
  function OperandTicks(mode: AddrMode, opcode: Byte, crossed: bool): nat {
    var extra := if crossed then 1 else 0;
    match mode
    case IMP => 0
    case ACC => 0
    case IMM => 0
    case REL => 0
    case ZP => 1
    case ZPX => 2
    case ZPY => 2
    case ABSO => if opcode == 0x20 then 0 else if opcode == 0x4C then 1 else 2
    case ABSX => 2 + extra
    case ABSY => 2 + extra
    case IND => 4
    case ABIN => 4
    case INDX => 4
    case INDY => 3 + extra
    case INDZ => 3
    case ZPREL => 3
  }

  // Stores and INC/DEC pay for a page crossing whether or not there was one; the
  // sticky page flag says that the operand phase (of this or of an earlier
  // instruction) has paid already.
  function SavePenalty(h: Handler, mode: AddrMode, page: bool): nat {
    if !page && (mode.ABSX? || mode.ABSY? || (h.Sta? && mode.INDY?)) then 1 else 0
  }

  function StepPenalty(mode: AddrMode, page: bool): nat {
    if !page && mode.ABSX? then 1 else 0
  }

  function BranchTicks(r: Regs, rel: Addr): nat {
    if SamePage(r.pc, Add16(r.pc, rel)) then 1 else 2
  }

  // Cycles spent on the operation itself.
  function OperateTicks(k: Kind, h: Handler, mode: AddrMode, opcode: Byte, r: Regs, o: Operand, page: bool): nat {
    match k
    case Single => 1
    case Arith => if r.status.d then 2 else 1
    case Saving => 1 + SavePenalty(h, mode, page)
    case Shifting => if mode.ACC? then 1 else 3
    case Stepping => if mode.ACC? then 1 else 3 + StepPenalty(mode, page)
    case Masking => 3
    case Branching => if Taken(h, opcode, r.status, o.val) then 1 + BranchTicks(r, o.rel) else 1
    case Pushing => 2
    case Pulling => 3
    case Calling => 5
    case Returning => 5
    case Resuming => 5
    case Breaking => 6
  }

  const ENTRY_TICKS: nat := 7

  // ----- whole instructions -----

  // The architectural state together with the core's sticky page-crossing flag, which
  // is never cleared and only affects timing.
  datatype Outcome = Outcome(r: Regs, mem: Memory, page: bool)

  datatype Fetched = Fetched(opcode: Byte, r: Regs, o: Operand, page: bool)

  function Fetch(s: Outcome): Fetched {
    var opcode := Read(s.mem, s.r.pc);
    var r := s.r.(pc := Inc16(s.r.pc));
    var o := OperandOf(ModeOf(opcode), opcode, r, s.mem);
    Fetched(opcode, r.(pc := o.pc), o, s.page || o.crossed)
  }

  // JSR looks after its own operand.
  function OperandOf(mode: AddrMode, opcode: Byte, r: Regs, mem: Memory): Operand {
    if mode.ABSO? && opcode == 0x20 then Plain(0, r.pc) else Resolve(mode, r, mem)
  }

  function Exec(s: Outcome): Outcome {
    var f := Fetch(s);
    var m := Operate(KindOf(HandlerOf(f.opcode)), HandlerOf(f.opcode), ModeOf(f.opcode), f.opcode, f.r, f.o, s.mem);
    Outcome(m.r, m.mem, f.page)
  }

  function Cycles(s: Outcome): nat {
    var f := Fetch(s);
    1 + OperandTicks(ModeOf(f.opcode), f.opcode, f.o.crossed)
      + OperateTicks(KindOf(HandlerOf(f.opcode)), HandlerOf(f.opcode), ModeOf(f.opcode), f.opcode, f.r, f.o, f.page)
  }

  function Interrupt(src: VecSrc, s: Outcome): Outcome {
    var m := Enter(src, s.r, s.mem);
    Outcome(m.r, m.mem, s.page)
  }
}

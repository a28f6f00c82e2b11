// What the instructions compute, in terms of numbers rather than flags and bytes.
module IsaMeaning {
  import opened Words
  import opened CpuTypes
  import opened Isa
  import opened IsaKeeping

  // Two's complement.
  function Int8(v: Byte): int { if v < 0x80 then v else v - 0x100 }

  lemma TopBit(v: Byte)
    ensures Has(v, 0x80) <==> Int8(v) < 0
  {
  }

  lemma TopBitOfSum(sum: int)
    requires 0 <= sum < 0x200
    ensures Has(sum, 0x80) == Has(Low(sum), 0x80) && Low(sum) == if sum < 0x100 then sum else sum - 0x100
  {
  }

  // The status after an addition: V says that the signed sum does not fit.
  lemma SumFlagsMeaning(f: Flags, a: Byte, v: Byte)
    ensures var n := SumFlags(f, a, v);
      && (n.v <==> !(-128 <= Int8(a) + Int8(v) + CarryIn(f) <= 127))
      && (n.c <==> a + v + CarryIn(f) >= 0x100)
      && (n.z <==> Low(SumOf(a, v, f)) == 0) && (n.n <==> Int8(Low(SumOf(a, v, f))) < 0)
  {
    hide Has;
    var sum := SumOf(a, v, f);
    TopBitOfSum(sum);
    TopBit(a);
    TopBit(v);
    TopBit(Low(sum));
  }

  // ADC in binary mode: nothing is lost between the accumulator and the carry.
  lemma AddMeaning(r: Regs, v: Byte)
    requires !r.status.d
    ensures var n := AddTo(r, v);
      && n.a + 0x100 * CarryIn(n.status) == r.a + v + CarryIn(r.status)
      && (n.status.v <==> Int8(r.a) + Int8(v) + CarryIn(r.status) != Int8(n.a))
  {
    hide SumFlags, Has;
    SumFlagsMeaning(r.status, r.a, v);
    TopBitOfSum(SumOf(r.a, v, r.status));
  }

  // SBC in binary mode: the carry is an inverted borrow.
  lemma SubMeaning(r: Regs, v: Byte)
    requires !r.status.d
    ensures var n := SubFrom(r, v); var borrow := 1 - CarryIn(r.status);
      && n.a - 0x100 * (1 - CarryIn(n.status)) == r.a - v - borrow
      && (n.status.v <==> Int8(r.a) - Int8(v) - borrow != Int8(n.a))
  {
    hide SumFlags, Has;
    SumFlagsMeaning(r.status, r.a, BitNot(v));
    TopBitOfSum(SumOf(r.a, BitNot(v), r.status));
  }

  // ROL and ROR on the nine bits of the byte and the carry undo each other.
  lemma RorUndoesRol(r: Regs, v: Byte)
    ensures var l := r.(status := RmwFlags(Rol, r, v));
      RmwValue(Ror, l, RmwValue(Rol, r, v)) == v && RmwFlags(Ror, l, RmwValue(Rol, r, v)).c == r.status.c
  {
    var doubled := 2 * v + CarryIn(r.status);
    assert Low(doubled) == if v < 0x80 then doubled else doubled - 0x100;
    assert Has(v, 0x80) <==> v >= 0x80;
  }

  lemma RolUndoesRor(r: Regs, v: Byte)
    ensures var l := r.(status := RmwFlags(Ror, r, v));
      RmwValue(Rol, l, RmwValue(Ror, r, v)) == v && RmwFlags(Rol, l, RmwValue(Ror, r, v)).c == r.status.c
  {
    var halved := v / 2 + 0x80 * CarryIn(r.status);
    assert Has(halved, 0x80) == r.status.c;
    assert Low(2 * halved + v % 2) == v;
  }

  // ASL and LSR lose nothing between the byte and the carry.
  lemma AslMeaning(r: Regs, v: Byte)
    ensures RmwValue(Asl, r, v) + 0x100 * CarryIn(RmwFlags(Asl, r, v)) == 2 * v
  {
    hide SetNZ, BitAnd;
    assert Low(2 * v) == if v < 0x80 then 2 * v else 2 * v - 0x100;
    assert Has(v, 0x80) <==> v >= 0x80;
  }

  lemma LsrMeaning(r: Regs, v: Byte)
    ensures 2 * RmwValue(Lsr, r, v) + CarryIn(RmwFlags(Lsr, r, v)) == v
  {
    hide SetNZ, BitAnd;
    assert Has(v, 1) <==> v % 2 == 1;
  }

  // INC and DEC undo each other.
  lemma StepMeaning(r: Regs, v: Byte)
    ensures RmwValue(Dec, r, RmwValue(Inc, r, v)) == v && RmwValue(Inc, r, RmwValue(Dec, r, v)) == v
    ensures RmwValue(Inc, r, v) == (v + 1) % 0x100
  {
  }

  // A comparison orders bytes as unsigned numbers.
  lemma CompareMeaning(f: Flags, reg: Byte, v: Byte)
    ensures var n := Compare(f, reg, v);
      && (n.c <==> reg >= v) && (n.z <==> reg == v) && (n.n <==> Int8(Low(reg - v)) < 0)
      && n.i == f.i && n.d == f.d && n.v == f.v
  {
    TopBit(Low(reg - v));
    hide Has;
  }

  // A branch adds a signed offset to the program counter, modulo the address space.
  lemma BranchMeaning(pc: Addr, offset: Byte)
    ensures Add16(pc, Signed(offset)) == (pc + Int8(offset)) % 0x10000
  {
  }

  function WordAt(mem: Memory, addr: Addr): Addr {
    Read(mem, addr) + 0x100 * Read(mem, Inc16(addr))
  }

  // A pointer in page zero, both bytes of it.
  function PointerAt(mem: Memory, addr: Byte): Addr {
    Read(mem, addr) + 0x100 * Read(mem, (addr + 1) % 0x100)
  }

  lemma WordIs(mem: Memory, addr: Addr)
    ensures Word(mem, addr) == WordAt(mem, addr)
  {
    hide Read, Inc16, Join;
    JoinIsSum(Read(mem, addr), Read(mem, Inc16(addr)));
  }

  lemma PointerIs(mem: Memory, addr: Byte)
    ensures ZpWord(mem, addr) == PointerAt(mem, addr)
  {
    hide Read, Join;
    JoinIsSum(Read(mem, addr), Read(mem, ZpInc(addr)));
  }

  // Where operands are, in numbers: page zero indexing and pointers wrap within the page,
  // absolute indexing within the address space.
  lemma PageZeroAddresses(r: Regs, mem: Memory)
    ensures var b := Read(mem, r.pc);
      && Resolve(ZPX, r, mem).ea == (b + r.x) % 0x100 && Resolve(ZPY, r, mem).ea == (b + r.y) % 0x100
      && Resolve(INDX, r, mem).ea == PointerAt(mem, (b + r.x) % 0x100)
      && Resolve(INDY, r, mem).ea == (PointerAt(mem, b) + r.y) % 0x10000
      && Resolve(INDZ, r, mem).ea == PointerAt(mem, b)
  {
    hide Read, ZpWord, PointerAt, SamePage;
    PointerIs(mem, Read(mem, r.pc));
    PointerIs(mem, ZpAdd(Read(mem, r.pc), r.x));
  }

  lemma AbsoluteAddresses(r: Regs, mem: Memory)
    ensures var w := WordAt(mem, r.pc);
      && Resolve(ABSO, r, mem).ea == w && Resolve(ABSX, r, mem).ea == (w + r.x) % 0x10000
      && Resolve(ABSY, r, mem).ea == (w + r.y) % 0x10000
      && Resolve(IND, r, mem).ea == WordAt(mem, w) && Resolve(ABIN, r, mem).ea == WordAt(mem, (w + r.x) % 0x10000)
  {
    hide Read, Word, WordAt, SamePage;
    WordIs(mem, r.pc);
    WordIs(mem, Word(mem, r.pc));
    WordIs(mem, Add16(Word(mem, r.pc), r.x));
  }

  // The bytes an instruction occupies.
  function AddrLength(mode: AddrMode): nat {
    match mode
    case IMP => 1
    case ACC => 1
    case ABSO => 3
    case ABSX => 3
    case ABSY => 3
    case IND => 3
    case ABIN => 3
    case ZPREL => 3
    case _ => 2
  }

  predicate Transfers(h: Handler) {
    h.Jmp? || h.Jsr? || h.Rts? || h.Rti? || h.Brk? || KindOf(h).Branching?
  }

  lemma IndirectIsJump(op: Byte)
    requires ModeOf(op).IND? || ModeOf(op).ABIN?
    ensures HandlerOf(op).Jmp?
  {
  }

  // Every opcode that does not transfer control leaves the program counter after its
  // own bytes.
  lemma NextInstruction(s: Outcome)
    ensures var op := Read(s.mem, s.r.pc);
      !Transfers(HandlerOf(op)) ==> Exec(s).r.pc == Add16(s.r.pc, AddrLength(ModeOf(op)))
  {
    hide Operate, OperandOf, ModeOf, HandlerOf, KindOf, Read, Inc16, Add16;
    var f := Fetch(s);
    var h := HandlerOf(f.opcode);
    if !Transfers(h) {
      if ModeOf(f.opcode).IND? || ModeOf(f.opcode).ABIN? {
        IndirectIsJump(f.opcode);
      }
      OperateKeeps(KindOf(h), h, ModeOf(f.opcode), f.opcode, f.r, f.o, s.mem);
      JumpFree(f.opcode);
      NotOperating(KindOf(h), h);
      OperandSkipsBytes(ModeOf(f.opcode), f.opcode, s.r.(pc := Inc16(s.r.pc)), s.mem);
      AddSmall(s.r.pc);
    }
  }

  lemma NotOperating(k: Kind, h: Handler)
    requires k == KindOf(h) && !Transfers(h)
    ensures !(h.Jmp? || k.Calling? || k.Returning? || k.Resuming? || k.Breaking? || k.Branching?)
  {
  }

  lemma JumpFree(op: Byte)
    ensures op == 0x20 ==> HandlerOf(op).Jsr?
  {
  }

  lemma OperandSkipsBytes(mode: AddrMode, op: Byte, r: Regs, mem: Memory)
    requires !mode.IND? && !mode.ABIN? && op != 0x20
    ensures var p := OperandOf(mode, op, r, mem).pc; var n := AddrLength(mode);
      p == if n == 1 then r.pc else if n == 2 then Inc16(r.pc) else Inc16(Inc16(r.pc))
  {
    hide Read, Inc16, Add16, ZpAdd, Word, ZpWord, SamePage, Signed;
  }
}

// What the operations leave as it is: the program counter and the interrupt mask.
module IsaKeeping {
  import opened Words
  import opened CpuTypes
  import opened Isa

  // The program counter and the interrupt mask, of registers before and after.
  predicate KeepsPcAndMask(r: Regs, t: Regs) {
    t.pc == r.pc && t.status.i == r.status.i
  }

  lemma SingleKeeps(h: Handler, r: Regs, v: Byte, ea: Addr)
    ensures !h.Jmp? ==> SingleResult(h, r, v, ea).pc == r.pc
    ensures !h.Cli? && r.status.i ==> SingleResult(h, r, v, ea).status.i
  {
    hide Has, Low, Inc8, Dec8, BitAnd, BitOr, BitXor;
    if h.And? || h.Ora? || h.Eor? || h.Lda? || h.Txa? || h.Tya? {
    } else if h.Ldx? || h.Dex? || h.Inx? || h.Tax? || h.Tsx? || h.Ldy? || h.Dey? || h.Iny? || h.Tay? {
    } else if h.Cmp? || h.Cpx? || h.Cpy? || h.Bit? {
    }
  }

  lemma ArithmeticKeeps(h: Handler, r: Regs, v: Byte)
    ensures KeepsPcAndMask(r, Arithmetic(h, r, v))
  {
    hide Low, BitNot, SumOf, Has, DecimalAdd, DecimalSub;
  }

  lemma ModifyKeeps(h: Handler, mode: AddrMode, r: Regs, mem: Memory, ea: Addr)
    ensures KeepsPcAndMask(r, Modify(h, mode, r, mem, ea).r)
  {
    hide RmwValue, ValueAt, Write, BitAnd, Has;
  }

  lemma StoreKeeps(mode: AddrMode, r: Regs, mem: Memory, ea: Addr, v: Byte)
    ensures KeepsPcAndMask(r, Store(mode, r, mem, ea, v).r)
  {
    hide Write;
  }

  lemma StackKeeps(opcode: Byte, r: Regs, mem: Memory)
    ensures KeepsPcAndMask(r, PushOp(opcode, r, mem).r)
    ensures PullOp(opcode, r, mem).pc == r.pc
    ensures opcode != 0x28 ==> PullOp(opcode, r, mem).status.i == r.status.i
  {
    hide PushTo, Pushed, Read, StackAddr, Inc8, Dec8, FromByte, SetNZ;
    assert forall f: Flags, v: Byte :: SetNZ(f, v).i == f.i by {
      NzKeepsMask();
    }
  }

  lemma NzKeepsMask()
    ensures forall f: Flags, v: Byte :: SetNZ(f, v).i == f.i
  {
  }

  lemma ControlKeeps(h: Handler, opcode: Byte, r: Regs, mem: Memory, val: Byte, rel: Addr)
    ensures BranchTo(h, opcode, r, val, rel).status == r.status
    ensures Call(r, mem).r.status == r.status && ReturnSub(r, mem).status == r.status
  {
    hide Taken, Add16, Read, PushTo, Join, Inc16, Dec8, Inc8, StackAddr, High, Low;
  }

  lemma EntryMasks(src: VecSrc, r: Regs, mem: Memory)
    ensures Enter(src, r, mem).r.status.i
  {
    hide PushTo, Word, Dec8, High, Low, SavedStatus, VectorOf;
  }

  // Operations that do not transfer control leave the program counter, and only CLI, PLP
  // and RTI can clear the interrupt mask.
  lemma OperateKeeps(k: Kind, h: Handler, mode: AddrMode, op: Byte, r: Regs, o: Operand, mem: Memory)
    ensures !(h.Jmp? || k.Calling? || k.Returning? || k.Resuming? || k.Breaking? || k.Branching?) ==>
      Operate(k, h, mode, op, r, o, mem).r.pc == r.pc
    ensures r.status.i && !h.Cli? && !k.Resuming? && op != 0x28 ==> Operate(k, h, mode, op, r, o, mem).r.status.i
  {
    hide SingleResult, Arithmetic, Store, Modify, BranchTo, PushOp, PullOp, Call, ReturnSub, ReturnInt, Enter;
    hide ValueAt, Saved;
    SingleKeeps(h, r, ValueAt(mode, r, mem, o.ea), o.ea);
    ArithmeticKeeps(h, r, ValueAt(mode, r, mem, o.ea));
    ModifyKeeps(h, mode, r, mem, o.ea);
    StoreKeeps(mode, r, mem, o.ea, Saved(h, r));
    StackKeeps(op, r, mem);
    ControlKeeps(h, op, r, mem, o.val, o.rel);
    EntryMasks(BRK_VEC, r, mem);
  }
}

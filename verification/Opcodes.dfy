// The instruction set a second time: what each opcode does and how long it takes, by its
// number, in terms of bits and numbers.  Nothing here goes through the decoding tables, the
// addressing modes or the operations of Isa, and for every opcode both say the same.
module OpcodeMap {
  import opened Words
  import opened CpuTypes
  import opened Isa

  // ----- memory and operands -----

  // Addresses wrap.
  function Wrap(n: int): Addr { n % 0x10000 }

  function At(mem: Memory, addr: nat): Byte {
    var a := Wrap(addr);
    if a in mem then mem[a] else 0xFF
  }

  function Put(mem: Memory, addr: Addr, v: Byte): Memory {
    if addr in mem then mem[addr := v] else mem
  }

  function Little(low: Byte, high: Byte): Addr { low + 0x100 * high }

  function Opcode(s: Outcome): Byte { At(s.mem, s.r.pc) }

  // The bytes after the opcode, alone and as a word.
  function Arg(s: Outcome): Byte { At(s.mem, s.r.pc + 1) }

  function Arg2(s: Outcome): Byte { At(s.mem, s.r.pc + 2) }

  function ArgWord(s: Outcome): Addr { Little(Arg(s), Arg2(s)) }

  function WordIn(mem: Memory, addr: nat): Addr { Little(At(mem, addr), At(mem, addr + 1)) }

  // Both bytes of a pointer are in page zero.
  function Pointer(mem: Memory, b: nat): Addr {
    Little(At(mem, b % 0x100), At(mem, (b + 1) % 0x100))
  }

  // The opcodes are a table of sixteen lines and sixteen columns; lines go in pairs.
  function Line(op: Byte): nat { op / 0x10 }

  function Col(op: Byte): nat { op % 0x10 }

  predicate Second(op: Byte) { Line(op) % 2 == 1 }

  // What an operation is goes by pairs of lines.
  function Row(op: Byte): nat { Line(op) / 2 }

  // The bytes of an instruction.
  function Length(op: Byte): nat {
    var col := Col(op);
    if op == 0x00 || op == 0x40 || op == 0x60 || op == 0xCB || (col == 2 && op < 0x80 && !Second(op)) then 1
    else if col == 0x8 || col == 0xA then 1
    else if op == 0x20 || col >= 0xC || (Second(op) && (col == 0x9 || col == 0xB)) then 3
    else 2
  }

  // Where an instruction's operand is, if it has one in memory: column and kind of line say how
  // it is addressed, but for the few opcodes named here.
  function Place(s: Outcome): Addr {
    var op := Opcode(s);
    var col, b, w := Col(op), Arg(s), ArgWord(s);
    if col == 0x2 && Second(op) then Pointer(s.mem, b)
    else if col == 0x1 || col == 0x3 then
      if Second(op) then Wrap(Pointer(s.mem, b) + s.r.y) else Pointer(s.mem, b + s.r.x)
    else if 0x4 <= col <= 0x7 then
      if !Second(op) || col == 0x7 || op == 0x14 then b
      else if op == 0x96 || op == 0xB6 then (b + s.r.y) % 0x100
      else (b + s.r.x) % 0x100
    else if !Second(op) && col < 0xC then Wrap(s.r.pc + 1)
    else if !Second(op) || op == 0x1C || op == 0x9C then w
    else if col == 0x9 || col == 0xB || op == 0xBE then Wrap(w + s.r.y)
    else Wrap(w + s.r.x)
  }

  // Whether the index takes the address out of the page it started in.
  predicate Crosses(s: Outcome) {
    var op := Opcode(s);
    var col := Col(op);
    Second(op) &&
    if col == 0x1 || col == 0x3 then Pointer(s.mem, Arg(s)) % 0x100 + s.r.y >= 0x100
    else if col == 0x9 || col == 0xB || op == 0xBE then Arg(s) + s.r.y >= 0x100
    else 0xC <= col <= 0xE && op != 0x1C && op != 0x7C && op != 0x9C && Arg(s) + s.r.x >= 0x100
  }

  // ----- flags and arithmetic -----

  function Int8(v: Byte): int { if v < 0x80 then v else v - 0x100 }

  function And8(a: Byte, b: Byte): Byte { ((a as bv8) & (b as bv8)) as int }

  function Or8(a: Byte, b: Byte): Byte { ((a as bv8) | (b as bv8)) as int }

  function Xor8(a: Byte, b: Byte): Byte { ((a as bv8) ^ (b as bv8)) as int }

  function Carry(f: Flags): nat { if f.c then 1 else 0 }

  // One more and one less, in a byte.
  function Up(b: Byte): Byte { (b + 1) % 0x100 }

  function Down(b: Byte): Byte { (b - 1) % 0x100 }

  function NZ(f: Flags, v: Byte): Flags { f.(n := v >= 0x80, z := v == 0) }

  function WithA(r: Regs, v: Byte): Regs { r.(a := v, status := NZ(r.status, v)) }
  function WithX(r: Regs, v: Byte): Regs { r.(x := v, status := NZ(r.status, v)) }
  function WithY(r: Regs, v: Byte): Regs { r.(y := v, status := NZ(r.status, v)) }

  function Compared(f: Flags, reg: Byte, v: Byte): Flags {
    f.(c := reg >= v, z := reg == v, n := (reg - v) % 0x100 >= 0x80)
  }

  // The digits are corrected as the core does it.
  function Added(r: Regs, v: Byte): Regs {
    var sum := r.a + v + Carry(r.status);
    var total := Int8(r.a) + Int8(v) + Carry(r.status);
    var f := NZ(r.status, sum % 0x100).(c := sum >= 0x100, v := total < -128 || total > 127);
    if !f.d then r.(a := sum % 0x100, status := f)
    else
      var t := if sum % 0x10 > 9 then sum + 6 else sum;
      var over := t / 0x10 % 0x10 > 9;
      r.(a := (if over then t + 0x60 else t) % 0x100, status := f.(c := over))
  }

  function Subtracted(r: Regs, v: Byte): Regs {
    var diff := r.a - v - (1 - Carry(r.status));
    var total := Int8(r.a) - Int8(v) - (1 - Carry(r.status));
    var f := NZ(r.status, diff % 0x100).(c := diff >= 0, v := total < -128 || total > 127);
    if !f.d then r.(a := diff % 0x100, status := f)
    else
      var low := (r.a - 0x66) % 0x100;
      var t := if low % 0x10 > 9 then (low + 6) % 0x100 else low;
      var over := t / 0x10 % 0x10 > 9;
      r.(a := (if over then t + 0x60 else t) % 0x100, status := f.(c := over))
  }

  // What the accumulator's operations do with their operand, row by row.
  function Alu(row: nat, r: Regs, v: Byte): Regs {
    match row
    case 0 => WithA(r, Or8(r.a, v))
    case 1 => WithA(r, And8(r.a, v))
    case 2 => WithA(r, Xor8(r.a, v))
    case 3 => Added(r, v)
    case 4 => r
    case 5 => WithA(r, v)
    case 6 => r.(status := Compared(r.status, r.a, v))
    case _ => Subtracted(r, v)
  }

  // ASL, ROL, LSR, ROR, DEC and INC: the new byte and the status.
  function Shifted(row: nat, f: Flags, v: Byte): (Byte, Flags) {
    var n: Byte :=
      match row
      case 0 => 2 * v % 0x100
      case 1 => (2 * v + Carry(f)) % 0x100
      case 2 => v / 2
      case 3 => v / 2 + 0x80 * Carry(f)
      case 6 => Down(v)
      case _ => Up(v);
    (n, NZ(f, n).(c := if row <= 1 then v >= 0x80 else if row <= 3 then v % 2 == 1 else f.c))
  }

  // Instructions of one byte that change registers only; all others leave them.
  function Implied(op: Byte, r: Regs): Regs {
    match op
    case 0x18 => r.(status := r.status.(c := false))
    case 0x38 => r.(status := r.status.(c := true))
    case 0x58 => r.(status := r.status.(i := false))
    case 0x78 => r.(status := r.status.(i := true))
    case 0xB8 => r.(status := r.status.(v := false))
    case 0xD8 => r.(status := r.status.(d := false))
    case 0xF8 => r.(status := r.status.(d := true))
    case 0x88 => WithY(r, Down(r.y))
    case 0xC8 => WithY(r, Up(r.y))
    case 0xCA => WithX(r, Down(r.x))
    case 0xE8 => WithX(r, Up(r.x))
    case 0x8A => WithA(r, r.x)
    case 0x98 => WithA(r, r.y)
    case 0x9A => r.(sp := r.x)
    case 0xA8 => WithY(r, r.a)
    case 0xAA => WithX(r, r.a)
    case 0xBA => WithX(r, r.sp)
    case _ => r
  }

  // ----- stack and control -----

  function StatusByte(f: Flags): Byte {
    (if f.n then 0x80 else 0) + (if f.v then 0x40 else 0) + (if f.u then 0x20 else 0) + (if f.b then 0x10 else 0)
    + (if f.d then 0x08 else 0) + (if f.i then 0x04 else 0) + (if f.z then 0x02 else 0) + (if f.c then 0x01 else 0)
  }

  function StatusOf(p: Byte): Flags {
    Flags(p >= 0x80, p / 0x40 % 2 == 1, p / 0x20 % 2 == 1, p / 0x10 % 2 == 1,
          p / 0x08 % 2 == 1, p / 0x04 % 2 == 1, p / 0x02 % 2 == 1, p % 2 == 1)
  }

  function Stacked(m: Machine, v: Byte): Machine {
    Machine(m.r.(sp := (m.r.sp - 1) % 0x100), Put(m.mem, 0x100 + m.r.sp, v))
  }

  // The k-th byte from the top of the stack.
  function OnStack(s: Outcome, k: nat): Byte { At(s.mem, 0x100 + (s.r.sp + k) % 0x100) }

  function Popped(r: Regs, k: nat): Regs { r.(sp := (r.sp + k) % 0x100) }

  // The entry of an interrupt, or of BRK: the return address and the status are pushed, and
  // the handler is where the vector says.
  function Entry(m: Machine, vector: Addr, brk: bool, reset: bool): Machine {
    var n := Stacked(Stacked(Stacked(m, m.r.pc / 0x100), m.r.pc % 0x100),
                     StatusByte(m.r.status.(b := m.r.status.b || brk)));
    n.(r := n.r.(pc := WordIn(n.mem, vector), status := m.r.status.(i := true, d := m.r.status.d && !reset)))
  }

  // The address of the last byte of JSR is pushed before that byte is read.
  function Called(s: Outcome): Machine {
    var ret := Wrap(s.r.pc + 2);
    var n := Stacked(Stacked(Machine(s.r, s.mem), ret / 0x100), ret % 0x100);
    n.(r := n.r.(pc := Little(Arg(s), At(n.mem, ret))))
  }

  predicate IsBranch(op: Byte) { (Col(op) == 0x0 && Second(op)) || op == 0x80 }

  predicate Branches(op: Byte, f: Flags) {
    match op
    case 0x10 => !f.n
    case 0x30 => f.n
    case 0x50 => !f.v
    case 0x70 => f.v
    case 0x90 => !f.c
    case 0xB0 => f.c
    case 0xD0 => !f.z
    case 0xF0 => f.z
    case _ => op == 0x80
  }

  // BBR and BBS look at the whole byte, and do not take their offset as signed.
  predicate BitBranches(s: Outcome) { (At(s.mem, Arg(s)) == 0) == (Opcode(s) < 0x80) }

  // ----- every opcode -----

  // The columns of the accumulator's operations.
  predicate IsAlu(op: Byte) {
    var col := Col(op);
    ((col == 0x1 || col == 0x5 || col == 0x9 || col == 0xD) && op != 0x89) || (col == 0x2 && Second(op))
  }

  // Those of the shifts, counts and the X register's loads and stores.
  predicate IsColumn(op: Byte) { Col(op) == 0x6 || Col(op) == 0xE }

  // The accumulator's forms of the shifts, INC and DEC.
  predicate IsAcc(op: Byte) { Col(op) == 0xA && (op < 0x50 || op == 0x6A) }

  // The row that Shifted has for them.
  function AccRow(op: Byte): nat { if op == 0x1A then 7 else if op == 0x3A then 6 else Row(op) }

  function Shift(row: nat, m: Machine, p: Addr, v: Byte): Machine {
    var (n, f) := Shifted(row, m.r.status, v);
    Machine(m.r.(status := f), Put(m.mem, p, n))
  }

  function ShiftA(row: nat, r: Regs): Regs {
    var (n, f) := Shifted(row, r.status, r.a);
    r.(a := n, status := f)
  }

  // The opcodes that are not in any of the regular columns: first those with an operand; m is the
  // machine past the instruction's bytes, p and v are the address and the value of the operand.
  predicate TestsBits(op: Byte) { op == 0x24 || op == 0x2C || op == 0x34 || op == 0x3C || op == 0x89 }

  predicate ChangesBits(op: Byte) { op == 0x04 || op == 0x0C || op == 0x14 || op == 0x1C }

  predicate Stores(op: Byte) { op == 0x64 || op == 0x74 || op == 0x9C || op == 0x84 || op == 0x8C || op == 0x94 }

  predicate Loads(op: Byte) {
    op == 0xA2 || op == 0xA0 || op == 0xA4 || op == 0xAC || op == 0xB4 || op == 0xBC
  }

  predicate Compares(op: Byte) {
    op == 0xC0 || op == 0xC4 || op == 0xCC || op == 0xE0 || op == 0xE4 || op == 0xEC
  }

  function TestStep(m: Machine, v: Byte): Machine {
    m.(r := m.r.(status := m.r.status.(z := And8(m.r.a, v) == 0, n := v >= 0x80, v := v / 0x40 % 2 == 1)))
  }

  function ChangeStep(op: Byte, m: Machine, p: Addr, v: Byte): Machine {
    var n := if op < 0x10 then Or8(v, m.r.a) else And8(v, 0xFF - m.r.a);
    Machine(m.r.(status := m.r.status.(z := And8(v, m.r.a) == 0)), Put(m.mem, p, n))
  }

  function StoreStep(op: Byte, m: Machine, p: Addr): Machine {
    m.(mem := Put(m.mem, p, if op == 0x84 || op == 0x8C || op == 0x94 then m.r.y else 0))
  }

  function LoadStep(op: Byte, m: Machine, v: Byte): Machine {
    m.(r := if op == 0xA2 then WithX(m.r, v) else WithY(m.r, v))
  }

  function CompareStep(op: Byte, m: Machine, v: Byte): Machine {
    m.(r := m.r.(status := Compared(m.r.status, if op < 0xE0 then m.r.y else m.r.x, v)))
  }

  // PHP, PHA, PHY and PHX, and the pulls.
  predicate UsesStack(op: Byte) {
    op == 0x08 || op == 0x48 || op == 0x5A || op == 0xDA || op == 0x28 || op == 0x68 || op == 0x7A || op == 0xFA
  }

  function StackStep(s: Outcome, m: Machine): Machine {
    match Opcode(s)
    case 0x08 => Stacked(m, StatusByte(m.r.status.(b := true)))
    case 0x48 => Stacked(m, m.r.a)
    case 0x5A => Stacked(m, m.r.y)
    case 0xDA => Stacked(m, m.r.x)
    case 0x28 => m.(r := Popped(m.r, 1).(status := StatusOf(OnStack(s, 1)).(u := true)))
    case 0x68 => m.(r := WithA(Popped(m.r, 1), OnStack(s, 1)))
    case 0x7A => m.(r := WithY(Popped(m.r, 1), OnStack(s, 1)))
    case _ => m.(r := WithX(Popped(m.r, 1), OnStack(s, 1)))
  }

  // BRK, JSR, RTI, RTS and JMP.
  predicate Transfers(op: Byte) {
    op == 0x00 || op == 0x20 || op == 0x40 || op == 0x60 || op == 0x4C || op == 0x6C || op == 0x7C
  }

  function TransferStep(s: Outcome, m: Machine): Machine {
    match Opcode(s)
    case 0x00 => Entry(m, 0xFFFE, true, false)
    case 0x20 => Called(s)
    case 0x40 =>
      m.(r := Popped(m.r, 3).(status := StatusOf(OnStack(s, 1)), pc := Little(OnStack(s, 2), OnStack(s, 3))))
    case 0x60 => m.(r := Popped(m.r, 2).(pc := Wrap(Little(OnStack(s, 1), OnStack(s, 2)) + 1)))
    case 0x4C => m.(r := m.r.(pc := ArgWord(s)))
    case 0x6C => m.(r := m.r.(pc := WordIn(s.mem, ArgWord(s))))
    case _ => m.(r := m.r.(pc := WordIn(s.mem, Wrap(ArgWord(s) + m.r.x))))
  }

  function Irregular(s: Outcome, m: Machine, p: Addr, v: Byte): Machine {
    var op := Opcode(s);
    if TestsBits(op) then TestStep(m, v)
    else if ChangesBits(op) then ChangeStep(op, m, p, v)
    else if Stores(op) then StoreStep(op, m, p)
    else if Loads(op) then LoadStep(op, m, v)
    else if Compares(op) then CompareStep(op, m, v)
    else if UsesStack(op) then StackStep(s, m)
    else if Transfers(op) then TransferStep(s, m)
    else m.(r := Implied(op, m.r))
  }

  // The regular columns; m, p and v as below.
  function AluStep(row: nat, m: Machine, p: Addr, v: Byte): Machine {
    if row == 4 then m.(mem := Put(m.mem, p, m.r.a)) else m.(r := Alu(row, m.r, v))
  }

  function ColumnStep(op: Byte, m: Machine, p: Addr, v: Byte): Machine {
    var row := Row(op);
    if row == 4 then m.(mem := Put(m.mem, p, if op == 0x9E then 0 else m.r.x))
    else if row == 5 then m.(r := WithX(m.r, v))
    else Shift(row, m, p, v)
  }

  // RMB and SMB.
  function BitStep(op: Byte, m: Machine, p: Addr, v: Byte): Machine {
    m.(mem := Put(m.mem, p, if op < 0x80 then And8(v, 0xFE) else Or8(v, 0x01)))
  }

  function JumpBy(m: Machine, offset: int): Machine {
    m.(r := m.r.(pc := Wrap(m.r.pc + offset)))
  }

  // The machine past the instruction's bytes.
  function Past(s: Outcome): Machine {
    Machine(s.r.(pc := Wrap(s.r.pc + Length(Opcode(s)))), s.mem)
  }

  function Step(s: Outcome, m: Machine, p: Addr, v: Byte): Machine {
    var op := Opcode(s);
    if IsAlu(op) then AluStep(Row(op), m, p, v)
    else if IsColumn(op) then ColumnStep(op, m, p, v)
    else if IsAcc(op) then m.(r := ShiftA(AccRow(op), m.r))
    else if Col(op) == 0x7 then BitStep(op, m, p, v)
    else if Col(op) == 0xF then if BitBranches(s) then JumpBy(m, Arg2(s)) else m
    else if IsBranch(op) then if Branches(op, m.r.status) then JumpBy(m, Int8(Arg(s))) else m
    else Irregular(s, m, p, v)
  }

  // What one instruction does.
  function Effect(s: Outcome): Outcome {
    var n := Step(s, Past(s), Place(s), At(s.mem, Place(s)));
    Outcome(n.r, n.mem, s.page || Crosses(s))
  }

  // ----- how long it takes -----

  // The cycles until the operand has been found, that of the opcode included.
  function Finding(s: Outcome): nat {
    var op := Opcode(s);
    var col := Col(op);
    (if op == 0x6C || op == 0x7C then 5
     else if col == 0x1 || col == 0x3 then if Second(op) then 4 else 5
     else if (col == 0x2 && Second(op)) || col == 0xF then 4
     else if 0x4 <= col <= 0x7 then if !Second(op) || col == 0x7 || op == 0x14 then 2 else 3
     else if op == 0x4C then 2
     else if col >= 0xC || (Second(op) && (col == 0x9 || col == 0xB)) then 3
     else 1)
    + if Crosses(s) then 1 else 0
  }

  // A taken branch, which takes longer if it leaves the page.
  function BranchClocks(from: Addr, offset: int): nat {
    if from / 0x100 == Wrap(from + offset) / 0x100 then 2 else 3
  }

  // Whether an instruction that pays for a page crossing in any case still has to: not if this
  // one or any before it has crossed one.
  predicate Pays(s: Outcome) {
    var op := Opcode(s);
    (op == 0x91 || op == 0x99 || op == 0x9D || op == 0x9E || op == 0xDE || op == 0xFE) && !s.page && !Crosses(s)
  }

  function OtherWork(op: Byte): nat {
    if op == 0x00 then 6
    else if op == 0x20 || op == 0x40 || op == 0x60 then 5
    else if ChangesBits(op) || op == 0x28 || op == 0x68 || op == 0x7A || op == 0xFA then 3
    else if op == 0x08 || op == 0x48 || op == 0x5A || op == 0xDA then 2
    else 1
  }

  function Working(s: Outcome): nat {
    var op, next := Opcode(s), Past(s).r.pc;
    if IsAlu(op) then if (Row(op) == 3 || Row(op) == 7) && s.r.status.d then 2 else 1
    else if IsColumn(op) then if Row(op) == 4 || Row(op) == 5 then 1 else 3
    else if IsAcc(op) then 1
    else if Col(op) == 0x7 then 3
    else if Col(op) == 0xF then if BitBranches(s) then BranchClocks(next, Arg2(s)) else 1
    else if IsBranch(op) then if Branches(op, s.r.status) then BranchClocks(next, Int8(Arg(s))) else 1
    else OtherWork(op)
  }

  // The clock cycles of one instruction.
  function Clocks(s: Outcome): nat { Finding(s) + Working(s) + if Pays(s) then 1 else 0 }

  // An interrupt's entry through a vector, and what the core turns to at an instruction's end: a
  // pending edge goes first, then a request that is not masked.
  function Entered(s: Outcome, vector: Addr): Outcome {
    var n := Entry(Machine(s.r, s.mem), vector, false, false);
    Outcome(n.r, n.mem, s.page)
  }

  function Follows(s: Outcome, edge: bool, request: bool): Outcome {
    if edge then Entered(s, 0xFFFA) else if request && !s.r.status.i then Entered(s, 0xFFFE) else Effect(s)
  }

  function FollowsIn(s: Outcome, edge: bool, request: bool): nat {
    if edge || (request && !s.r.status.i) then 7 else Clocks(s)
  }
}

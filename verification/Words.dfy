// Fixed-width arithmetic of the core: bytes and 16-bit addresses that wrap around.
module Words {
  type Byte = x: int | 0 <= x < 0x100
  type Addr = x: int | 0 <= x < 0x10000

  // Unsigned 32-bit arithmetic is done modulo this.
  const WORD32 := 0x1_0000_0000

  function Low(w: int): Byte { w % 0x100 }

  function High(w: Addr): Byte { w / 0x100 }

  function BitOr(a: Byte, b: Byte): Byte { ((a as bv8) | (b as bv8)) as int }

  function BitAnd(a: Byte, b: Byte): Byte { ((a as bv8) & (b as bv8)) as int }

  function BitXor(a: Byte, b: Byte): Byte { ((a as bv8) ^ (b as bv8)) as int }

  function BitNot(a: Byte): Byte { 0xFF - a }

  // Whether the bit of weight mask is set.
  predicate Has(w: int, mask: int)
    requires mask > 0
  {
    (w / mask) % 2 == 1
  }

  // A partly assembled address with its high byte or-ed in.
  function OrHigh(w: Addr, hi: Byte): Addr { Low(w) + 0x100 * BitOr(High(w), hi) }

  function Join(lo: Byte, hi: Byte): Addr { OrHigh(lo, hi) }

  function Inc16(w: Addr): Addr { if w == 0xFFFF then 0 else w + 1 }

  function Add16(w: Addr, d: int): Addr { (w + d) % 0x10000 }

  function ZpAdd(w: Addr, b: Byte): Byte { Low(w + b) }

  function ZpInc(w: Addr): Byte { Low(w + 1) }

  function Inc8(b: Byte): Byte { if b == 0xFF then 0 else b + 1 }

  function Dec8(b: Byte): Byte { if b == 0 then 0xFF else b - 1 }

  // A byte sign-extended to 16 bits.
  function Signed(v: Byte): Addr { if v >= 0x80 then 0xFF00 + v else v }

  predicate SamePage(a: Addr, b: Addr) { High(a) == High(b) }

  lemma LowByte(b: Byte)
    ensures Low(b) == b
  {
  }

  lemma OrZero(b: Byte)
    ensures BitOr(0, b) == b
  {
    assert (0 as bv8) | (b as bv8) == b as bv8;
  }

  lemma JoinIsSum(lo: Byte, hi: Byte)
    ensures Join(lo, hi) == lo + 0x100 * hi
  {
    OrZero(hi);
  }

  lemma JoinHalves(w: Addr)
    ensures Join(Low(w), High(w)) == w
  {
    JoinIsSum(Low(w), High(w));
  }

  lemma AddSmall(p: Addr)
    ensures Add16(p, 1) == Inc16(p) && Add16(p, 2) == Inc16(Inc16(p)) && Add16(p, 3) == Inc16(Inc16(Inc16(p)))
  {
  }
}

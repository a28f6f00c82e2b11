// The reader of type strings: hex digits that spell out a chain of pointers and arrays
// around a basic type.
module TypeStrings {
  import opened Optional
  import opened Words

  // Type codes.  The three high bits of a code say what it is, the three low bits its
  // size less one.
  const GT_VOID: Byte := 0x00
  const GT_BYTE: Byte := 0x20
  const GT_WORD: Byte := 0x21
  const GT_DWORD: Byte := 0x23
  const GT_DBYTE: Byte := 0x51
  const GT_PTR: Byte := 0x41
  const GT_FAR_PTR: Byte := 0x42

  function SizeOfCode(b: Byte): (n: nat)
    ensures 1 <= n <= 8
  {
    b % 8 + 1
  }

  predicate IsArrayCode(b: Byte) {
    b / 32 == 4
  }

  datatype Basic = Void | ByteType | WordType | DwordType | DbyteType

  function BasicOf(b: Byte): Option<Basic> {
    if b == GT_VOID then Some(Void)
    else if b == GT_BYTE then Some(ByteType)
    else if b == GT_WORD then Some(WordType)
    else if b == GT_DWORD then Some(DwordType)
    else if b == GT_DBYTE then Some(DbyteType)
    else None
  }

  function SizeOfBasic(k: Basic): nat {
    match k
    case Void => 0
    case ByteType => 1
    case WordType => 2
    case DwordType => 4
    case DbyteType => 2
  }

  // A type, as it is meant.
  datatype Type = Of(basic: Basic) | Ptr(to: Type) | FarPtr(to: Type) | Array(count: nat, elem: Type)

  function SizeOf(t: Type): nat {
    match t
    case Of(Void) => 0
    case Of(ByteType) => 1
    case Of(WordType) => 2
    case Of(DwordType) => 4
    case Of(DbyteType) => 2
    case Ptr(_) => 2
    case FarPtr(_) => 3
    case Array(n, e) => n * SizeOf(e)
  }

  function Nodes(t: Type): nat {
    match t
    case Of(_) => 1
    case Ptr(u) => 1 + Nodes(u)
    case FarPtr(u) => 1 + Nodes(u)
    case Array(_, u) => 1 + Nodes(u)
  }

  function BigEndian(s: seq<Byte>): nat {
    if s == [] then 0 else 0x100 * BigEndian(s[..|s| - 1]) + s[|s| - 1]
  }

  // How a type is written: an array code is followed by its count, in as many bytes as the
  // code's low bits say but no more than four; the code's other bits do not matter.
  ghost predicate Spells(s: seq<Byte>, t: Type)
    decreases t
  {
    s != [] &&
    match t
    case Of(Void) => s == [0x00]
    case Of(ByteType) => s == [0x20]
    case Of(WordType) => s == [0x21]
    case Of(DwordType) => s == [0x23]
    case Of(DbyteType) => s == [0x51]
    case Ptr(u) => s[0] == 0x41 && Spells(s[1..], u)
    case FarPtr(u) => s[0] == 0x42 && Spells(s[1..], u)
    case Array(n, u) =>
      var size := s[0] % 8 + 1;
      0x80 <= s[0] < 0xA0 && size <= 4 && 1 + size <= |s| && n == BigEndian(s[1..1 + size]) && Spells(s[1 + size..], u)
  }

  ghost predicate SpellsType(s: seq<Byte>) {
    exists t :: Spells(s, t)
  }

  // A string that starts with a whole pointer or array code, count included ...
  predicate IsPrefixed(s: seq<Byte>) {
    s != [] &&
    (s[0] == GT_PTR || s[0] == GT_FAR_PTR ||
     (IsArrayCode(s[0]) && SizeOfCode(s[0]) <= 4 && 1 + SizeOfCode(s[0]) <= |s|))
  }

  // ... of this many bytes ...
  function Skip(b: Byte): (n: nat)
    ensures n >= 1
  {
    if IsArrayCode(b) then 1 + SizeOfCode(b) else 1
  }

  // ... makes of what follows this type.
  function Wrap(s: seq<Byte>, t: Type): Type
    requires IsPrefixed(s)
  {
    if s[0] == GT_PTR then Ptr(t)
    else if s[0] == GT_FAR_PTR then FarPtr(t)
    else Array(BigEndian(s[1..Skip(s[0])]), t)
  }

  // The type at the start of a string and how many bytes it takes.
  function Parse(s: seq<Byte>): (r: Option<(Type, nat)>)
    ensures r.Some? ==> 1 <= r.value.1 <= |s|
  {
    if s != [] && BasicOf(s[0]).Some? then Some((Of(BasicOf(s[0]).value), 1))
    else if IsPrefixed(s) then
      var r := Parse(s[Skip(s[0])..]);
      if r == None then None else Some((Wrap(s, r.value.0), Skip(s[0]) + r.value.1))
    else None
  }

  // Parse finds just what is spelled.
  lemma {:induction false} ParseSpells(s: seq<Byte>, t: Type)
    ensures Spells(s, t) <==> Parse(s) == Some((t, |s|))
    decreases t
  {
    hide BigEndian;
    if s != [] && IsPrefixed(s) && !t.Of? {
      var rest := s[Skip(s[0])..];
      ParseSpells(rest, Inner(t));
      SpellsPrefixed(s, t);
    }
  }

  function Inner(t: Type): Type
    requires !t.Of?
  {
    match t
    case Ptr(u) => u
    case FarPtr(u) => u
    case Array(_, u) => u
  }

  lemma SpellsPrefixed(s: seq<Byte>, t: Type)
    requires IsPrefixed(s) && !t.Of?
    ensures Spells(s, t) <==> t == Wrap(s, Inner(t)) && Spells(s[Skip(s[0])..], Inner(t))
  {
  }

  predicate IsKnown(b: Byte) {
    BasicOf(b).Some? || b == GT_PTR || b == GT_FAR_PTR || IsArrayCode(b)
  }

  // The number of types that begin in the string, if it divides up into types: what the
  // counting pass computes.
  function Items(s: seq<Byte>): Option<nat> {
    if s == [] then Some(0)
    else if IsKnown(s[0]) && Skip(s[0]) <= |s| then Plus(1, Items(s[Skip(s[0])..]))
    else None
  }

  function Plus(n: nat, r: Option<nat>): Option<nat> {
    if r == None then None else Some(n + r.value)
  }

  // The counting pass and the parser agree: the count is the parsed type's and that of
  // what is left over ...
  lemma {:induction false} PassesAgree(s: seq<Byte>)
    requires Parse(s).Some?
    ensures Items(s) == Plus(Nodes(Parse(s).value.0), Items(s[Parse(s).value.1..]))
  {
    hide Parse, Items, Skip, IsPrefixed, BasicOf, Wrap;
    OneStep(s);
    if !BasicOf(s[0]).Some? {
      var rest := s[Skip(s[0])..];
      PassesAgree(rest);
      assert rest[Parse(rest).value.1..] == s[Parse(s).value.1..];
    }
  }

  lemma OneStep(s: seq<Byte>)
    requires Parse(s).Some?
    ensures s != [] && Skip(s[0]) <= |s| && Items(s) == Plus(1, Items(s[Skip(s[0])..]))
    ensures BasicOf(s[0]).Some? ==> Skip(s[0]) == 1 == Parse(s).value.1 && Nodes(Parse(s).value.0) == 1
    ensures !BasicOf(s[0]).Some? ==>
      && Parse(s[Skip(s[0])..]).Some?
      && Parse(s).value.1 == Skip(s[0]) + Parse(s[Skip(s[0])..]).value.1
      && Nodes(Parse(s).value.0) == 1 + Nodes(Parse(s[Skip(s[0])..]).value.0)
  {
  }

  // ... so it is the type's own just when nothing is left.
  lemma CountIsExact(s: seq<Byte>)
    requires Parse(s).Some?
    ensures Items(s) == Some(Nodes(Parse(s).value.0)) <==> Parse(s).value.1 == |s|
    ensures Items(s).Some? ==> Items(s).value >= Nodes(Parse(s).value.0)
  {
    PassesAgree(s);
  }

  datatype What = Plain(basic: Basic) | Pointer | FarPointer | ArrayOf

  // A parsed type's node: its target is the index of the node of the type it refers to.
  datatype Item = Item(what: What, size: nat, target: int, count: nat)

  // The nodes from i on make up the type, each followed by the one it refers to.
  ghost predicate Represents(items: seq<Item>, i: int, t: Type)
    decreases t
  {
    && 0 <= i < |items|
    && items[i].size == SizeOf(t) % WORD32
    && match t
       case Of(k) => items[i].what == Plain(k)
       case Ptr(u) => items[i].what == Pointer && items[i].target == i + 1 && Represents(items, i + 1, u)
       case FarPtr(u) => items[i].what == FarPointer && items[i].target == i + 1 && Represents(items, i + 1, u)
       case Array(n, u) =>
         items[i].what == ArrayOf && items[i].target == i + 1 && items[i].count == n && Represents(items, i + 1, u)
  }

  lemma {:induction false} RepresentsStill(s: seq<Item>, t: seq<Item>, i: int, u: Type)
    requires Represents(s, i, u) && |s| == |t| && forall k :: i <= k < |s| ==> s[k] == t[k]
    ensures Represents(t, i, u)
    decreases u
  {
    match u
    case Of(_) =>
    case Ptr(v) => RepresentsStill(s, t, i + 1, v);
    case FarPtr(v) => RepresentsStill(s, t, i + 1, v);
    case Array(_, v) => RepresentsStill(s, t, i + 1, v);
  }

  lemma BigEndianBound(s: seq<Byte>)
    requires |s| <= 4
    ensures |s| <= 3 ==> 0x100 * BigEndian(s) < WORD32
    ensures BigEndian(s) < WORD32
  {
    if s != [] {
      BigEndianBound(s[..|s| - 1]);
    }
    assert |s| == 0 ==> BigEndian(s) == 0;
    assert |s| >= 1 ==> BigEndian(s) == 0x100 * BigEndian(s[..|s| - 1]) + s[|s| - 1];
    if |s| >= 2 {
      assert BigEndian(s[..|s| - 1]) == 0x100 * BigEndian(s[..|s| - 2]) + s[|s| - 2] by {
        assert s[..|s| - 1][..|s| - 2] == s[..|s| - 2];
      }
    }
    if |s| >= 3 {
      assert BigEndian(s[..|s| - 2]) == 0x100 * BigEndian(s[..|s| - 3]) + s[|s| - 3] by {
        assert s[..|s| - 2][..|s| - 3] == s[..|s| - 3];
      }
    }
  }

  lemma ModTimes(n: nat, a: nat)
    ensures (n * (a % WORD32)) % WORD32 == (n * a) % WORD32
  {
    var q := a / WORD32;
    assert a == WORD32 * q + a % WORD32;
    assert n * a == n * (a % WORD32) + WORD32 * (n * q);
  }

  // What the parser has to have done: taken the parsed type's bytes and as many items as
  // it has nodes.
  ghost predicate Parsed(typ: seq<Byte>, from: nat, to: nat, items: seq<Item>, first: int, next: int) {
    from <= |typ| && var r := Parse(typ[from..]);
    r.Some? && to == from + r.value.1 && next == first + Nodes(r.value.0) && Represents(items, first, r.value.0)
  }

  // There is a type to parse, and there are items enough for its nodes.
  ghost predicate Parseable(typ: seq<Byte>, from: nat, room: int)
    requires from <= |typ|
  {
    Parse(typ[from..]).Some? && Nodes(Parse(typ[from..]).value.0) <= room
  }

  lemma Unparseable(typ: seq<Byte>, from: nat, room: int)
    requires from <= |typ|
    requires room <= 0 || from == |typ| || (BasicOf(typ[from]) == None && !IsPrefixed(typ[from..]))
    ensures !Parseable(typ, from, room)
  {
  }

  lemma BasicParsed(typ: seq<Byte>, from: nat, room: int, items: seq<Item>, first: nat)
    requires from < |typ| && BasicOf(typ[from]).Some? && room >= 1
    requires first < |items|
    requires var k := BasicOf(typ[from]).value; items[first].what == Plain(k) && items[first].size == SizeOfBasic(k)
    ensures Parseable(typ, from, room) && Parsed(typ, from, from + 1, items, first, first + 1)
  {
  }

  lemma PrefixParseable(typ: seq<Byte>, from: nat, room: int)
    requires from < |typ| && BasicOf(typ[from]) == None && IsPrefixed(typ[from..])
    ensures from + Skip(typ[from]) <= |typ|
    ensures Parseable(typ, from, room) <==> Parseable(typ, from + Skip(typ[from]), room - 1)
  {
    assert typ[from..][Skip(typ[from])..] == typ[from + Skip(typ[from])..];
  }

  // The node for a prefix, before the node its type refers to.
  ghost predicate HeadItem(typ: seq<Byte>, from: nat, items: seq<Item>, first: nat)
    requires from < |typ| && IsPrefixed(typ[from..])
  {
    && first + 1 < |items| && items[first].target == first + 1
    && if typ[from] == GT_PTR then items[first].what == Pointer && items[first].size == 2
       else if typ[from] == GT_FAR_PTR then items[first].what == FarPointer && items[first].size == 3
       else
         && items[first].what == ArrayOf
         && items[first].count == BigEndian(typ[from + 1..from + Skip(typ[from])])
         && items[first].size == (items[first].count * items[first + 1].size) % WORD32
  }

  lemma HeadRepresents(typ: seq<Byte>, from: nat, items: seq<Item>, first: nat, t: Type)
    requires from < |typ| && IsPrefixed(typ[from..])
    requires HeadItem(typ, from, items, first) && Represents(items, first + 1, t)
    ensures Represents(items, first, Wrap(typ[from..], t))
  {
    hide BigEndian, BasicOf;
    assert typ[from..][1..Skip(typ[from])] == typ[from + 1..from + Skip(typ[from])];
    ModTimes(items[first].count, SizeOf(t));
  }

  lemma ParsePrefix(typ: seq<Byte>, from: nat)
    requires from < |typ| && BasicOf(typ[from]) == None && IsPrefixed(typ[from..])
    requires Parse(typ[from + Skip(typ[from])..]).Some?
    ensures var r := Parse(typ[from + Skip(typ[from])..]).value;
      var q := Parse(typ[from..]);
      && q.Some? && q.value.0 == Wrap(typ[from..], r.0) && q.value.1 == Skip(typ[from]) + r.1
      && Nodes(q.value.0) == 1 + Nodes(r.0)
  {
    assert typ[from..][Skip(typ[from])..] == typ[from + Skip(typ[from])..];
  }

  lemma PrefixParsed(typ: seq<Byte>, from: nat, to: nat, was: seq<Item>, items: seq<Item>, first: nat, next: int)
    requires from < |typ| && BasicOf(typ[from]) == None && IsPrefixed(typ[from..])
    requires Parsed(typ, from + Skip(typ[from]), to, was, first + 1, next)
    requires |was| == |items| && forall k :: first < k < |was| ==> was[k] == items[k]
    requires HeadItem(typ, from, items, first)
    ensures Parsed(typ, from, to, items, first, next)
  {
    hide Parse, Represents, HeadItem, IsPrefixed, Wrap, Skip, BasicOf, Nodes;
    var t := Parse(typ[from + Skip(typ[from])..]).value.0;
    RepresentsStill(was, items, first + 1, t);
    HeadRepresents(typ, from, items, first, t);
    ParsePrefix(typ, from);
  }

  class TypeParse {
    const typ: seq<Byte>
    const items: array<Item>
    var itemIndex: nat
    var pos: nat
    var error: bool

    constructor (typ: seq<Byte>, itemCount: nat)
      ensures this.typ == typ && items.Length == itemCount && fresh(items)
      ensures itemIndex == 0 && pos == 0 && !error
    {
      this.typ := typ;
      items := new Item[itemCount](_ => Item(Pointer, 0, -1, 0));
      itemIndex, pos, error := 0, 0, false;
    }

    // The count of an array, size bytes long, which ends at the current position.
    method ReadCount(size: nat) returns (count: nat)
      requires 1 <= size <= 4 && size <= pos <= |typ|
      ensures count == BigEndian(typ[pos - size..pos])
    {
      count := 0;
      var i := size;
      while i > 0
        invariant i <= size && count == BigEndian(typ[pos - size..pos - i])
      {
        BigEndianBound(typ[pos - size..pos - i]);
        count := (0x100 * count) % WORD32;
        count := count + typ[pos - i];
        assert typ[pos - size..pos - i + 1] == typ[pos - size..pos - i] + [typ[pos - i]];
        i := i - 1;
      }
    }

    // Reads one type, into as many items as it has nodes; -1 stands for an error.
    method TypeFromString() returns (data: int)
      requires !error && pos <= |typ| && itemIndex <= items.Length
      modifies `itemIndex, `pos, `error, items
      ensures old(Parseable(typ, pos, items.Length - itemIndex)) ==>
        !error && data == old(itemIndex) && Parsed(typ, old(pos), pos, items[..], data, itemIndex)
      ensures !old(Parseable(typ, pos, items.Length - itemIndex)) ==> error && data == -1
      ensures error || (pos <= |typ| && itemIndex <= items.Length)
      ensures forall i :: 0 <= i < old(itemIndex) ==> items[i] == old(items[i])
      decreases items.Length - itemIndex
    {
      hide Parse, Represents, Parsed, Parseable, BasicOf, IsPrefixed, HeadItem;
      ghost var from, room := pos, items.Length - itemIndex;
      if itemIndex >= items.Length {
        Unparseable(typ, from, room);
        error := true;
        return -1;
      }
      data, itemIndex := itemIndex, itemIndex + 1;
      if pos >= |typ| {
        Unparseable(typ, from, room);
        error := true;
        return -1;
      }
      var b := typ[pos];
      pos := pos + 1;
      Codes(typ, from);
      if BasicOf(b).Some? {
        items[data] := Item(Plain(BasicOf(b).value), SizeOfBasic(BasicOf(b).value), -1, 0);
        BasicParsed(typ, from, room, items[..], data);
      } else if b == GT_PTR || b == GT_FAR_PTR {
        items[data] := Item(if b == GT_PTR then Pointer else FarPointer, 0, -1, 0);
        PrefixParseable(typ, from, room);
        var target := TypeFromString();
        ghost var was := items[..];
        items[data] := items[data].(target := target, size := SizeOfCode(b));
        if !error {
          PointerHead(typ, from, pos, was, items[..], data, itemIndex);
        }
      } else if IsArrayCode(b) {
        var size := SizeOfCode(b);
        if size == 0 || size > 4 {
          Unparseable(typ, from, room);
          error := true;
          return -1;
        }
        pos := pos + size;
        if pos > |typ| {
          Unparseable(typ, from, room);
          error := true;
          return -1;
        }
        PrefixParseable(typ, from, room);
        var count := ReadCount(size);
        items[data] := Item(ArrayOf, 0, -1, count);
        var target := TypeFromString();
        ghost var was := items[..];
        items[data] := items[data].(target := target);
        if !error {
          Inhabited(typ, from + Skip(b), pos, was, target, itemIndex);
          items[data] := items[data].(size := (count * items[target].size) % WORD32);
          ArrayHead(typ, from, pos, was, items[..], data, itemIndex);
        }
      } else {
        Unparseable(typ, from, room);
        error := true;
      }
      if error {
        data := -1;
      }
    }
  }

  lemma Codes(typ: seq<Byte>, from: nat)
    requires from < |typ|
    ensures typ[from] == GT_PTR || typ[from] == GT_FAR_PTR ==>
      BasicOf(typ[from]) == None && IsPrefixed(typ[from..]) && Skip(typ[from]) == 1
    ensures IsArrayCode(typ[from]) ==> BasicOf(typ[from]) == None && Skip(typ[from]) == 1 + SizeOfCode(typ[from])
    ensures IsArrayCode(typ[from]) ==>
      (IsPrefixed(typ[from..]) <==> SizeOfCode(typ[from]) <= 4 && from + 1 + SizeOfCode(typ[from]) <= |typ|)
    ensures !IsArrayCode(typ[from]) && typ[from] != GT_PTR && typ[from] != GT_FAR_PTR ==> !IsPrefixed(typ[from..])
  {
  }

  lemma Inhabited(typ: seq<Byte>, from: nat, to: nat, items: seq<Item>, first: int, next: int)
    requires Parsed(typ, from, to, items, first, next)
    ensures 0 <= first < |items|
  {
  }

  lemma PointerHead(typ: seq<Byte>, from: nat, to: nat, was: seq<Item>, items: seq<Item>, first: nat, next: int)
    requires from < |typ| && (typ[from] == GT_PTR || typ[from] == GT_FAR_PTR)
    requires Parsed(typ, from + 1, to, was, first + 1, next)
    requires |was| == |items| && forall k :: first < k < |was| ==> was[k] == items[k]
    requires first < |items| && items[first].target == first + 1 && items[first].size == SizeOfCode(typ[from])
    requires items[first].what == if typ[from] == GT_PTR then Pointer else FarPointer
    ensures Parsed(typ, from, to, items, first, next)
  {
    Codes(typ, from);
    Inhabited(typ, from + 1, to, was, first + 1, next);
    PrefixParsed(typ, from, to, was, items, first, next);
  }

  lemma ArrayHead(typ: seq<Byte>, from: nat, to: nat, was: seq<Item>, items: seq<Item>, first: nat, next: int)
    requires from < |typ| && IsArrayCode(typ[from]) && IsPrefixed(typ[from..])
    requires Parsed(typ, from + 1 + SizeOfCode(typ[from]), to, was, first + 1, next)
    requires |was| == |items| && forall k :: first < k < |was| ==> was[k] == items[k]
    requires first + 1 < |items| && items[first].target == first + 1 && items[first].what == ArrayOf
    requires items[first].count == BigEndian(typ[from + 1..from + 1 + SizeOfCode(typ[from])])
    requires items[first].size == (items[first].count * items[first + 1].size) % WORD32
    ensures Parsed(typ, from, to, items, first, next)
  {
    Codes(typ, from);
    PrefixParsed(typ, from, to, was, items, first, next);
  }

  // Hex digits, as character codes.
  predicate IsHexDigit(c: Byte) {
    48 <= c <= 57 || 65 <= c <= 70 || 97 <= c <= 102
  }

  function HexValue(c: Byte): (v: nat)
    requires IsHexDigit(c)
    ensures v < 16
  {
    if 48 <= c <= 57 then c - 48
    else if 97 <= c <= 122 then c - 97 + 10
    else c - 65 + 10
  }

  predicate IsHex(s: seq<Byte>) {
    |s| >= 2 && |s| % 2 == 0 && forall i :: 0 <= i < |s| ==> IsHexDigit(s[i])
  }

  function HexDecode(s: seq<Byte>): (r: seq<Byte>)
    requires IsHex(s)
    ensures |r| == |s| / 2
  {
    seq(|s| / 2, k requires 0 <= k < |s| / 2 => HexByte(s[2 * k], s[2 * k + 1]))
  }

  function HexByte(high: Byte, low: Byte): Byte
    requires IsHexDigit(high) && IsHexDigit(low)
  {
    16 * HexValue(high) + HexValue(low)
  }

  // Converts pairs of digits to bytes where they stand.
  method DecodeInPlace(typ: array<Byte>)
    requires IsHex(typ[..])
    modifies typ
    ensures typ[..typ.Length / 2] == HexDecode(old(typ[..]))
  {
    hide HexByte, IsHexDigit;
    ghost var s := typ[..];
    var a, b := 0, 0;
    while a < typ.Length
      invariant 0 <= a <= typ.Length && a == 2 * b
      invariant forall k :: a <= k < typ.Length ==> typ[k] == s[k]
      invariant typ[..b] == HexDecode(s)[..b]
    {
      typ[b] := HexByte(typ[a], typ[a + 1]);
      a, b := a + 2, b + 1;
    }
  }

  // The counting pass.
  method CountItems(s: seq<Byte>) returns (count: Option<nat>)
    ensures count == Items(s)
  {
    hide BasicOf, SizeOfCode;
    var i, n := 0, 0;
    while i < |s|
      invariant 0 <= i <= |s| && Items(s) == Plus(n, Items(s[i..]))
    {
      if !IsKnown(s[i]) {
        return None;
      }
      var next := if IsArrayCode(s[i]) then i + SizeOfCode(s[i]) + 1 else i + 1;
      if next > |s| {
        return None;
      }
      assert s[i..][Skip(s[i])..] == s[next..];
      i, n := next, n + 1;
    }
    return Some(n);
  }

  // A hex digit, in small or capital letters, stands for a value; a string of them for bytes.
  ghost predicate IsDigitFor(c: Byte, v: nat) {
    if v < 10 then c == '0' as int + v else v < 16 && (c == 'A' as int + v - 10 || c == 'a' as int + v - 10)
  }

  ghost predicate Denotes(s: seq<Byte>, bytes: seq<Byte>) {
    && bytes != [] && |s| == 2 * |bytes|
    && forall k :: 0 <= k < |bytes| ==> IsDigitFor(s[2 * k], bytes[k] / 16) && IsDigitFor(s[2 * k + 1], bytes[k] % 16)
  }

  lemma DigitIs(c: Byte)
    ensures IsHexDigit(c) ==> IsDigitFor(c, HexValue(c)) && forall v: nat :: IsDigitFor(c, v) ==> v == HexValue(c)
    ensures !IsHexDigit(c) ==> forall v: nat :: !IsDigitFor(c, v)
  {
  }

  lemma BytesAre(high: nat, low: nat)
    requires high < 16 && low < 16
    ensures (16 * high + low) / 16 == high && (16 * high + low) % 16 == low
  {
  }

  // A string denotes bytes just if it is made of digits, and just those it decodes to.
  lemma DenotesDecoded(s: seq<Byte>)
    ensures IsHex(s) ==> Denotes(s, HexDecode(s))
    ensures forall bytes :: Denotes(s, bytes) ==> IsHex(s) && bytes == HexDecode(s)
  {
    hide IsDigitFor, IsHexDigit, HexValue;
    if IsHex(s) {
      forall k | 0 <= k < |s| / 2
        ensures IsDigitFor(s[2 * k], HexDecode(s)[k] / 16) && IsDigitFor(s[2 * k + 1], HexDecode(s)[k] % 16)
      {
        DigitIs(s[2 * k]);
        DigitIs(s[2 * k + 1]);
        BytesAre(HexValue(s[2 * k]), HexValue(s[2 * k + 1]));
      }
    }
    forall bytes | Denotes(s, bytes)
      ensures IsHex(s) && bytes == HexDecode(s)
    {
      forall i | 0 <= i < |s|
        ensures IsHexDigit(s[i])
      {
        var k := i / 2;
        assert IsDigitFor(s[2 * k], bytes[k] / 16) && IsDigitFor(s[2 * k + 1], bytes[k] % 16);
        assert i == 2 * k || i == 2 * k + 1;
        DigitIs(s[i]);
      }
      forall k | 0 <= k < |bytes|
        ensures bytes[k] == HexDecode(s)[k]
      {
        DigitIs(s[2 * k]);
        DigitIs(s[2 * k + 1]);
      }
    }
  }

  ghost predicate IsTypeString(s: seq<Byte>) {
    exists bytes :: Denotes(s, bytes) && SpellsType(bytes)
  }

  lemma TypeStringIs(s: seq<Byte>)
    ensures IsTypeString(s) <==> IsHex(s) && SpellsType(HexDecode(s))
  {
    hide SpellsType, Denotes, IsHex, HexDecode;
    DenotesDecoded(s);
  }

  // Decodes a type string where it stands and parses it.  It succeeds on just the strings
  // of hex digits that spell a type, and what it returns represents that type, node for
  // node; null stands for an error.
  method ParseTypeString(typ: array<Byte>) returns (items: array?<Item>)
    modifies typ
    ensures items != null <==> IsTypeString(old(typ[..]))
    ensures items != null ==> forall bytes, t :: Denotes(old(typ[..]), bytes) && Spells(bytes, t) ==>
      Represents(items[..], 0, t) && items.Length == Nodes(t)
  {
    ghost var s := typ[..];
    TypeStringIs(s);
    DenotesDecoded(s);
    hide Denotes, Spells, Represents, SpellsType, IsTypeString;
    if typ.Length < 2 || typ.Length % 2 != 0 {
      assert !IsHex(s);
      return null;
    }
    var i := 0;
    while i < typ.Length
      invariant 0 <= i <= typ.Length && forall k :: 0 <= k < i ==> IsHexDigit(typ[k])
    {
      if !IsHexDigit(typ[i]) {
        assert !IsHexDigit(s[i]);
        return null;
      }
      i := i + 1;
    }
    DecodeInPlace(typ);
    var binary := typ[..typ.Length / 2];
    items := ParseBinary(binary);
  }

  method ParseBinary(s: seq<Byte>) returns (items: array?<Item>)
    ensures items != null <==> SpellsType(s)
    ensures items != null ==> forall t :: Spells(s, t) ==> Represents(items[..], 0, t) && items.Length == Nodes(t)
  {
    hide Spells, Represents, Parse, Items;
    var count := CountItems(s);
    Uncounted(s);
    if count == None {
      return null;
    }
    var p := new TypeParse(s, count.value);
    var data := p.TypeFromString();
    assert s[0..] == s;
    Accepted(s, count.value);
    if data < 0 || p.items.Length != p.itemIndex {
      return null;
    }
    items := p.items;
  }

  // A string that is spelled by a type is counted as its nodes.
  lemma Uncounted(s: seq<Byte>)
    ensures Items(s) == None ==> !SpellsType(s)
  {
    forall t | Spells(s, t)
      ensures Items(s).Some?
    {
      ParseSpells(s, t);
      CountIsExact(s);
    }
  }

  lemma Accepted(s: seq<Byte>, n: nat)
    requires Items(s) == Some(n)
    ensures SpellsType(s) <==> Parseable(s, 0, n) && Nodes(Parse(s).value.0) == n
    ensures forall t :: Spells(s, t) ==> Parse(s).Some? && Parse(s).value.0 == t && Nodes(t) == n
    ensures Parseable(s, 0, n) <==> Parse(s).Some?
  {
    assert s[0..] == s;
    if Parse(s).Some? {
      CountIsExact(s);
      ParseSpells(s, Parse(s).value.0);
    }
    forall t | Spells(s, t)
      ensures Parse(s).Some? && Parse(s).value.0 == t && Nodes(t) == n
    {
      ParseSpells(s, t);
      CountIsExact(s);
    }
  }

  // The other way: a type written down with its counts in as few bytes as they need.
  function CountBytes(n: nat): (s: seq<Byte>)
    ensures s != []
  {
    if n < 0x100 then [n] else CountBytes(n / 0x100) + [n % 0x100]
  }

  lemma {:induction false} CountBytesExact(n: nat)
    ensures BigEndian(CountBytes(n)) == n
    ensures n < 0x100 ==> |CountBytes(n)| == 1
    ensures n < 0x1_0000 ==> |CountBytes(n)| <= 2
    ensures n < 0x100_0000 ==> |CountBytes(n)| <= 3
    ensures n < WORD32 ==> |CountBytes(n)| <= 4
  {
    if n >= 0x100 {
      CountBytesExact(n / 0x100);
      assert CountBytes(n)[..|CountBytes(n)| - 1] == CountBytes(n / 0x100);
    } else {
      assert BigEndian([n][..0]) == 0;
    }
  }

  predicate Printable(t: Type) {
    match t
    case Of(_) => true
    case Ptr(u) => Printable(u)
    case FarPtr(u) => Printable(u)
    case Array(n, u) => n < WORD32 && Printable(u)
  }

  function CodeOf(k: Basic): Byte {
    match k
    case Void => GT_VOID
    case ByteType => GT_BYTE
    case WordType => GT_WORD
    case DwordType => GT_DWORD
    case DbyteType => GT_DBYTE
  }

  function Print(t: Type): (s: seq<Byte>)
    requires Printable(t)
    ensures s != []
  {
    match t
    case Of(k) => [CodeOf(k)]
    case Ptr(u) => [GT_PTR] + Print(u)
    case FarPtr(u) => [GT_FAR_PTR] + Print(u)
    case Array(n, u) =>
      CountBytesExact(n);
      [0x80 + |CountBytes(n)| - 1] + CountBytes(n) + Print(u)
  }

  // What is printed spells the type, so the parser gives back the type that was printed.
  lemma {:induction false} PrintSpells(t: Type)
    requires Printable(t)
    ensures Spells(Print(t), t)
  {
    match t {
      case Of(_) =>
      case Ptr(u) =>
        PrintSpells(u);
        assert Print(t)[1..] == Print(u);
      case FarPtr(u) =>
        PrintSpells(u);
        assert Print(t)[1..] == Print(u);
      case Array(n, u) =>
        PrintSpells(u);
        ArraySpells(n, u);
    }
  }

  lemma ArraySpells(n: nat, u: Type)
    requires n < WORD32 && Printable(u) && Spells(Print(u), u)
    ensures Spells(Print(Array(n, u)), Array(n, u))
  {
    hide CountBytes, BigEndian, SizeOfCode, IsArrayCode;
    CountBytesExact(n);
    var s, digits := Print(Array(n, u)), CountBytes(n);
    CountCode(|digits|);
    assert s[0] == 0x80 + |digits| - 1;
    assert s[1..1 + |digits|] == digits;
    assert s[1 + |digits|..] == Print(u);
  }

  lemma CountCode(n: nat)
    requires 1 <= n <= 4
    ensures IsArrayCode(0x80 + n - 1) && SizeOfCode(0x80 + n - 1) == n
  {
  }

  lemma ParsePrints(t: Type)
    requires Printable(t)
    ensures Parse(Print(t)) == Some((t, |Print(t)|))
  {
    PrintSpells(t);
    ParseSpells(Print(t), t);
  }

  function HexDigit(v: nat): Byte
    requires v < 16
  {
    if v < 10 then 48 + v else 97 + v - 10
  }

  function HexEncode(s: seq<Byte>): (r: seq<Byte>)
    ensures |r| == 2 * |s| && forall i :: 0 <= i < |r| ==> IsHexDigit(r[i])
  {
    if s == [] then [] else HexEncode(s[..|s| - 1]) + [HexDigit(s[|s| - 1] / 16), HexDigit(s[|s| - 1] % 16)]
  }

  lemma {:induction false} HexRoundTrip(s: seq<Byte>)
    requires s != []
    ensures HexDecode(HexEncode(s)) == s
  {
    forall k | 0 <= k < |s|
      ensures HexDecode(HexEncode(s))[k] == s[k]
    {
      HexEncodeAt(s, k);
    }
  }

  lemma {:induction false} HexEncodeAt(s: seq<Byte>, k: nat)
    requires k < |s|
    ensures HexEncode(s)[2 * k] == HexDigit(s[k] / 16) && HexEncode(s)[2 * k + 1] == HexDigit(s[k] % 16)
  {
    if k < |s| - 1 {
      HexEncodeAt(s[..|s| - 1], k);
    }
  }

  // A type printed in hex is read back, whatever it was.
  method PrintAndParse(t: Type) returns (items: array?<Item>)
    requires Printable(t)
    ensures items != null && Represents(items[..], 0, t) && items.Length == Nodes(t)
  {
    hide Spells, Represents, Print, HexEncode, HexDecode, IsHexDigit, Printable, Denotes, IsTypeString;
    var s := HexEncode(Print(t));
    PrintSpells(t);
    HexRoundTrip(Print(t));
    var typ := new Byte[|s|](i requires 0 <= i < |s| => s[i]);
    assert typ[..] == s;
    DenotesDecoded(s);
    TypeStringIs(s);
    assert SpellsType(Print(t));
    items := ParseTypeString(typ);
  }
}

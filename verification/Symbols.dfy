// Symbols found by name and by value, in collections sorted for it.
module Symbols {
  import opened CollectionSort

  datatype Symbol = Symbol(id: nat, name: string, value: int, isLabel: bool)

  // The C library's comparison of strings.
  function StrCmp(a: string, b: string): int {
    if a == [] then (if b == [] then 0 else -1)
    else if b == [] then 1
    else if a[0] != b[0] then (if a[0] < b[0] then -1 else 1)
    else StrCmp(a[1..], b[1..])
  }

  lemma {:induction false} StrCmpEqual(a: string, b: string)
    ensures StrCmp(a, b) == 0 <==> a == b
    ensures StrCmp(a, b) < 0 <==> StrCmp(b, a) > 0
  {
    if a != [] && b != [] {
      StrCmpEqual(a[1..], b[1..]);
      assert a == [a[0]] + a[1..] && b == [b[0]] + b[1..];
    }
  }

  lemma {:induction false} StrCmpTransitive(a: string, b: string, c: string)
    requires StrCmp(a, b) <= 0 && StrCmp(b, c) <= 0
    ensures StrCmp(a, c) <= 0
  {
    if a != [] && b != [] && c != [] && a[0] == b[0] == c[0] {
      StrCmpTransitive(a[1..], b[1..], c[1..]);
    }
  }

  // A string is before another if it is the first part of it, or has a smaller character where
  // they first differ.
  ghost predicate Before(a: string, b: string) {
    exists k :: 0 <= k <= |a| && k <= |b| && a[..k] == b[..k] && k < |b| && (k == |a| || (k < |a| && a[k] < b[k]))
  }

  lemma {:induction false} StrCmpOrders(a: string, b: string)
    ensures StrCmp(a, b) < 0 <==> Before(a, b)
  {
    if a != [] && b != [] && a[0] == b[0] {
      StrCmpOrders(a[1..], b[1..]);
      if Before(a[1..], b[1..]) {
        var k :| 0 <= k <= |a[1..]| && k <= |b[1..]| && a[1..][..k] == b[1..][..k] && k < |b[1..]|
                 && (k == |a[1..]| || (k < |a[1..]| && a[1..][k] < b[1..][k]));
        assert a[..k + 1] == [a[0]] + a[1..][..k] && b[..k + 1] == [b[0]] + b[1..][..k];
      }
      if Before(a, b) {
        var k :| 0 <= k <= |a| && k <= |b| && a[..k] == b[..k] && k < |b| && (k == |a| || (k < |a| && a[k] < b[k]));
        assert k > 0;
        assert a[1..][..k - 1] == a[..k][1..] && b[1..][..k - 1] == b[..k][1..];
      }
    } else if a != [] && b != [] {
      forall k | 0 < k <= |a| && k <= |b|
        ensures a[..k] != b[..k]
      {
        assert a[..k][0] == a[0] && b[..k][0] == b[0];
      }
      assert a[..0] == b[..0];
    } else {
      assert a[..0] == b[..0];
    }
  }

  function CompareByName(l: Symbol, r: Symbol): int {
    StrCmp(l.name, r.name)
  }

  function CompareByVal(l: Symbol, r: Symbol): int {
    if l.value > r.value then 1
    else if l.value < r.value then -1
    else CompareByName(l, r)
  }

  lemma ComparesOrder()
    ensures TotalPreorder(CompareByName) && TotalPreorder(CompareByVal)
  {
    forall l: Symbol, r: Symbol
      ensures CompareByName(l, r) < 0 <==> CompareByName(r, l) > 0
      ensures CompareByVal(l, r) < 0 <==> CompareByVal(r, l) > 0
    {
      StrCmpEqual(l.name, r.name);
    }
    forall a: Symbol, b: Symbol, c: Symbol | CompareByName(a, b) <= 0 && CompareByName(b, c) <= 0
      ensures CompareByName(a, c) <= 0
    {
      StrCmpTransitive(a.name, b.name, c.name);
    }
    forall a: Symbol, b: Symbol, c: Symbol | CompareByVal(a, b) <= 0 && CompareByVal(b, c) <= 0
      ensures CompareByVal(a, c) <= 0
    {
      if a.value == b.value == c.value {
        StrCmpTransitive(a.name, b.name, c.name);
      }
    }
  }

  // The index of the first symbol that is not before the name, whether or not there is one
  // of that name.
  method FindSymInfoByName(symbols: seq<Symbol>, name: string) returns (index: nat, found: bool)
    requires Sorted(symbols, CompareByName)
    ensures index <= |symbols|
    ensures forall i :: 0 <= i < index ==> StrCmp(symbols[i].name, name) < 0
    ensures forall i :: index <= i < |symbols| ==> StrCmp(symbols[i].name, name) >= 0
    ensures found <==> exists i :: 0 <= i < |symbols| && symbols[i].name == name
  {
    var lo, hi := 0, |symbols| - 1;
    found := false;
    while lo <= hi
      invariant 0 <= lo <= hi + 1 <= |symbols|
      invariant forall i :: 0 <= i < lo ==> StrCmp(symbols[i].name, name) < 0
      invariant forall i :: hi < i < |symbols| ==> StrCmp(symbols[i].name, name) >= 0
      invariant found <==> exists i :: hi < i < |symbols| && StrCmp(symbols[i].name, name) == 0
    {
      var cur := (lo + hi) / 2;
      var res := StrCmp(symbols[cur].name, name);
      NameOrder(symbols, name, cur);
      if res < 0 {
        lo := cur + 1;
      } else {
        hi := cur - 1;
        if res == 0 {
          found := true;
        }
      }
    }
    index := lo;
    SameName(symbols, name);
  }

  lemma SameName(symbols: seq<Symbol>, name: string)
    ensures forall i :: 0 <= i < |symbols| ==> (StrCmp(symbols[i].name, name) == 0 <==> symbols[i].name == name)
  {
    forall i | 0 <= i < |symbols|
      ensures StrCmp(symbols[i].name, name) == 0 <==> symbols[i].name == name
    {
      StrCmpEqual(symbols[i].name, name);
    }
  }

  // In a sorted collection the names before a smaller one are smaller, those after one
  // that is not are not, and if one of those is the name then so is the first.
  lemma NameOrder(symbols: seq<Symbol>, name: string, cur: nat)
    requires Sorted(symbols, CompareByName) && cur < |symbols|
    ensures StrCmp(symbols[cur].name, name) < 0 ==>
      forall i :: 0 <= i <= cur ==> StrCmp(symbols[i].name, name) < 0
    ensures StrCmp(symbols[cur].name, name) >= 0 ==>
      forall i :: cur <= i < |symbols| ==> StrCmp(symbols[i].name, name) >= 0
    ensures StrCmp(symbols[cur].name, name) > 0 ==>
      forall i :: cur <= i < |symbols| ==> StrCmp(symbols[i].name, name) > 0
  {
    var pivot := symbols[cur].name;
    forall i | 0 <= i < |symbols|
      ensures i <= cur && StrCmp(pivot, name) < 0 ==> StrCmp(symbols[i].name, name) < 0
      ensures i >= cur && StrCmp(pivot, name) >= 0 ==> StrCmp(symbols[i].name, name) >= 0
      ensures i >= cur && StrCmp(pivot, name) > 0 ==> StrCmp(symbols[i].name, name) > 0
    {
      var other := symbols[i].name;
      StrCmpEqual(pivot, name);
      StrCmpEqual(other, name);
      StrCmpEqual(other, pivot);
      if i < cur {
        assert CompareByName(symbols[i], symbols[cur]) <= 0;
        if StrCmp(other, name) >= 0 && StrCmp(pivot, name) < 0 {
          StrCmpTransitive(name, other, pivot);
          assert false;
        }
      } else if i > cur {
        assert CompareByName(symbols[cur], symbols[i]) <= 0;
        if StrCmp(other, name) <= 0 {
          StrCmpTransitive(pivot, other, name);
          if StrCmp(other, name) < 0 && StrCmp(pivot, name) == 0 {
            assert false;
          }
        }
      }
    }
  }

  // The symbols of a name, or none.
  method SymbolByName(symbols: seq<Symbol>, name: string) returns (result: seq<Symbol>)
    requires Sorted(symbols, CompareByName)
    ensures result == Select(symbols, (s: Symbol) => s.name == name)
  {
    hide Sorted;
    var index, found := FindSymInfoByName(symbols, name);
    SameName(symbols, name);
    if !found {
      SelectNone(symbols, (s: Symbol) => s.name == name);
      return [];
    }
    NameOrder(symbols, name, index);
    var count := 1;
    while index + count < |symbols| && StrCmp(symbols[index + count].name, name) == 0
      invariant 1 <= count && index + count <= |symbols|
      invariant forall i :: index <= i < index + count ==> symbols[i].name == name
    {
      count := count + 1;
    }
    if index + count < |symbols| {
      NameOrder(symbols, name, index + count);
    }
    SelectSlice(symbols, (s: Symbol) => s.name == name, index, index + count);
    result := [];
    for i := 0 to count
      invariant result == symbols[index..index + i]
    {
      result := result + [symbols[index + i]];
    }
  }

  // The index of the first symbol that is not below the value.
  method FindSymInfoByValue(symbols: seq<Symbol>, value: int) returns (index: nat, found: bool)
    requires Sorted(symbols, CompareByVal)
    ensures index <= |symbols|
    ensures forall i :: 0 <= i < index ==> symbols[i].value < value
    ensures forall i :: index <= i < |symbols| ==> symbols[i].value >= value
    ensures found <==> exists i :: 0 <= i < |symbols| && symbols[i].value == value
  {
    ValueOrder(symbols);
    var lo, hi := 0, |symbols| - 1;
    found := false;
    while lo <= hi
      invariant 0 <= lo <= hi + 1 <= |symbols|
      invariant forall i :: 0 <= i < lo ==> symbols[i].value < value
      invariant forall i :: hi < i < |symbols| ==> symbols[i].value >= value
      invariant found <==> exists i :: hi < i < |symbols| && symbols[i].value == value
    {
      var cur := (lo + hi) / 2;
      if value > symbols[cur].value {
        lo := cur + 1;
      } else {
        hi := cur - 1;
        if value == symbols[cur].value {
          found := true;
        }
      }
    }
    index := lo;
  }

  lemma ValueOrder(symbols: seq<Symbol>)
    requires Sorted(symbols, CompareByVal)
    ensures forall i, j :: 0 <= i < j < |symbols| ==> symbols[i].value <= symbols[j].value
  {
    forall i, j | 0 <= i < j < |symbols|
      ensures symbols[i].value <= symbols[j].value
    {
      assert CompareByVal(symbols[i], symbols[j]) <= 0;
    }
  }

  predicate LabelIn(s: Symbol, start: int, end: int) {
    s.isLabel && start <= s.value <= end
  }

  // The labels from one value to another, or none.
  method SymbolInRange(symbols: seq<Symbol>, start: int, end: int) returns (result: seq<Symbol>)
    requires Sorted(symbols, CompareByVal)
    ensures result == Select(symbols, (s: Symbol) => LabelIn(s, start, end))
  {
    hide StrCmp, Sorted;
    ghost var labels := (s: Symbol) => LabelIn(s, start, end);
    var index, _ := FindSymInfoByValue(symbols, start);
    ValueOrder(symbols);
    result := [];
    SelectNone(symbols[..index], labels);
    var i := index;
    while i < |symbols|
      invariant index <= i <= |symbols|
      invariant result == Select(symbols[..i], labels)
    {
      if symbols[i].value > end {
        SelectRest(symbols, i, labels);
        return;
      }
      assert symbols[..i + 1][..i] == symbols[..i];
      if symbols[i].isLabel {
        result := result + [symbols[i]];
      }
      i := i + 1;
    }
    assert symbols[..i] == symbols;
  }

  lemma {:induction false} SelectRest(symbols: seq<Symbol>, n: nat, p: Symbol -> bool)
    requires n <= |symbols| && forall i :: n <= i < |symbols| ==> !p(symbols[i])
    ensures Select(symbols, p) == Select(symbols[..n], p)
    decreases |symbols|
  {
    if n < |symbols| {
      SelectRest(symbols[..|symbols| - 1], n, p);
      assert symbols[..|symbols| - 1][..n] == symbols[..n];
    } else {
      assert symbols[..n] == symbols;
    }
  }

  // By value, those of one value by name.
  ghost predicate ByValue(symbols: seq<Symbol>) {
    forall i, j :: 0 <= i < j < |symbols| ==>
      symbols[i].value < symbols[j].value
      || (symbols[i].value == symbols[j].value && !Before(symbols[j].name, symbols[i].name))
  }

  lemma SortedByValue(symbols: seq<Symbol>)
    requires Sorted(symbols, CompareByVal)
    ensures ByValue(symbols)
  {
    hide StrCmp, Before;
    forall i, j | 0 <= i < j < |symbols|
      ensures symbols[i].value < symbols[j].value
              || (symbols[i].value == symbols[j].value && !Before(symbols[j].name, symbols[i].name))
    {
      assert CompareByVal(symbols[i], symbols[j]) <= 0;
      StrCmpEqual(symbols[i].name, symbols[j].name);
      StrCmpOrders(symbols[j].name, symbols[i].name);
    }
  }

  // Sorting once answers both questions for all the symbols there are.
  method SortAndFind(byName: array<Symbol>, byVal: array<Symbol>, name: string, start: int, end: int)
    returns (named: seq<Symbol>, labels: seq<Symbol>)
    requires byName != byVal
    modifies byName, byVal
    ensures multiset(named) == multiset(Select(old(byName[..]), (s: Symbol) => s.name == name))
    ensures multiset(labels) == multiset(Select(old(byVal[..]), (s: Symbol) => LabelIn(s, start, end)))
    ensures ByValue(labels)
  {
    ComparesOrder();
    Sort(byName, CompareByName);
    named := SymbolByName(byName[..], name);
    SelectIsExact(old(byName[..]), byName[..], (s: Symbol) => s.name == name, CompareByName);
    Sort(byVal, CompareByVal);
    labels := SymbolInRange(byVal[..], start, end);
    SelectIsExact(old(byVal[..]), byVal[..], (s: Symbol) => LabelIn(s, start, end), CompareByVal);
    SortedByValue(labels);
  }
}

// The index from addresses to the spans that cover them.
module SpanIndex {
  import opened CollectionSort
  import opened Words

  // A span of addresses, the last one included.
  datatype Span = Span(id: nat, segId: nat, start: nat, end: nat) {
    predicate Covers(addr: int) {
      start <= addr <= end
    }

    // Its addresses fit below the last one of the address space; it may have none.
    predicate Fits() {
      start <= end + 1 < WORD32
    }
  }

  function CompareByAddr(l: Span, r: Span): int {
    if l.start > r.start then 1
    else if l.start < r.start then -1
    else if l.end > r.end then 1
    else if l.end < r.end then -1
    else 0
  }

  lemma CompareByAddrOrders()
    ensures TotalPreorder(CompareByAddr)
  {
  }

  // The spans by ascending start address.
  ghost predicate Ready(spans: seq<Span>) {
    && (forall i :: 0 <= i < |spans| ==> spans[i].Fits())
    && (forall i, j :: 0 <= i < j < |spans| ==> spans[i].start <= spans[j].start)
  }

  // What the index has to say: the first n spans that cover an address, in order.
  function Covering(spans: seq<Span>, n: nat, addr: int): (found: seq<Span>)
    requires n <= |spans|
  {
    if n == 0 then []
    else Covering(spans, n - 1, addr) + if spans[n - 1].Covers(addr) then [spans[n - 1]] else []
  }

  // The last address of the first n spans.
  function Reach(spans: seq<Span>, n: nat): int
    requires 1 <= n <= |spans|
  {
    if n == 1 then spans[0].end
    else if spans[n - 1].end > Reach(spans, n - 1) then spans[n - 1].end
    else Reach(spans, n - 1)
  }

  function Range(from: int, to: int): (r: seq<int>)
    ensures |r| == if from < to then to - from else 0
    ensures forall k :: 0 <= k < |r| ==> r[k] == from + k
  {
    seq(if from < to then to - from else 0, k => from + k)
  }

  // The addresses the n-th span adds to those before it start here.
  function Fresh(spans: seq<Span>, n: nat): int
    requires n < |spans|
  {
    if n > 0 && spans[n].start <= Reach(spans, n) then Reach(spans, n) + 1 else spans[n].start
  }

  // The addresses of the first n spans, each once and in ascending order.
  ghost function Addrs(spans: seq<Span>, n: nat): seq<int>
    requires n <= |spans|
  {
    if n == 0 then [] else Addrs(spans, n - 1) + Range(Fresh(spans, n - 1), spans[n - 1].end + 1)
  }

  // Where the addresses of a span start among all of them.
  ghost function Pos(spans: seq<Span>, i: nat): int
    requires i < |spans|
  {
    if i == 0 then 0
    else if spans[i].start <= Reach(spans, i) then Pos(spans, i - 1) + spans[i].start - spans[i - 1].start
    else Pos(spans, i - 1) + Reach(spans, i) - spans[i - 1].start + 1
  }

  ghost predicate InARow(s: seq<int>, from: int, start: int) {
    forall j :: 0 <= from <= j < |s| ==> s[j] == start + j - from
  }

  ghost predicate Ascending(s: seq<int>) {
    forall j, k :: 0 <= j < k < |s| ==> s[j] < s[k]
  }

  // The addresses from a span's start to the last one so far stand in a row.
  lemma {:induction false} Placed(spans: seq<Span>, i: nat)
    requires Ready(spans) && i < |spans|
    ensures Pos(spans, i) >= 0 && Reach(spans, i + 1) >= spans[i].end
    ensures |Addrs(spans, i + 1)| == Pos(spans, i) + Reach(spans, i + 1) - spans[i].start + 1
    ensures InARow(Addrs(spans, i + 1), Pos(spans, i), spans[i].start)
  {
    if i > 0 {
      Placed(spans, i - 1);
      assert spans[i - 1].start <= spans[i].start;
    }
  }

  lemma {:induction false} AddrsAscend(spans: seq<Span>, n: nat)
    requires Ready(spans) && n <= |spans|
    ensures Ascending(Addrs(spans, n))
    ensures forall a :: a in Addrs(spans, n) ==> 0 <= a <= Reach(spans, n) < WORD32 - 1
  {
    if n > 0 {
      AddrsAscend(spans, n - 1);
      var before := Addrs(spans, n - 1);
      assert forall j :: 0 <= j < |before| ==> before[j] in before;
    }
  }

  // An address is in the table just when some span covers it.
  lemma {:induction false} AddrsCovered(spans: seq<Span>, n: nat, addr: int)
    requires Ready(spans) && n <= |spans|
    ensures addr in Addrs(spans, n) <==> Covering(spans, n, addr) != []
  {
    if n > 0 {
      AddrsCovered(spans, n - 1, addr);
      var S := spans[n - 1];
      if n > 1 && S.start <= addr <= Reach(spans, n - 1) {
        Reached(spans, n - 1, S.start, addr);
      }
      assert addr in Range(Fresh(spans, n - 1), S.end + 1) <==> Fresh(spans, n - 1) <= addr <= S.end by {
        if Fresh(spans, n - 1) <= addr <= S.end {
          assert Range(Fresh(spans, n - 1), S.end + 1)[addr - Fresh(spans, n - 1)] == addr;
        }
      }
    }
  }

  // Up to the last address so far there is no gap after the last start.
  lemma {:induction false} Reached(spans: seq<Span>, n: nat, from: int, addr: int)
    requires Ready(spans) && 1 <= n <= |spans| && spans[n - 1].start <= from <= addr <= Reach(spans, n)
    ensures Covering(spans, n, addr) != []
  {
    if addr > spans[n - 1].end {
      assert spans[n - 2].start <= spans[n - 1].start;
      Reached(spans, n - 1, from, addr);
    }
  }

  lemma {:induction false} AddrsGrow(spans: seq<Span>, i: nat, n: nat)
    requires i <= n <= |spans|
    ensures Addrs(spans, i) <= Addrs(spans, n)
  {
    if i < n {
      AddrsGrow(spans, i, n - 1);
    }
  }

  lemma StretchFits(spans: seq<Span>, i: nat)
    requires Ready(spans) && i < |spans|
    ensures 0 <= Pos(spans, i) && Pos(spans, i) + spans[i].end - spans[i].start < |Addrs(spans, |spans|)|
  {
    Placed(spans, i);
    AddrsGrow(spans, i + 1, |spans|);
  }

  // A span covers just the addresses in its stretch of the table.
  lemma Stretch(spans: seq<Span>, i: nat, j: nat)
    requires Ready(spans) && i < |spans| && j < |Addrs(spans, |spans|)|
    ensures spans[i].Covers(Addrs(spans, |spans|)[j]) <==>
            Pos(spans, i) <= j <= Pos(spans, i) + spans[i].end - spans[i].start
    ensures spans[i].Covers(Addrs(spans, |spans|)[j]) ==>
            Addrs(spans, |spans|)[j] == spans[i].start + j - Pos(spans, i)
  {
    hide Addrs, Pos, Reach, Ready, Covering;
    var all, some := Addrs(spans, |spans|), Addrs(spans, i + 1);
    Placed(spans, i);
    AddrsGrow(spans, i + 1, |spans|);
    AddrsAscend(spans, |spans|);
    var p := Pos(spans, i);
    assert forall k :: 0 <= k < |some| ==> all[k] == some[k];
    if spans[i].start <= spans[i].end {
      assert all[p] == spans[i].start;
      var q := p + spans[i].end - spans[i].start;
      assert all[q] == spans[i].end;
      assert j < p ==> all[j] < all[p];
      assert j > q ==> all[j] > all[q];
    }
  }

  // One address of the index: while it is built a count, in the end the only span that
  // covers the address or a table of all of them.
  datatype Data = Nothing | Direct(span: Span) | Table(size: nat, spans: seq<Span>)
  datatype Entry = Entry(addr: int, count: nat, data: Data)

  // The number of different addresses.
  method CountAddrs(spans: seq<Span>) returns (count: nat)
    requires Ready(spans) && spans != []
    ensures count == |Addrs(spans, |spans|)|
  {
    hide Ready;
    FitsAt(spans, 0);
    count := spans[0].end - spans[0].start + 1;
    var end: int := spans[0].end;
    var i := 1;
    while i < |spans|
      invariant 1 <= i <= |spans| && end == Reach(spans, i) && count == |Addrs(spans, i)|
    {
      var S := spans[i];
      FitsAt(spans, i);
      if S.start > end {
        count := count + S.end - S.start + 1;
        end := S.end;
      } else if S.end > end {
        count := count + S.end - end;
        end := S.end;
      }
      i := i + 1;
    }
  }

  lemma FitsAt(spans: seq<Span>, i: nat)
    requires Ready(spans) && i < |spans|
    ensures spans[i].Fits()
  {
  }

  // After the first n spans were counted.
  ghost predicate Tallied(spans: seq<Span>, n: nat, addr: int, e: Entry)
    requires n <= |spans|
  {
    e.data == Nothing && e.count == |Covering(spans, n, addr)| && (e.count > 0 ==> e.addr == addr)
  }

  // After the first n spans were entered.
  ghost predicate Filled(spans: seq<Span>, n: nat, addr: int, e: Entry)
    requires n <= |spans|
  {
    var all, some := Covering(spans, |spans|, addr), Covering(spans, n, addr);
    e.addr == addr &&
    if |all| == 1 then e.count == 1 && e.data == if some == [] then Nothing else Direct(some[0])
    else |all| > 1 && e.count == |some| && e.data == Table(|all|, some)
  }

  ghost predicate AllTallied(spans: seq<Span>, n: nat, list: seq<Entry>)
    requires n <= |spans|
  {
    var addrs := Addrs(spans, |spans|);
    |list| == |addrs| && forall j :: 0 <= j < |list| ==> Tallied(spans, n, addrs[j], list[j])
  }

  ghost predicate AllFilled(spans: seq<Span>, n: nat, list: seq<Entry>)
    requires n <= |spans|
  {
    var addrs := Addrs(spans, |spans|);
    |list| == |addrs| && forall j :: 0 <= j < |list| ==> Filled(spans, n, addrs[j], list[j])
  }

  // Counts one span, at each of its addresses.
  method CountSpan(list: array<Entry>, spans: seq<Span>, ghost i: nat, S: Span, startIndex: nat)
    requires Ready(spans) && i < |spans| && S == spans[i] && startIndex == Pos(spans, i)
    requires AllTallied(spans, i, list[..])
    modifies list
    ensures AllTallied(spans, i + 1, list[..])
  {
    hide Ready, Addrs, Pos;
    FitsAt(spans, i);
    ghost var addrs := Addrs(spans, |spans|);
    forall k | 0 <= k < |addrs|
      ensures S.Covers(addrs[k]) <==> startIndex <= k <= startIndex + S.end - S.start
      ensures S.Covers(addrs[k]) ==> addrs[k] == S.start + k - startIndex
    {
      Stretch(spans, i, k);
    }
    StretchFits(spans, i);
    var j, addr := startIndex, S.start;
    while addr <= S.end
      invariant addr == S.start + j - startIndex && startIndex <= j && addr <= S.end + 1
      invariant list.Length == |addrs|
      invariant forall k :: 0 <= k < list.Length ==>
        Tallied(spans, if startIndex <= k < j then i + 1 else i, addrs[k], list[k])
    {
      list[j] := list[j].(addr := addr, count := list[j].count + 1);
      j, addr := j + 1, addr + 1;
    }
  }

  // Enters one span, at each of its addresses.
  method EnterSpan(list: array<Entry>, spans: seq<Span>, ghost i: nat, S: Span, startIndex: nat)
    requires Ready(spans) && i < |spans| && S == spans[i] && startIndex == Pos(spans, i)
    requires AllFilled(spans, i, list[..])
    modifies list
    ensures AllFilled(spans, i + 1, list[..])
  {
    hide Ready, Addrs, Pos, Filled;
    FitsAt(spans, i);
    ghost var addrs := Addrs(spans, |spans|);
    forall k | 0 <= k < |addrs|
      ensures S.Covers(addrs[k]) <==> startIndex <= k <= startIndex + S.end - S.start
      ensures S.Covers(addrs[k]) ==> addrs[k] == S.start + k - startIndex
    {
      Stretch(spans, i, k);
    }
    StretchFits(spans, i);
    var j, addr := startIndex, S.start;
    while addr <= S.end
      invariant addr == S.start + j - startIndex && startIndex <= j && addr <= S.end + 1
      invariant list.Length == |addrs|
      invariant forall k :: 0 <= k < list.Length ==>
        Filled(spans, if startIndex <= k < j then i + 1 else i, addrs[k], list[k])
    {
      NextFilled(spans, i, addr, list[j]);
      var e := list[j];
      if e.count == 1 && e.data == Nothing {
        list[j] := e.(data := Direct(S));
      } else {
        list[j] := e.(data := e.data.(spans := e.data.spans + [S]), count := e.count + 1);
      }
      j, addr := j + 1, addr + 1;
    }
    forall k | 0 <= k < list.Length && !(startIndex <= k < j)
      ensures Filled(spans, i + 1, addrs[k], list[k])
    {
      StillFilled(spans, i, addrs[k], list[k]);
    }
  }

  lemma {:induction false} CoveringGrows(spans: seq<Span>, i: nat, n: nat, addr: int)
    requires i <= n <= |spans|
    ensures Covering(spans, i, addr) <= Covering(spans, n, addr)
  {
    if i < n {
      CoveringGrows(spans, i, n - 1, addr);
    }
  }

  // There is room for a span that covers the address.
  lemma NextFilled(spans: seq<Span>, i: nat, addr: int, e: Entry)
    requires i < |spans| && spans[i].Covers(addr) && Filled(spans, i, addr, e)
    ensures e.count == 1 && e.data == Nothing ==> Filled(spans, i + 1, addr, e.(data := Direct(spans[i])))
    ensures !(e.count == 1 && e.data == Nothing) ==> e.data.Table? && |e.data.spans| < e.data.size
    ensures !(e.count == 1 && e.data == Nothing) ==>
      Filled(spans, i + 1, addr, e.(data := e.data.(spans := e.data.spans + [spans[i]]), count := e.count + 1))
  {
    CoveringGrows(spans, i + 1, |spans|, addr);
  }

  lemma StillFilled(spans: seq<Span>, i: nat, addr: int, e: Entry)
    requires i < |spans| && !spans[i].Covers(addr) && Filled(spans, i, addr, e)
    ensures Filled(spans, i + 1, addr, e)
  {
  }

  // Where the next span starts in the index, given the last span and the last address.
  method NextIndex(spans: seq<Span>, i: nat, startIndex: int, start: int, end: int)
    returns (nextIndex: nat, nextEnd: int)
    requires Ready(spans) && 1 <= i < |spans|
    requires startIndex == Pos(spans, i - 1) && start == spans[i - 1].start && end == Reach(spans, i)
    ensures nextIndex == Pos(spans, i) && nextEnd == Reach(spans, i + 1)
  {
    Placed(spans, i);
    FitsAt(spans, i);
    nextEnd := end;
    if spans[i].start <= end {
      nextIndex := startIndex + spans[i].start - start;
      if spans[i].end > end {
        nextEnd := spans[i].end;
      }
    } else {
      nextIndex := startIndex + end - start + 1;
      nextEnd := spans[i].end;
    }
  }

  method CountSpans(list: array<Entry>, spans: seq<Span>)
    requires Ready(spans) && spans != [] && AllTallied(spans, 0, list[..])
    modifies list
    ensures AllTallied(spans, |spans|, list[..])
  {
    hide Ready, Addrs, Pos, Reach, Tallied;
    First(spans);
    var startIndex, start, end := 0, spans[0].start, spans[0].end;
    CountSpan(list, spans, 0, spans[0], startIndex);
    var i := 1;
    while i < |spans|
      invariant 1 <= i <= |spans| && AllTallied(spans, i, list[..])
      invariant startIndex == Pos(spans, i - 1) && start == spans[i - 1].start && end == Reach(spans, i)
    {
      startIndex, end := NextIndex(spans, i, startIndex, start, end);
      start := spans[i].start;
      CountSpan(list, spans, i, spans[i], startIndex);
      i := i + 1;
    }
  }

  lemma First(spans: seq<Span>)
    requires spans != []
    ensures Pos(spans, 0) == 0 && Reach(spans, 1) == spans[0].end
  {
  }

  method EnterSpans(list: array<Entry>, spans: seq<Span>)
    requires Ready(spans) && spans != [] && AllFilled(spans, 0, list[..])
    modifies list
    ensures AllFilled(spans, |spans|, list[..])
  {
    hide Ready, Addrs, Pos, Reach, Filled;
    First(spans);
    var startIndex, start, end := 0, spans[0].start, spans[0].end;
    EnterSpan(list, spans, 0, spans[0], startIndex);
    var i := 1;
    while i < |spans|
      invariant 1 <= i <= |spans| && AllFilled(spans, i, list[..])
      invariant startIndex == Pos(spans, i - 1) && start == spans[i - 1].start && end == Reach(spans, i)
    {
      startIndex, end := NextIndex(spans, i, startIndex, start, end);
      start := spans[i].start;
      EnterSpan(list, spans, i, spans[i], startIndex);
      i := i + 1;
    }
  }

  // An address that several spans cover gets a table for them, to be counted into again.
  method AllocateTables(list: array<Entry>, ghost spans: seq<Span>)
    requires Ready(spans) && AllTallied(spans, |spans|, list[..])
    modifies list
    ensures AllFilled(spans, 0, list[..])
  {
    hide Ready, Addrs, Tallied, Filled;
    ghost var addrs := Addrs(spans, |spans|);
    var i := 0;
    while i < list.Length
      invariant 0 <= i <= list.Length == |addrs|
      invariant forall j :: 0 <= j < i ==> Filled(spans, 0, addrs[j], list[j])
      invariant forall j :: i <= j < |addrs| ==> Tallied(spans, |spans|, addrs[j], list[j])
    {
      assert addrs[i] in addrs;
      TalliedIsReady(spans, addrs[i], list[i]);
      if list[i].count > 1 {
        list[i] := list[i].(data := Table(list[i].count, []), count := 0);
      }
      i := i + 1;
    }
  }

  lemma TalliedIsReady(spans: seq<Span>, addr: int, e: Entry)
    requires Ready(spans) && addr in Addrs(spans, |spans|) && Tallied(spans, |spans|, addr, e)
    ensures e.count > 1 ==> Filled(spans, 0, addr, e.(data := Table(e.count, []), count := 0))
    ensures e.count <= 1 ==> Filled(spans, 0, addr, e)
  {
    AddrsCovered(spans, |spans|, addr);
  }

  method CreateSpanInfoList(spans: seq<Span>) returns (list: array<Entry>)
    requires Ready(spans)
    ensures fresh(list) && AllFilled(spans, |spans|, list[..])
  {
    if spans == [] {
      list := new Entry[0];
      return;
    }
    var count := CountAddrs(spans);
    list := new Entry[count](i => Entry(0, 0, Nothing));
    CountSpans(list, spans);
    AllocateTables(list, spans);
    EnterSpans(list, spans);
  }

  lemma {:induction false} AscendingSize(s: seq<int>)
    requires Ascending(s)
    ensures |set a | a in s| == |s|
  {
    if s != [] {
      var n := |s| - 1;
      AscendingSize(s[..n]);
      assert (set a | a in s) == (set a | a in s[..n]) + {s[n]};
    }
  }

  ghost function Union(spans: seq<Span>): set<int> {
    set a: int | 0 <= a < WORD32 && Covering(spans, |spans|, a) != []
  }

  // The index has one entry for each covered address, by ascending address.
  lemma {:induction false} IndexIsUnion(spans: seq<Span>, list: seq<Entry>)
    requires Ready(spans) && AllFilled(spans, |spans|, list)
    ensures forall j, k :: 0 <= j < k < |list| ==> list[j].addr < list[k].addr
    ensures |list| == |Union(spans)|
  {
    var addrs := Addrs(spans, |spans|);
    AddrsAscend(spans, |spans|);
    AscendingSize(addrs);
    forall a
      ensures a in addrs <==> a in Union(spans)
    {
      AddrsCovered(spans, |spans|, a);
    }
    assert (set a | a in addrs) == Union(spans);
    assert forall j :: 0 <= j < |list| ==> list[j].addr == addrs[j];
  }

  // The entry for an address, if there is one.
  method FindSpanInfoByAddr(list: array<Entry>, addr: int, ghost spans: seq<Span>) returns (found: int)
    requires Ready(spans) && AllFilled(spans, |spans|, list[..])
    ensures -1 <= found < list.Length
    ensures found >= 0 ==> Filled(spans, |spans|, addr, list[found])
    ensures found >= 0 <==> Covering(spans, |spans|, addr) != []
  {
    hide Ready, Addrs, Covering;
    ghost var addrs := Addrs(spans, |spans|);
    AddrsAscend(spans, |spans|);
    AddrsCovered(spans, |spans|, addr);
    var lo, hi := 0, list.Length - 1;
    while lo <= hi
      invariant 0 <= lo <= hi + 1 <= list.Length
      invariant forall j :: 0 <= j < lo ==> addrs[j] < addr
      invariant forall j :: hi < j < |addrs| ==> addrs[j] > addr
    {
      var cur := (lo + hi) / 2;
      assert list[cur].addr == addrs[cur];
      if list[cur].addr > addr {
        hi := cur - 1;
      } else if list[cur].addr < addr {
        lo := cur + 1;
      } else {
        return cur;
      }
    }
    return -1;
  }

  // The spans that cover an address, which is cut to the width of the index first.
  method SpanByAddr(list: array<Entry>, addr: nat, ghost spans: seq<Span>) returns (found: seq<Span>)
    requires Ready(spans) && AllFilled(spans, |spans|, list[..])
    ensures found == Covering(spans, |spans|, addr % WORD32)
  {
    var e := FindSpanInfoByAddr(list, addr % WORD32, spans);
    if e < 0 {
      return [];
    }
    var entry := list[e];
    if entry.count == 1 {
      found := [entry.data.span];
    } else {
      found := [];
      for i := 0 to entry.count
        invariant found == entry.data.spans[..i]
      {
        found := found + [entry.data.spans[i]];
      }
    }
  }

  // A span relative to its segment, moved to where the segment starts.
  function Relocated(span: Span, segStarts: seq<nat>): Span {
    if span.segId >= |segStarts| then span
    else
      var base := segStarts[span.segId];
      span.(start := (span.start + base) % WORD32, end := (span.end + base) % WORD32)
  }

  // What that comes to.
  ghost predicate IsMoved(was: Span, now: Span, segStarts: seq<nat>) {
    && now.id == was.id && now.segId == was.segId
    && if was.segId >= |segStarts| then now.start == was.start && now.end == was.end
       else
         && now.start == (was.start + segStarts[was.segId]) % 0x1_0000_0000
         && now.end == (was.end + segStarts[was.segId]) % 0x1_0000_0000
  }

  ghost predicate FitsAfterwards(span: Span, segStarts: seq<nat>) {
    forall now: Span :: IsMoved(span, now, segStarts) ==> now.start <= now.end + 1 < 0x1_0000_0000
  }

  lemma Moves(span: Span, segStarts: seq<nat>)
    ensures IsMoved(span, Relocated(span, segStarts), segStarts)
    ensures FitsAfterwards(span, segStarts) ==> Relocated(span, segStarts).Fits()
  {
    assert IsMoved(span, Relocated(span, segStarts), segStarts);
  }

  // By start, those that start together by end.
  ghost predicate ByAddress(spans: seq<Span>) {
    forall i, j :: 0 <= i < j < |spans| ==>
      spans[i].start < spans[j].start || (spans[i].start == spans[j].start && spans[i].end <= spans[j].end)
  }

  lemma SortedByAddress(spans: seq<Span>)
    requires Sorted(spans, CompareByAddr)
    ensures ByAddress(spans)
  {
    forall i, j | 0 <= i < j < |spans|
      ensures spans[i].start < spans[j].start || (spans[i].start == spans[j].start && spans[i].end <= spans[j].end)
    {
      assert CompareByAddr(spans[i], spans[j]) <= 0;
    }
  }

  lemma {:induction false} CoveringSelects(spans: seq<Span>, n: nat, addr: int)
    requires n <= |spans|
    ensures Covering(spans, n, addr) == Select(spans[..n], (s: Span) => s.Covers(addr))
  {
    if n > 0 {
      CoveringSelects(spans, n - 1, addr);
      assert spans[..n][..n - 1] == spans[..n - 1];
    }
  }

  // The spans found do not depend on the order the spans were sorted from.
  lemma CoveringIsExact(spans: seq<Span>, sorted: seq<Span>, addr: int)
    requires multiset(spans) == multiset(sorted) && Sorted(sorted, CompareByAddr)
    ensures multiset(Covering(sorted, |sorted|, addr)) == multiset(Covering(spans, |spans|, addr))
    ensures Sorted(Covering(sorted, |sorted|, addr), CompareByAddr)
  {
    var covers := (s: Span) => s.Covers(addr);
    CoveringSelects(spans, |spans|, addr);
    CoveringSelects(sorted, |sorted|, addr);
    assert spans[..|spans|] == spans && sorted[..|sorted|] == sorted;
    assert Covering(spans, |spans|, addr) == Select(spans, covers);
    SelectIsExact(spans, sorted, covers, CompareByAddr);
  }

  lemma NoneCovers(spans: seq<Span>, addr: int)
    ensures Covering(spans, |spans|, addr) == [] <==> forall i :: 0 <= i < |spans| ==> !spans[i].Covers(addr)
  {
    CoveringSelects(spans, |spans|, addr);
    assert spans[..|spans|] == spans;
    SelectNone(spans, (s: Span) => s.Covers(addr));
  }

  lemma SortedIsReady(spans: seq<Span>, sorted: seq<Span>)
    requires multiset(spans) == multiset(sorted) && Sorted(sorted, CompareByAddr)
    requires forall i :: 0 <= i < |spans| ==> spans[i].Fits()
    ensures Ready(sorted)
  {
    forall i | 0 <= i < |sorted|
      ensures sorted[i].Fits()
    {
      assert sorted[i] in multiset(sorted);
      assert sorted[i] in spans;
    }
    assert forall i, j :: 0 <= i < j < |sorted| ==> CompareByAddr(sorted[i], sorted[j]) <= 0;
  }

  // Moves the spans to their segments, sorts them and makes the index.
  method ProcessSpanInfo(byId: array<Span>, segStarts: seq<nat>)
    returns (list: array<Entry>, errors: nat, ghost sorted: seq<Span>)
    requires forall i :: 0 <= i < byId.Length ==> FitsAfterwards(byId[i], segStarts)
    modifies byId
    ensures forall i :: 0 <= i < byId.Length ==> IsMoved(old(byId[i]), byId[i], segStarts)
    ensures errors == 0 <==> forall i :: 0 <= i < byId.Length ==> old(byId[i]).segId < |segStarts|
    ensures multiset(sorted) == multiset(byId[..]) && Ready(sorted) && Sorted(sorted, CompareByAddr)
    ensures fresh(list) && AllFilled(sorted, |sorted|, list[..])
  {
    var byAddr: array<Span> := new Span[byId.Length](_ => Span(0, 0, 0, 0));
    var i := 0;
    errors := 0;
    while i < byId.Length
      invariant 0 <= i <= byId.Length
      invariant forall j :: 0 <= j < i ==> byId[j] == byAddr[j] && byId[j].Fits()
      invariant forall j :: 0 <= j < i ==> IsMoved(old(byId[j]), byId[j], segStarts)
      invariant forall j :: i <= j < byId.Length ==> byId[j] == old(byId[j])
      invariant errors == 0 <==> forall j :: 0 <= j < i ==> old(byId[j]).segId < |segStarts|
    {
      Moves(byId[i], segStarts);
      if byId[i].segId >= |segStarts| {
        errors := errors + 1;
      }
      byId[i] := Relocated(byId[i], segStarts);
      byAddr[i] := byId[i];
      i := i + 1;
    }
    assert byAddr[..] == byId[..];
    CompareByAddrOrders();
    Sort(byAddr, CompareByAddr);
    sorted := byAddr[..];
    SortedIsReady(byId[..], sorted);
    list := CreateSpanInfoList(byAddr[..]);
  }

  // From the spans of a file to those that cover an address: just these are found, in the
  // order of their addresses.
  method FindSpans(byId: array<Span>, segStarts: seq<nat>, addr: nat) returns (found: seq<Span>)
    requires forall i :: 0 <= i < byId.Length ==> FitsAfterwards(byId[i], segStarts)
    modifies byId
    ensures forall i :: 0 <= i < byId.Length ==> IsMoved(old(byId[i]), byId[i], segStarts)
    ensures ByAddress(found)
    ensures multiset(found) == multiset(Covering(byId[..], byId.Length, addr % WORD32))
    ensures found == [] <==> forall i :: 0 <= i < byId.Length ==> !byId[i].Covers(addr % WORD32)
  {
    var list, errors;
    ghost var sorted;
    list, errors, sorted := ProcessSpanInfo(byId, segStarts);
    found := SpanByAddr(list, addr, sorted);
    hide IsMoved, FitsAfterwards, ByAddress, Ready, AllFilled, Sorted, Covering;
    CoveringIsExact(byId[..], sorted, addr % WORD32);
    SortedByAddress(found);
    SameSize(found, Covering(byId[..], byId.Length, addr % WORD32));
    NoneCovers(byId[..], addr % WORD32);
  }
}

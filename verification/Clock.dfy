// The clock scheduler: derived clocks kept in a list sorted by the nanoseconds left of
// their current phase, advanced by half a period of the main clock at a time.
module ClockScheduler {
  import opened Division
  import opened IntrusiveList
  import opened Optional

  const NS_PER_SECOND := 1_000_000_000
  const MAX_FREQUENCY := 1_000_000_000

  // A clock is configured by its frequency in hertz or by its period in nanoseconds.
  datatype Timing = Freq(hz: nat) | Period(ns: nat)

  // The period of a configuration, or nothing for one that is refused.
  function PeriodOf(t: Timing): (period: Option<nat>) {
    match t
    case Period(ns) => if ns == 0 then None else Some(ns)
    case Freq(hz) => if hz == 0 || hz > MAX_FREQUENCY then None else Some((NS_PER_SECOND + hz / 2) / hz)
  }

  // A period of nought and frequencies of nought or above a gigahertz are refused; the period of
  // any other frequency is the nearest whole number of nanoseconds, halves rounded up.
  lemma PeriodIsNearest(t: Timing)
    ensures PeriodOf(t).Some? <==> match t case Period(ns) => ns > 0 case Freq(hz) => 0 < hz <= 1_000_000_000
    ensures PeriodOf(t).Some? ==> PeriodOf(t).value > 0 && HasTiming(PeriodOf(t).value, t)
  {
    if t.Freq? && 0 < t.hz <= MAX_FREQUENCY {
      Floor(NS_PER_SECOND + t.hz / 2, t.hz);
    }
  }

  // A period is the one asked for, or the nearest one to the frequency asked for.
  predicate HasTiming(p: nat, t: Timing) {
    match t
    case Period(ns) => p == ns
    case Freq(hz) => 2_000_000_000 - hz < 2 * (p * hz) <= 2_000_000_000 + hz
  }

  class Clk {
    const period: nat
    var ticks: int
    var curPhase: bool
    // How often each edge has been reported to the clock's callbacks.
    ghost var posEdges: nat
    ghost var negEdges: nat

    constructor (period: nat)
      ensures this.period == period && ticks == period / 2 && !curPhase && posEdges == 0 && negEdges == 0
    {
      this.period := period;
      ticks, curPhase := period / 2, false;
      posEdges, negEdges := 0, 0;
    }

    // The length of the phase that starts with the next edge.
    function NextPhase(): nat
      reads this
    {
      if curPhase then period / 2 else period - period / 2
    }

    ghost predicate Valid()
      reads this
    {
      && period >= 1
      && 0 <= ticks <= (if curPhase then period - period / 2 else period / 2)
      && posEdges == negEdges + if curPhase then 1 else 0
    }

    // No edge is due, but for the low phase of a clock of one nanosecond, which takes no time.
    predicate Rested()
      reads this
    {
      ticks > 0 || (period == 1 && !curPhase)
    }

    // Nanoseconds since the clock was started, as its edges and its ticks tell them.
    ghost function Age(): (age: int)
      reads this
      ensures Valid() ==> age >= 0
    {
      period * negEdges + (if curPhase then period else period / 2) - ticks
    }

    // How often any edge has been reported.
    ghost function Edges(): nat
      reads this
    {
      posEdges + negEdges
    }

    // Restarts the phase counter and reports the edge.
    method Fire()
      modifies this
      ensures ticks == old(NextPhase()) && curPhase == !old(curPhase)
      ensures posEdges == old(posEdges) + (if curPhase then 1 else 0)
      ensures negEdges == old(negEdges) + (if curPhase then 0 else 1)
    {
      ticks := NextPhase();
      if curPhase {
        negEdges := negEdges + 1;
      } else {
        posEdges := posEdges + 1;
      }
      curPhase := !curPhase;
    }

    // Firing a clock whose phase has t nanoseconds left makes it t nanoseconds older.
    twostate lemma FiringAges(t: int)
      requires old(Valid()) && old(ticks) == t
      requires ticks == old(NextPhase()) && curPhase == !old(curPhase)
      requires posEdges == old(posEdges) + (if curPhase then 1 else 0)
      requires negEdges == old(negEdges) + (if curPhase then 0 else 1)
      ensures Valid() && Rested() && Age() == old(Age()) + t
    {
    }
  }

  // How often a clock of period p has reported its edges after t nanoseconds.
  function NegEdgesBy(p: nat, t: int): int
    requires p > 0
  {
    t / p
  }

  function PosEdgesBy(p: nat, t: int): int
    requires p > 0
  {
    (t + p - p / 2) / p
  }

  // Whether a clock of period p has an edge at an age.
  predicate EdgeAt(p: nat, age: int)
    requires p > 0
  {
    age % p == 0 || age % p == p / 2
  }

  // With some ticks of a phase to go there is an edge only at the phase's ends.
  lemma EdgesAreEnds(p: nat, neg: nat, high: bool, ticks: nat)
    requires p > 0 && ticks <= if high then p - p / 2 else p / 2
    ensures EdgeAt(p, p * neg + (if high then p else p / 2) - ticks) <==>
            ticks == 0 || ticks == if high then p - p / 2 else p / 2
  {
    var age := p * neg + (if high then p else p / 2) - ticks;
    if high && ticks == 0 {
      Quotient(age, p, neg + 1);
    } else if p / 2 < p {
      Quotient(age, p, neg);
    }
  }

  // A clock's edges are where its age puts them, however it came to that age; only a clock of
  // one nanosecond may be late with a rising edge, which then is still due.
  lemma EdgesFollowAge(c: Clk, age: nat)
    requires c.Valid() && c.Rested() && c.Age() == age
    ensures c.negEdges == NegEdgesBy(c.period, age)
    ensures c.posEdges == PosEdgesBy(c.period, age) - if c.ticks == 0 then 1 else 0
    ensures c.ticks == 0 ==> c.period == 1
  {
    var p := c.period;
    Quotient(age, p, c.negEdges);
    assert p * c.posEdges == p * c.negEdges + if c.curPhase then p else 0;
    Quotient(age + p - p / 2, p, c.posEdges + if c.ticks == 0 then 1 else 0);
  }

  // The list nodes, clks is links, rest with the loose node (and its clock) put in at p.
  ghost predicate Inserted(nodes: seq<ListNode<Clk>>, clks: seq<Clk>, links: seq<ListNode<Clk>>, rest: seq<Clk>,
                           loose: ListNode<Clk>, p: nat)
    requires loose.owner.Some?
  {
    && p <= |rest| && |links| == |rest| + 1
    && nodes == links[..p + 1] + [loose] + links[p + 1..]
    && clks == rest[..p] + [loose.owner.value] + rest[p..]
  }

  // The nodes and clocks are those of before and the loose node's, if there is one.
  ghost predicate Joined(nodes: seq<ListNode<Clk>>, clks: seq<Clk>, links: seq<ListNode<Clk>>, rest: seq<Clk>,
                         loose: ListNode?<Clk>)
    requires loose != null ==> loose.owner.Some?
  {
    && (forall i :: 0 <= i < |nodes| ==> nodes[i] in links || nodes[i] == loose)
    && (forall i :: 0 <= i < |clks| ==> clks[i] in rest || (loose != null && clks[i] == loose.owner.value))
    && (forall c :: c in rest ==> c in clks)
    && (loose != null ==> loose.owner.value in clks)
    && |clks| == |rest| + if loose != null then 1 else 0
  }

  lemma InsertedJoins(nodes: seq<ListNode<Clk>>, clks: seq<Clk>, links: seq<ListNode<Clk>>, rest: seq<Clk>,
                      loose: ListNode<Clk>, p: nat)
    requires loose.owner.Some? && Inserted(nodes, clks, links, rest, loose, p)
    ensures Joined(nodes, clks, links, rest, loose)
  {
  }

  // A clock at or after the place p of the insertion now stands one place later.
  lemma Shifted(nodes: seq<ListNode<Clk>>, clks: seq<Clk>, links: seq<ListNode<Clk>>, rest: seq<Clk>,
                loose: ListNode<Clk>, p: nat, j: nat)
    requires loose.owner.Some? && Inserted(nodes, clks, links, rest, loose, p) && p <= j < |rest|
    ensures |clks| == |rest| + 1 == |nodes| - 1 && clks[j + 1] == rest[j]
  {
  }

  // The same clocks, once each in both.
  ghost predicate SameMembers(s: seq<Clk>, t: seq<Clk>) {
    |s| == |t| && (forall k :: 0 <= k < |s| ==> s[k] in t) && forall k :: 0 <= k < |t| ==> t[k] in s
  }

  lemma Themselves(s: seq<Clk>)
    ensures SameMembers(s, s)
  {
  }

  lemma Members(s: seq<Clk>, t: seq<Clk>)
    requires SameMembers(s, t)
    ensures forall k :: 0 <= k < |t| ==> t[k] in s
  {
  }

  ghost predicate Among(c: Clk, s: seq<Clk>) {
    c in s
  }

  lemma SameOne(s: seq<Clk>, t: seq<Clk>)
    requires SameMembers(s, t)
    ensures |s| == |t| && (|s| == 1 ==> s == t) && forall c :: c in s ==> c in t
  {
  }

  lemma MembersTwice(s: seq<Clk>, t: seq<Clk>, u: seq<Clk>)
    requires SameMembers(s, t) && SameMembers(t, u)
    ensures SameMembers(s, u) && |s| == |t| == |u| && forall k :: 0 <= k < |s| ==> s[k] in t
  {
    forall k | 0 <= k < |s|
      ensures s[k] in u
    {
      var i :| 0 <= i < |t| && t[i] == s[k];
    }
    forall k | 0 <= k < |u|
      ensures u[k] in s
    {
      var i :| 0 <= i < |t| && t[i] == u[k];
    }
  }

  // How often a clock is in an order of edges.
  function Times(order: seq<Clk>, c: Clk): nat {
    if order == [] then 0
    else Times(order[..|order| - 1], c) + if order[|order| - 1] == c then 1 else 0
  }

  lemma DistinctWith(s: seq<Clk>, c: Clk, p: nat)
    requires Distinct(s) && c !in s && p <= |s|
    ensures Distinct(s[..p] + [c] + s[p..])
  {
  }

  ghost predicate Ascending(s: seq<int>) {
    forall i, j :: 0 <= i < j < |s| ==> s[i] <= s[j]
  }

  // The first j clocks have aged by the given time since their ticks were was.
  ghost predicate Aged(rest: seq<Clk>, was: seq<int>, time: nat, j: nat)
    reads rest`ticks
  {
    && Distinct(rest) && |was| == |rest| && j <= |rest|
    && (forall k :: 0 <= k < j ==> rest[k].ticks == was[k] - time)
    && (forall k :: j <= k < |rest| ==> rest[k].ticks == was[k])
  }

  ghost predicate DueBefore(was: seq<int>, due: int, n: nat) {
    n <= |was| && forall k :: 0 <= k < n ==> was[k] < due
  }

  ghost predicate AnyDue(was: seq<int>, time: nat, n: nat) {
    n <= |was| && exists k :: 0 <= k < n && was[k] == time
  }

  method Elapse(clk: Clk, time: nat, ghost rest: seq<Clk>, ghost was: seq<int>, ghost j: nat)
    requires Aged(rest, was, time, j) && j < |rest| && clk == rest[j]
    modifies clk`ticks
    ensures Aged(rest, was, time, j + 1) && clk.ticks == was[j] - time
  {
    clk.ticks := clk.ticks - time;
  }

  lemma Passing(was: seq<int>, time: nat, due: int, j: nat)
    requires j < |was|
    ensures AnyDue(was, time, j + 1) <==> AnyDue(was, time, j) || was[j] == time
    ensures DueBefore(was, due + time, j) && was[j] - time < due ==> DueBefore(was, due + time, j + 1)
  {
  }

  // The i-th node of a walk through the ring, which ends back at the head.
  function NodeAt(nodes: seq<ListNode<Clk>>, i: nat): (node: ListNode<Clk>)
    requires i < |nodes|
  {
    if i + 1 < |nodes| then nodes[i + 1] else nodes[0]
  }

  // The nodes whose links may change when the loose node, if any, joins the list.
  ghost function Relinked(nodes: seq<ListNode<Clk>>, loose: ListNode?<Clk>): set<ListNode<Clk>> {
    if loose == null then {} else {loose} + set n | n in nodes
  }

  class ClockContext {
    const head: ListNode<Clk>
    const mainClk: Clk
    ghost var nodes: seq<ListNode<Clk>>
    ghost var clks: seq<Clk>

    // No derived clocks yet.
    constructor (period: nat)
      requires period >= 1
      ensures Valid() && clks == [] && fresh(head) && fresh(mainClk) && fresh(nodes)
      ensures mainClk.period == period && !mainClk.curPhase && mainClk.negEdges == 0 && mainClk.posEdges == 0
    {
      head := new ListNode<Clk>(None);
      mainClk := new Clk(period);
      clks := [];
      new;
      nodes := [head];
    }

    ghost predicate Linked()
      reads this, nodes
    {
      && Ring(nodes) && nodes[0] == head && |nodes| == |clks| + 1
      && Distinct(clks) && mainClk !in clks
      && forall i :: 0 <= i < |clks| ==> nodes[i + 1].owner == Some(clks[i])
    }

    ghost predicate Sorted()
      reads this, clks
    {
      forall i, j :: 0 <= i < j < |clks| ==> clks[i].ticks <= clks[j].ticks
    }

    ghost predicate Valid()
      reads this, nodes, clks
    {
      Linked() && Sorted() && mainClk.period >= 1 && forall c :: c in clks ==> c.Valid() && c.Rested()
    }

    ghost predicate Loose(node: ListNode<Clk>)
      reads this, nodes
    {
      node !in nodes && node.owner.Some? && node.owner.value !in clks && node.owner.value != mainClk
    }

    method PutBefore(iter: ListNode<Clk>, loose: ListNode<Clk>, ghost p: nat)
      requires Linked() && Loose(loose) && p < |clks| < |nodes| && iter == NodeAt(nodes, p)
      modifies `nodes, `clks, nodes`next, nodes`prev, loose`next, loose`prev
      ensures Linked() && |nodes| == |clks| + 1 == |old(clks)| + 2
      ensures Inserted(nodes, clks, old(nodes), old(clks), loose, p)
      ensures iter.next == NodeAt(nodes, p + 2)
    {
      hide Distinct, Ring;
      DistinctWith(clks, loose.owner.value, p);
      InsertBefore(iter, loose, nodes, p + 1);
      nodes := nodes[..p + 1] + [loose] + nodes[p + 1..];
      clks := clks[..p] + [loose.owner.value] + clks[p..];
      assert nodes[p + 2] == iter;
    }

    method PutLast(loose: ListNode<Clk>)
      requires Linked() && Loose(loose)
      modifies `nodes, `clks, nodes`next, nodes`prev, loose`next, loose`prev
      ensures Linked() && Inserted(nodes, clks, old(nodes), old(clks), loose, |old(clks)|)
    {
      AddTail(head, loose, nodes);
      nodes := nodes + [loose];
      clks := clks + [loose.owner.value];
    }

    method TakeHead(node: ListNode<Clk>, c: Clk)
      requires Linked() && Sorted() && clks != [] && node == nodes[1] && c == clks[0]
      modifies `nodes, `clks, nodes`next, nodes`prev
      ensures Linked() && Sorted() && Loose(node)
      ensures nodes == old([head] + nodes[2..]) && clks == old(clks[1..])
    {
      Remove(node, nodes, 1);
      nodes := nodes[..1] + nodes[2..];
      clks := clks[1..];
    }

    // The clocks stay sorted when time passes for all of them alike ...
    lemma SortedStill(was: seq<int>, time: nat)
      requires Ascending(was) && Aged(clks, was, time, |clks|)
      ensures Sorted()
    {
    }

    // ... and when one joins them in front of the first that is not due before it.
    lemma SortedWith(links: seq<ListNode<Clk>>, rest: seq<Clk>, loose: ListNode<Clk>, p: nat, was: seq<int>, time: nat)
      requires loose.owner.Some? && Inserted(nodes, clks, links, rest, loose, p)
      requires Ascending(was) && Aged(rest, was, time, |rest|)
      requires DueBefore(was, loose.owner.value.ticks + time, p)
      requires p < |rest| ==> loose.owner.value.ticks <= was[p] - time
      ensures Sorted()
    {
    }

    lemma Walk(i: nat)
      requires Linked() && i <= |clks|
      ensures |nodes| == |clks| + 1
      ensures NodeAt(nodes, i) == head <==> i == |clks|
      ensures i < |clks| ==> NodeAt(nodes, i).next == NodeAt(nodes, i + 1) && NodeAt(nodes, i).owner == Some(clks[i])
    {
    }

    lemma Departure(was: seq<int>, time: nat, due: int, loose: ListNode?<Clk>)
      requires Linked() && Sorted() && (loose != null ==> Loose(loose))
      requires |was| == |clks| && forall k :: 0 <= k < |clks| ==> clks[k].ticks == was[k]
      ensures |nodes| == |clks| + 1
      ensures head.next == NodeAt(nodes, 0) && (head.next == head <==> clks == [])
      ensures Underway(nodes, clks, was, time, loose, loose, 0, 0, 0) && Ascending(was)
      ensures !AnyDue(was, time, 0) && DueBefore(was, due + time, 0)
    {
    }

    // At the end of the walk only a node that is still pending is missing from the list.
    lemma Arrival(links: seq<ListNode<Clk>>, rest: seq<Clk>, was: seq<int>, time: nat,
                  loose: ListNode?<Clk>, pending: ListNode?<Clk>, p: nat, i: nat)
      requires Underway(links, rest, was, time, loose, pending, p, i, |rest|) && Ascending(was)
      requires pending != loose ==>
        p < |was| && was[p] - time >= loose.owner.value.ticks && DueBefore(was, loose.owner.value.ticks + time, p)
      ensures Linked() && Aged(rest, was, time, |rest|)
      ensures forall k :: 0 <= k < |rest| ==> rest[k].ticks == was[k] - time
      ensures AnyDue(was, time, |rest|) <==> exists c :: c in rest && c.ticks == 0
      ensures pending == null ==> Joined(nodes, clks, links, rest, loose)
      ensures pending == loose ==> nodes == links && clks == rest && (loose != null ==> Loose(loose))
      ensures pending == null ==> Sorted()
    {
      if pending != loose {
        SortedWith(links, rest, loose, p, was, time);
        InsertedJoins(nodes, clks, links, rest, loose, p);
      } else if loose == null {
        SortedStill(was, time);
      }
      if k :| 0 <= k < |rest| && rest[k].ticks == 0 {
        assert rest[k] in rest;
      }
    }

    // The walk that takes time off the clocks rest (on the list links) has passed the first
    // j of them and stands at place i; the loose node is still pending or stands at p.
    ghost predicate Underway(links: seq<ListNode<Clk>>, rest: seq<Clk>, was: seq<int>, time: nat,
                             loose: ListNode?<Clk>, pending: ListNode?<Clk>, p: nat, i: nat, j: nat)
      reads this, nodes, rest`ticks
    {
      && Linked() && |nodes| == |clks| + 1
      && j <= |rest| && i <= |clks| && |clks| - i == |rest| - j
      && Aged(rest, was, time, j)
      && (loose != null ==> loose.owner.Some? && loose.owner.value !in rest)
      && (pending == loose ==> nodes == links && clks == rest && (loose != null ==> Loose(loose)))
      && (pending != loose ==> pending == null && p < j && Inserted(nodes, clks, links, rest, loose, p))
    }

    // One step of the walk: the entry at place i has some time taken off, and the pending
    // node goes in front of it unless the entry is due first.
    method Visit(iter: ListNode<Clk>, time: nat, pending: ListNode?<Clk>, ghost links: seq<ListNode<Clk>>,
                 ghost rest: seq<Clk>, ghost was: seq<int>, ghost loose: ListNode?<Clk>,
                 ghost p: nat, ghost i: nat, ghost j: nat)
      returns (entry: Clk, left: ListNode?<Clk>, ghost q: nat, ghost at: nat)
      requires Underway(links, rest, was, time, loose, pending, p, i, j)
      requires j < |rest| && iter == NodeAt(nodes, i)
      modifies `nodes, `clks, Relinked(links, pending)`next, Relinked(links, pending)`prev, rest`ticks
      ensures Underway(links, rest, was, time, loose, left, q, at, j + 1)
      ensures at < |nodes| && iter.next == NodeAt(nodes, at) && (iter.next == head <==> j + 1 == |rest|)
      ensures entry.ticks == was[j] - time
      ensures loose != null ==> loose.owner.value.ticks == old(loose.owner.value.ticks)
      ensures left == if pending != null && was[j] - time >= pending.owner.value.ticks then null else pending
      ensures q == if left != pending then j else p
    {
      hide Linked, Inserted, NodeAt, Distinct, Aged;
      Walk(i);
      if pending != loose {
        Shifted(nodes, clks, links, rest, loose, p, j);
      }
      entry := iter.owner.value;
      Elapse(entry, time, rest, was, j);
      left, q, at := pending, p, i + 1;
      if pending != null && entry.ticks >= pending.owner.value.ticks {
        PutBefore(iter, pending, i);
        left, q, at := null, j, i + 2;
      }
      Walk(at);
    }

    // The pending node is the last to be due.
    method PutBack(loose: ListNode<Clk>, time: nat, ghost was: seq<int>)
      requires Linked() && Loose(loose)
      requires Ascending(was) && Aged(clks, was, time, |clks|)
      requires DueBefore(was, loose.owner.value.ticks + time, |clks|)
      modifies `nodes, `clks, nodes`next, nodes`prev, loose`next, loose`prev
      ensures Linked() && Sorted() && Joined(nodes, clks, old(nodes), old(clks), loose)
    {
      PutLast(loose);
      InsertedJoins(nodes, clks, old(nodes), old(clks), loose, |old(clks)|);
      SortedWith(old(nodes), old(clks), loose, |old(clks)|, was, time);
    }

    // The walk itself.
    method Sweep(time: nat, loose: ListNode?<Clk>, ghost was: seq<int>, ghost due: int)
      returns (rerun: bool, pending: ListNode?<Clk>, ghost p: nat, ghost i: nat)
      requires Linked() && Sorted() && (loose != null ==> Loose(loose) && loose.owner.value.ticks == due)
      requires |was| == |clks| && forall k :: 0 <= k < |clks| ==> clks[k].ticks == was[k]
      modifies `nodes, `clks, Relinked(nodes, loose)`next, Relinked(nodes, loose)`prev, clks`ticks
      ensures Underway(old(nodes), old(clks), was, time, loose, pending, p, i, |old(clks)|)
      ensures rerun == AnyDue(was, time, |was|)
      ensures loose != null ==> loose.owner.value.ticks == due
      ensures pending == loose || pending == null
      ensures pending == loose && loose != null ==> DueBefore(was, due + time, |was|)
      ensures pending != loose ==> p < |was| && was[p] - time >= due && DueBefore(was, due + time, p)
    {
      hide Linked, Inserted, NodeAt, Sorted, Ascending, Distinct, Aged, DueBefore, AnyDue, Underway;
      ghost var rest, links, j := clks, nodes, 0;
      p, i := 0, 0;
      rerun, pending := false, loose;
      Departure(was, time, due, loose);
      var iter := head.next;
      while iter != head
        invariant 0 <= j <= |rest|
        invariant Underway(links, rest, was, time, loose, pending, p, i, j)
        invariant i < |nodes| && iter == NodeAt(nodes, i) && (iter == head <==> j == |rest|)
        invariant rerun == AnyDue(was, time, j)
        invariant loose != null ==> loose.owner.value.ticks == due
        invariant pending == loose || pending == null
        invariant pending == loose && loose != null ==> DueBefore(was, due + time, j)
        invariant pending != loose ==> p < |rest| && was[p] - time >= due && DueBefore(was, due + time, p)
        decreases |rest| - j
      {
        var entry;
        entry, pending, p, i := Visit(iter, time, pending, links, rest, was, loose, p, i, j);
        if entry.ticks == 0 {
          rerun := true;
        }
        Passing(was, time, due, j);
        iter := iter.next;
        j := j + 1;
      }
    }

    // Takes the given time off every listed clock and, on the way, puts the clock of the
    // loose node back in front of the first one that is not due before it.
    method Consume(time: nat, loose: ListNode?<Clk>) returns (rerun: bool)
      requires Linked() && Sorted()
      requires loose != null ==> Loose(loose)
      modifies `nodes, `clks, Relinked(nodes, loose)`next, Relinked(nodes, loose)`prev, clks`ticks
      ensures Linked() && Sorted() && Joined(nodes, clks, old(nodes), old(clks), loose)
      ensures forall c :: c in old(clks) ==> c.ticks == old(c.ticks) - time
      ensures rerun <==> exists c :: c in old(clks) && c.ticks == 0
    {
      hide Linked, Inserted, NodeAt, Sorted, Ascending, Distinct, Aged, DueBefore, AnyDue, Underway, Joined;
      ghost var rest, links := clks, nodes;
      ghost var was := seq(|clks|, k requires 0 <= k < |clks| reads this, clks => clks[k].ticks);
      ghost var due := if loose == null then 0 else loose.owner.value.ticks;
      Departure(was, time, due, loose);
      var pending;
      ghost var p, i;
      rerun, pending, p, i := Sweep(time, loose, was, due);
      Arrival(links, rest, was, time, loose, pending, p, i);
      if pending != null {
        PutBack(pending, time, was);
      }
    }

    // The listed clocks whose edge is due now.
    ghost function Due(): set<Clk>
      reads this, clks
    {
      set c | c in clks && c.ticks == 0
    }

    // Those that are to fall.
    ghost function Falling(): set<Clk>
      reads this, clks
    {
      set c | c in clks && c.ticks == 0 && c.curPhase
    }

    // The clock of a node off the list, if its edge is due now.
    ghost function Spare(loose: ListNode?<Clk>): set<Clk>
      requires loose != null ==> loose.owner.Some?
      reads if loose == null then {} else {loose.owner.value}
    {
      if loose != null && loose.owner.value.ticks == 0 then {loose.owner.value} else {}
    }

    ghost predicate Ready()
      reads this, nodes, clks
    {
      Linked() && Sorted() && mainClk.period >= 1 && forall c :: c in clks ==> c.Valid()
    }

    // Consume, in terms of the clocks' ages.
    method PassTime(time: nat, loose: ListNode?<Clk>) returns (rerun: bool)
      requires Ready() && (loose != null ==> Loose(loose) && loose.owner.value.Valid() && loose.owner.value.Rested())
      requires forall c :: c in clks ==> time <= c.ticks
      modifies `nodes, `clks, Relinked(nodes, loose)`next, Relinked(nodes, loose)`prev, clks`ticks
      ensures Ready()
      ensures Joined(nodes, clks, old(nodes), old(clks), loose)
      ensures forall c :: c in old(clks) ==> c.ticks == old(c.ticks) - time && c.Age() == old(c.Age()) + time
      ensures (rerun ==> Due() != {}) && (old(clks) == [] ==> !rerun)
      ensures !rerun ==> forall c :: c in clks ==> c.Rested()
      ensures time == 0 ==> Due() == old(Due() + Spare(loose)) && Falling() == old(Falling())
    {
      hide Linked, Inserted, NodeAt, Sorted, Distinct;
      rerun := Consume(time, loose);
      assert rerun ==> Due() != {} by {
        if c :| c in old(clks) && c.ticks == 0 {
          assert c in Due();
        }
      }
    }

    lemma Empty()
      requires Linked()
      ensures head.next == head <==> clks == []
    {
    }

    lemma First()
      requires Ready() && clks != []
      ensures |nodes| == |clks| + 1 && head.next == NodeAt(nodes, 0) && clks[0] in clks
      ensures head.next.owner == Some(clks[0])
      ensures head == nodes[0] && head.next == nodes[1]
      ensures forall c :: c in clks ==> c.Valid() && clks[0].ticks <= c.ticks
      ensures forall c :: c in clks <==> c == clks[0] || c in clks[1..]
      ensures clks[0] !in clks[1..] && mainClk !in clks
    {
      forall c | c in clks
        ensures clks[0].ticks <= c.ticks && (c == clks[0] || c in clks[1..])
      {
        var k :| 0 <= k < |clks| && clks[k] == c;
        if k > 0 {
          assert clks[1..][k - 1] == c;
        }
      }
    }

    // Takes the first clock off the list and reports its edge, which is passed nanoseconds ahead.
    method ReportHead() returns (node: ListNode<Clk>, passed: nat)
      requires Ready() && clks != []
      modifies `nodes, `clks, nodes`next, nodes`prev, clks[0]
      ensures Ready() && Loose(node) && node.owner.value == old(clks[0]) && node == old(nodes[1])
      ensures clks == old(clks[1..]) && nodes == old([head] + nodes[2..])
      ensures passed == old(clks[0].ticks) && forall c :: c in clks ==> passed <= c.ticks
      ensures old(clks[0]).Valid() && old(clks[0]).Rested() && old(clks[0]).Age() == old(clks[0].Age()) + passed
      ensures old(clks[0]).ticks == old(clks[0].NextPhase()) && (old(clks[0]).ticks == 0 ==> old(clks[0].curPhase))
      ensures old(clks[0]).Edges() == old(clks[0].Edges()) + 1
    {
      hide Linked, NodeAt, Sorted, Distinct;
      First();
      node := head.next;
      var headClk := node.owner.value;
      passed := headClk.ticks;
      TakeHead(node, headClk);
      headClk.Fire();
      headClk.FiringAges(passed);
    }

    // Adds a clock with the given timing, in front of the first one that is not due before it.
    method Add(timing: Timing) returns (added: Clk?)
      requires Valid()
      modifies `nodes, `clks, nodes`next, nodes`prev
      ensures Valid()
      ensures added != null <==> match timing case Period(ns) => ns > 0 case Freq(hz) => 0 < hz <= 1_000_000_000
      ensures added == null ==> nodes == old(nodes) && clks == old(clks)
      ensures added != null ==>
        && fresh(added) && HasTiming(added.period, timing) && added.Age() == 0
        && added.negEdges == 0 && added.posEdges == 0
        && added in clks && |clks| == |old(clks)| + 1 && (forall c :: c in old(clks) ==> c in clks)
        && (forall i :: 0 <= i < |clks| ==> clks[i] == added || clks[i] in old(clks))
        && (forall i :: 0 <= i < |nodes| ==> fresh(nodes[i]) || nodes[i] in old(nodes))
    {
      PeriodIsNearest(timing);
      var period := PeriodOf(timing);
      if period == None {
        return null;
      }
      added := new Clk(period.value);
      var node := new ListNode<Clk>(Some(added));
      assert added.Valid();
      Place(node, added);
    }

    // The first node in the list whose clock is not due before the given time.
    method FirstFrom(due: int) returns (iter: ListNode<Clk>, ghost i: nat)
      requires Linked()
      ensures i <= |clks| < |nodes| && iter == NodeAt(nodes, i) && (iter == head <==> i == |clks|)
      ensures forall k :: 0 <= k < i ==> clks[k].ticks < due
      ensures i < |clks| ==> clks[i].ticks >= due
    {
      iter, i := head.next, 0;
      Walk(0);
      while iter != head
        invariant i <= |clks| < |nodes| && iter == NodeAt(nodes, i) && (iter == head <==> i == |clks|)
        invariant forall k :: 0 <= k < i ==> clks[k].ticks < due
        decreases |clks| - i
      {
        Walk(i);
        if iter.owner.value.ticks >= due {
          break;
        }
        iter, i := iter.next, i + 1;
        Walk(i);
      }
    }

    method Place(node: ListNode<Clk>, clk: Clk)
      requires Ready() && Loose(node) && node.owner == Some(clk)
      modifies `nodes, `clks, nodes`next, nodes`prev, node`next, node`prev
      ensures Linked() && Sorted() && Joined(nodes, clks, old(nodes), old(clks), node)
    {
      hide Linked, Inserted, NodeAt, Sorted, Ascending, Distinct, Joined, Aged, DueBefore, Loose;
      ghost var was := seq(|clks|, k requires 0 <= k < |clks| reads this, clks => clks[k].ticks);
      ghost var rest, links := clks, nodes;
      var iter;
      ghost var i;
      iter, i := FirstFrom(clk.ticks);
      Spread(was, clk.ticks, i);
      if iter != head {
        PutBefore(iter, node, i);
      } else {
        PutLast(node);
      }
      SortedWith(links, rest, node, i, was, 0);
      InsertedJoins(nodes, clks, links, rest, node, i);
    }

    lemma Spread(was: seq<int>, due: int, n: nat)
      requires Linked() && Sorted() && |was| == |clks|
      requires forall k :: 0 <= k < |clks| ==> clks[k].ticks == was[k]
      requires n <= |clks| && forall k :: 0 <= k < n ==> clks[k].ticks < due
      ensures Aged(clks, was, 0, |clks|) && Ascending(was) && DueBefore(was, due, n)
    {
    }

    // The main clock's phase counter is never used; only its edges are reported.
    method TickMain()
      modifies mainClk
      ensures mainClk.curPhase == !old(mainClk.curPhase) && mainClk.ticks == old(mainClk.ticks)
      ensures mainClk.posEdges == old(mainClk.posEdges) + (if mainClk.curPhase then 1 else 0)
      ensures mainClk.negEdges == old(mainClk.negEdges) + (if mainClk.curPhase then 0 else 1)
    {
      if mainClk.curPhase {
        mainClk.negEdges := mainClk.negEdges + 1;
      } else {
        mainClk.posEdges := mainClk.posEdges + 1;
      }
      mainClk.curPhase := !mainClk.curPhase;
    }

    // The same clocks are listed, by the same nodes, in whatever order.
    twostate predicate SameClocks()
      reads this
    {
      SameMembers(old(clks), clks) && OldNodes()
    }

    twostate predicate OldNodes()
      reads this
    {
      forall i :: 0 <= i < |nodes| ==> nodes[i] in old(nodes)
    }

    // Some clock has an edge that many nanoseconds ahead.
    ghost predicate EdgeAhead(span: nat)
      requires forall c :: c in clks ==> c.period > 0
      reads this, clks
    {
      exists c :: c in clks && EdgeAt(c.period, c.Age() + span)
    }

    // If no edge is nearer, the first clock's is there just if any clock's is.
    lemma FirstEdge(span: nat)
      requires Ready() && clks != [] && 0 < span <= clks[0].ticks
      ensures EdgeAhead(span) <==> clks[0].ticks == span
    {
      First();
      forall c | c in clks
        ensures EdgeAt(c.period, c.Age() + span) <==> c.ticks == span
      {
        EdgesAreEnds(c.period, c.negEdges, c.curPhase, c.ticks - span);
      }
    }

    // The phase of the main clock and the edges it has reported, now and after one more.
    ghost function MainState(): (bool, nat, nat)
      reads mainClk
    {
      (mainClk.curPhase, mainClk.posEdges, mainClk.negEdges)
    }

    function Another(m: (bool, nat, nat)): (bool, nat, nat) {
      if m.0 then (false, m.1, m.2 + 1) else (true, m.1 + 1, m.2)
    }

    twostate predicate MainKept(ticked: bool)
      reads mainClk
    {
      MainState() == if ticked then Another(old(MainState())) else old(MainState())
    }

    // Time is to run to the next edge, of the first listed clock or of the main clock.
    // Reports the edges of these two that are due then, the listed clock's first: so the main
    // clock's comes first just if no listed clock is due with it.
    method Report(remaining: nat, mainTicked: bool)
      returns (node: ListNode?<Clk>, consumed: nat, ghost order: seq<Clk>)
      requires Ready() && clks != []
      modifies `nodes, `clks, nodes`next, nodes`prev, clks[0], mainClk
      ensures Ready() && consumed <= remaining && forall c :: c in clks ==> consumed <= c.ticks
      ensures node == null <==> remaining < old(clks[0].ticks)
      ensures node == null ==> clks == old(clks) && nodes == old(nodes) && unchanged(clks[0]) && consumed == remaining
      ensures node != null ==> Loose(node) && node == old(nodes[1])
      ensures node != null ==> node.owner.value == old(clks[0]) && consumed == old(clks[0].ticks)
      ensures node != null ==> clks == old(clks[1..]) && nodes == old([head] + nodes[2..])
      ensures node != null ==>
        && old(clks[0]).Valid() && old(clks[0]).Rested() && old(clks[0]).Age() == old(clks[0].Age()) + consumed
        && old(clks[0]).ticks == old(clks[0].NextPhase()) && (old(clks[0]).ticks == 0 ==> old(clks[0].curPhase))
        && old(clks[0]).Edges() == old(clks[0].Edges()) + 1
      ensures MainKept(consumed == remaining && !mainTicked)
      ensures node != null && consumed == 0 ==>
        && old(clks[0]) in old(Due()) && Due() == old(Due()) - {old(clks[0])}
        && Falling() == old(Falling()) - {old(clks[0])}
      ensures order == (if node != null then [old(clks[0])] else [])
                       + (if consumed == remaining && !mainTicked then [mainClk] else [])
      ensures consumed == remaining && !mainTicked ==>
        (order[0] == mainClk <==> forall c :: c in old(clks) ==> remaining < old(c.ticks))
    {
      hide Linked, NodeAt, Sorted, Distinct;
      First();
      assert (exists c :: c in clks && c.ticks <= remaining) <==> clks[0].ticks <= remaining;
      assert clks[0] != mainClk;
      node, consumed, order := null, remaining, [];
      if remaining >= head.next.owner.value.ticks {
        order := [clks[0]];
        node, consumed := ReportHead();
      }
      if consumed == remaining && !mainTicked {
        order := order + [mainClk];
        TickMain();
      }
    }

    // With the clock of the loose node back, or none off the list, the clocks are all there.
    lemma Rejoined(links: seq<ListNode<Clk>>, rest: seq<Clk>, loose: ListNode?<Clk>,
                            from: seq<ListNode<Clk>>, all: seq<Clk>)
      requires all != [] && |from| == |all| + 1
      requires loose != null ==> loose.owner == Some(all[0]) && loose == from[1]
      requires Joined(nodes, clks, links, rest, loose)
      requires if loose == null then rest == all && links == from
               else rest == all[1..] && links == [from[0]] + from[2..]
      ensures SameMembers(all, clks) && forall i :: 0 <= i < |nodes| ==> nodes[i] in from
    {
      forall k | 0 <= k < |all|
        ensures all[k] in clks
      {
        if loose != null && k > 0 {
          assert all[k] == rest[k - 1];
        }
      }
    }

    // The edges a turn reports.
    function InTurn(first: Clk, fired: bool, main: bool): seq<Clk> {
      (if fired then [first] else []) + (if main then [mainClk] else [])
    }

    // One turn of the half tick's loop.
    method Turn(remaining: nat, mainTicked: bool) returns (consumed: nat, rerun: bool, ghost order: seq<Clk>)
      requires Ready() && clks != [] && (remaining == 0 ==> Due() != {})
      modifies `nodes, `clks, nodes`next, nodes`prev, clks, mainClk
      ensures Ready() && SameClocks() && consumed <= remaining
      ensures forall c :: c in old(clks) ==> c.Age() == old(c.Age()) + consumed
      ensures rerun ==> Due() != {}
      ensures !rerun ==> forall c :: c in clks ==> c.Rested()
      ensures consumed == 0 ==> Due() < old(Due()) || (Due() == old(Due()) && Falling() < old(Falling()))
      ensures MainKept(consumed == remaining && !mainTicked)
      ensures consumed == if old(clks[0].ticks) <= remaining then old(clks[0].ticks) else remaining
      ensures order == InTurn(old(clks[0]), old(clks[0].ticks) <= remaining, consumed == remaining && !mainTicked)
      ensures forall c :: c in old(clks) ==>
        c.Edges() == old(c.Edges()) + if c == old(clks[0]) && old(clks[0].ticks) <= remaining then 1 else 0
      ensures |old(clks)| == 1 ==> !rerun
      ensures consumed > 0 && old(clks[0]).period == 1 ==> old(clks[0]).ticks == 0
    {
      hide Clk.Age, Linked, NodeAt, Sorted, Distinct, Joined, SameMembers;
      First();
      var node;
      node, consumed, order := Report(remaining, mainTicked);
      ghost var links, rest := nodes, clks;
      rerun := PassTime(consumed, node);
      Rejoined(links, rest, node, old(nodes), old(clks));
    }

    // The edges before the end of a half tick, and those at its end so far: they add up to
    // what the clocks have reported, was before and now; and the main clock's comes first of
    // those at the end, or second to the edge of one listed clock if there are others.
    ghost predicate Ordered(all: seq<Clk>, was: seq<nat>, now: seq<nat>, earlier: seq<Clk>, last: seq<Clk>,
                            mainTicked: bool, others: bool)
    {
      && |was| == |now| == |all| && mainClk !in all
      && (forall k :: 0 <= k < |all| ==> now[k] == was[k] + Times(earlier + last, all[k]))
      && mainClk !in earlier && if mainTicked then MainPlaced(all, last, others) else last == []
    }

    predicate MainPlaced(all: seq<Clk>, order: seq<Clk>, others: bool) {
      if others then
        |order| >= 2 && order[0] in all && order[0] != mainClk && order[1] == mainClk && mainClk !in order[2..]
      else |order| >= 1 && order[0] == mainClk && mainClk !in order[1..]
    }

    lemma TimesInTurn(s: seq<Clk>, first: Clk, fired: bool, main: bool, c: Clk)
      requires c != mainClk
      ensures Times(s + InTurn(first, fired, main), c) == Times(s, c) + if c == first && fired then 1 else 0
    {
      var a := if fired then [first] else [];
      var b := if main then [mainClk] else [];
      assert s + InTurn(first, fired, main) == (s + a) + b;
      assert s + [] == s && (s + a) + [] == s + a;
      assert forall t: seq<Clk>, x: Clk :: (t + [x])[..|t|] == t;
    }

    // A turn adds its edges, those at the end to the others there.
    lemma OrderedStill(all: seq<Clk>, was: seq<nat>, now: seq<nat>, next: seq<nat>, earlier: seq<Clk>, last: seq<Clk>,
                       first: Clk, fired: bool, ended: bool, mainTicked: bool, others: bool)
      requires Ordered(all, was, now, earlier, last, mainTicked, others)
      requires |next| == |all| && Among(first, all) && first != mainClk
      requires forall k :: 0 <= k < |all| ==> next[k] == now[k] + if all[k] == first && fired then 1 else 0
      requires (mainTicked ==> ended) && (ended && !mainTicked ==> fired == others)
      ensures var order := InTurn(first, fired, ended && !mainTicked);
        if ended then Ordered(all, was, next, earlier, last + order, true, others)
        else Ordered(all, was, next, earlier + order, [], false, others)
    {
      var order := InTurn(first, fired, ended && !mainTicked);
      assert earlier + (last + order) == (earlier + last) + order;
      assert !ended ==> (earlier + order) + [] == (earlier + last) + order;
      forall k | 0 <= k < |all|
        ensures Times((earlier + last) + order, all[k]) ==
                Times(earlier + last, all[k]) + if all[k] == first && fired then 1 else 0
      {
        TimesInTurn(earlier + last, first, fired, ended && !mainTicked, all[k]);
      }
    }

    // Some clock has an edge at the age given for it.
    ghost predicate EdgesAt(all: seq<Clk>, ages: seq<int>)
      requires |ages| == |all| && forall k :: 0 <= k < |all| ==> all[k].period > 0
    {
      exists k :: 0 <= k < |all| && EdgeAt(all[k].period, ages[k])
    }

    // At the last turn before the end of the half tick, the first clock's edge is there just
    // if any clock's is.
    lemma Leads(all: seq<Clk>, ends: seq<int>, remaining: nat)
      requires Ready() && clks != [] && |ends| == |all| && SameMembers(all, clks)
      requires forall k :: 0 <= k < |all| ==> all[k].Age() + remaining == ends[k]
      ensures mainClk !in clks && clks[0] != mainClk && Among(clks[0], all) && mainClk !in all
      ensures forall k :: 0 <= k < |all| ==> all[k].period > 0
      ensures |all| == 1 ==> clks[0] == all[0]
      ensures EdgeAhead(remaining) <==> EdgesAt(all, ends)
      ensures 0 < remaining <= clks[0].ticks ==> (clks[0].ticks == remaining <==> EdgesAt(all, ends))
    {
      hide Linked, NodeAt, Distinct, Sorted, EdgeAt;
      First();
      if 0 < remaining <= clks[0].ticks {
        FirstEdge(remaining);
      }
      if c :| c in clks && EdgeAt(c.period, c.Age() + remaining) {
        var k :| 0 <= k < |all| && all[k] == c;
        assert EdgeAt(all[k].period, ends[k]);
      }
    }

    // Within a half tick: the clocks it started with, when they had reported was, and their
    // ages at its end; the edges so far; and what is left.
    ghost predicate Within(all: seq<Clk>, was: seq<nat>, ends: seq<int>, earlier: seq<Clk>, last: seq<Clk>,
                           remaining: nat, rerun: bool)
      reads this, nodes, clks, all
    {
      && Ready() && clks != [] && SameMembers(all, clks) && |all| == |ends| == |was|
      && (forall k :: 0 <= k < |all| ==> all[k].period > 0)
      && (forall k :: 0 <= k < |all| ==> all[k].Age() + remaining == ends[k])
      && Ordered(all, was, EdgesOf(all), earlier, last, remaining == 0, EdgesAt(all, ends))
      && (if rerun then Due() != {} else forall c :: c in clks ==> c.Rested())
      && (|all| == 1 ==> !rerun && (all[0].period == 1 && remaining == 0 ==> all[0].ticks == 0))
    }

    ghost function EdgesOf(all: seq<Clk>): (n: seq<nat>)
      reads all
      ensures |n| == |all| && forall k :: 0 <= k < |all| ==> n[k] == all[k].Edges()
    {
      seq(|all|, k requires 0 <= k < |all| reads all => all[k].Edges())
    }

    // A turn of the loop, and its edges.
    method OrderedTurn(remaining: nat, mainTicked: bool, ghost rerun: bool, ghost all: seq<Clk>, ghost was: seq<nat>,
                       ghost ends: seq<int>, ghost before: seq<Clk>, ghost atEnd: seq<Clk>)
      returns (consumed: nat, again: bool, ghost earlier: seq<Clk>, ghost last: seq<Clk>)
      requires Within(all, was, ends, before, atEnd, remaining, rerun)
      requires (remaining > 0 || rerun) && (mainTicked <==> remaining == 0)
      modifies `nodes, `clks, nodes`next, nodes`prev, clks, mainClk
      ensures consumed <= remaining && Within(all, was, ends, earlier, last, remaining - consumed, again)
      ensures OldNodes() && MainKept(consumed == remaining > 0)
      ensures consumed == 0 ==> Due() < old(Due()) || (Due() == old(Due()) && Falling() < old(Falling()))
    {
      hide Ready, Ordered, InTurn, EdgesAt, EdgeAhead, Another, MainState, Due, Falling, SameMembers, OldNodes, Among;
      Leads(all, ends, remaining);
      ghost var first, fired, now := clks[0], clks[0].ticks <= remaining, EdgesOf(all);
      ghost var order, listed := [], clks;
      consumed, again, order := Turn(remaining, mainTicked);
      MembersTwice(all, listed, clks);
      OrderedStill(all, was, now, EdgesOf(all), before, atEnd, first, fired, consumed == remaining, mainTicked,
                   EdgesAt(all, ends));
      earlier := if consumed == remaining then before else before + order;
      last := if consumed == remaining then atEnd + order else [];
    }

    // The loop of a half tick of span nanoseconds, with clocks listed.
    method Turns(span: nat) returns (ghost earlier: seq<Clk>, ghost last: seq<Clk>)
      requires Valid() && clks != [] && span > 0
      modifies `nodes, `clks, nodes`next, nodes`prev, clks, mainClk
      ensures Valid() && SameClocks() && MainKept(true)
      ensures forall c :: c in old(clks) ==> c.Age() == old(c.Age()) + span
      ensures |old(clks)| == 1 && old(clks)[0].period == 1 ==> old(clks)[0].ticks == 0
      ensures mainClk !in earlier && MainPlaced(old(clks), last, old(EdgeAhead(span)))
      ensures forall c :: c in old(clks) ==> c.Edges() == old(c.Edges()) + Times(earlier + last, c)
    {
      hide Linked, NodeAt, Distinct, Sorted, Ordered, EdgeAt, EdgesAt, EdgeAhead, MainPlaced, Another, MainState;
      hide SameMembers;
      ghost var all, was := clks, EdgesOf(clks);
      ghost var ends := seq(|all|, k requires 0 <= k < |all| reads all => all[k].Age() + span);
      Themselves(all);
      Leads(all, ends, span);
      earlier, last := [], [];
      StartsOrdered(all, was, EdgesAt(all, ends));
      var remaining, mainTicked, rerun := span, false, false;
      while remaining > 0 || rerun
        invariant 0 <= remaining <= span && Within(all, was, ends, earlier, last, remaining, rerun)
        invariant OldNodes() && MainKept(mainTicked) && (mainTicked <==> remaining == 0)
        decreases remaining, Due(), Falling()
      {
        Members(all, clks);
        hide Within;
        var consumed;
        consumed, rerun, earlier, last := OrderedTurn(remaining, mainTicked, rerun, all, was, ends, earlier, last);
        mainTicked := mainTicked || consumed == remaining;
        remaining := remaining - consumed;
      }
      EndsOrdered(all, was, EdgesOf(all), earlier, last, EdgesAt(all, ends));
    }

    lemma EndsOrdered(all: seq<Clk>, was: seq<nat>, now: seq<nat>, earlier: seq<Clk>, last: seq<Clk>, others: bool)
      requires Ordered(all, was, now, earlier, last, true, others)
      ensures mainClk !in earlier && MainPlaced(all, last, others) && |was| == |now| == |all|
      ensures forall k :: 0 <= k < |all| ==> now[k] == was[k] + Times(earlier + last, all[k])
    {
    }

    lemma StartsOrdered(all: seq<Clk>, was: seq<nat>, others: bool)
      requires |was| == |all| && mainClk !in all
      ensures Ordered(all, was, was, [], [], false, others)
    {
    }

    // What is left of the main clock's phase: nothing, if it is high and its period is one
    // nanosecond.
    function HalfPeriod(): (span: nat)
      reads mainClk
    {
      if mainClk.curPhase then mainClk.period / 2 else mainClk.period - mainClk.period / 2
    }

    // Runs the clocks to the next edge of the main clock.  Every listed clock ages by just
    // the main clock's phase, and the main clock reports one edge, if that takes any time.
    // Of the edges reported at the end of the phase, last, the main clock's is the first just
    // if no listed clock has one then, and otherwise the second.
    method HalfTick() returns (ghost earlier: seq<Clk>, ghost last: seq<Clk>)
      requires Valid()
      modifies `nodes, `clks, nodes`next, nodes`prev, clks, mainClk
      ensures Valid() && SameClocks() && MainKept(old(HalfPeriod() > 0 || clks == []))
      ensures forall c :: c in old(clks) ==> c.Age() == old(c.Age() + HalfPeriod())
      ensures forall c :: c in old(clks) ==> c.Edges() == old(c.Edges()) + Times(earlier + last, c)
      ensures mainClk !in earlier
      ensures old(HalfPeriod() > 0 || clks == []) ==> MainPlaced(old(clks), last, old(EdgeAhead(HalfPeriod())))
      ensures |old(clks)| == 1 && old(clks)[0].period == 1 && old(HalfPeriod()) > 0 ==> old(clks)[0].ticks == 0
    {
      hide Linked, NodeAt, Distinct, Sorted;
      var remaining := HalfPeriod();
      Empty();
      earlier, last := [], [];
      if head.next == head {
        TickMain();
        last := [mainClk];
      } else if remaining > 0 {
        earlier, last := Turns(remaining);
      }
    }

    // Whether the main clock keeps running: one of a nanosecond does not, with others beside it.
    ghost predicate Running()
      reads this, mainClk
    {
      mainClk.period >= 2 || clks == []
    }

    // One period of the main clock.
    method MainTick()
      requires Valid()
      modifies `nodes, `clks, nodes`next, nodes`prev, clks, mainClk
      ensures Valid() && SameClocks()
      ensures old(Running()) ==> mainClk.curPhase == old(mainClk.curPhase)
      ensures old(Running()) ==>
        mainClk.negEdges == old(mainClk.negEdges) + 1 && mainClk.posEdges == old(mainClk.posEdges) + 1
      ensures old(Running()) ==> forall c :: c in old(clks) ==> c.Age() == old(c.Age()) + mainClk.period
      ensures !old(Running()) ==> mainClk.curPhase && mainClk.negEdges == old(mainClk.negEdges)
      ensures !old(Running()) ==> forall c :: c in old(clks) ==> c.Age() == old(c.Age() + HalfPeriod())
      ensures |old(clks)| == 1 && old(clks)[0].period == 1 && mainClk.period >= 2 ==> old(clks)[0].ticks == 0
    {
      hide Linked, Sorted, Distinct, NodeAt, SameMembers, MainPlaced, EdgeAhead;
      var _, _ := HalfTick();
      ghost var listed := clks;
      SameOne(old(clks), listed);
      Members(old(clks), listed);
      var _, _ := HalfTick();
      MembersTwice(old(clks), listed, clks);
    }

    // After any number of periods of the main clock every listed clock has reported just
    // the edges its own period calls for by then: nothing is lost, nothing drifts, and the
    // other clocks make no difference.
    method Run(n: nat)
      requires Valid()
      modifies `nodes, `clks, nodes`next, nodes`prev, clks, mainClk
      ensures Valid() && SameClocks()
      ensures old(Running()) ==> mainClk.curPhase == old(mainClk.curPhase)
      ensures old(Running()) ==>
        mainClk.negEdges == old(mainClk.negEdges) + n && mainClk.posEdges == old(mainClk.posEdges) + n
      ensures old(Running()) ==> forall c :: c in old(clks) ==> c.Age() == old(c.Age()) + n * mainClk.period
      ensures !old(Running()) ==> mainClk.negEdges == old(mainClk.negEdges)
      ensures !old(Running()) ==> forall c :: c in old(clks) ==> c.Age() <= old(c.Age()) + 1
      ensures forall c :: c in old(clks) ==>
        && c.negEdges == NegEdgesBy(c.period, c.Age())
        && c.posEdges == PosEdgesBy(c.period, c.Age()) - (if c.ticks == 0 then 1 else 0)
        && (c.ticks == 0 ==> c.period == 1)
      ensures |old(clks)| == 1 && old(clks)[0].period == 1 && mainClk.period >= 2 && n > 0 ==> old(clks)[0].ticks == 0
    {
      hide Linked, Sorted, Distinct, NegEdgesBy, PosEdgesBy;
      ghost var all, passed := clks, 0;
      var i := 0;
      while i < n
        invariant 0 <= i <= n && Valid() && SameClocks() && Running() == old(Running())
        invariant old(Running()) ==> mainClk.curPhase == old(mainClk.curPhase)
        invariant old(Running()) ==>
          mainClk.negEdges == old(mainClk.negEdges) + i && mainClk.posEdges == old(mainClk.posEdges) + i
        invariant old(Running()) ==> passed == i * mainClk.period
        invariant !old(Running()) ==> mainClk.negEdges == old(mainClk.negEdges) && 0 <= passed <= 1
        invariant !old(Running()) && passed == 1 ==> mainClk.curPhase
        invariant forall c :: c in all ==> c.Age() == old(c.Age()) + passed
        invariant |all| == 1 && all[0].period == 1 && mainClk.period >= 2 && i > 0 ==> all[0].ticks == 0
      {
        ghost var step, before := if Running() then mainClk.period else HalfPeriod(), clks;
        MainTick();
        assert before != [] ==> before[0] in clks;
        assert clks != [] ==> clks[0] in before;
        Division.OneMore(i, mainClk.period);
        passed, i := passed + step, i + 1;
      }
      EdgesFollow(all);
    }

    // What the clocks have reported is what their ages call for.
    lemma EdgesFollow(all: seq<Clk>)
      requires Valid() && forall c :: c in all ==> c in clks
      ensures forall c :: c in all ==>
        && c.negEdges == NegEdgesBy(c.period, c.Age())
        && c.posEdges == PosEdgesBy(c.period, c.Age()) - (if c.ticks == 0 then 1 else 0)
        && (c.ticks == 0 ==> c.period == 1)
    {
      hide Linked, Sorted, Distinct, NegEdgesBy, PosEdgesBy;
      forall c | c in all
        ensures c.negEdges == NegEdgesBy(c.period, c.Age())
        ensures c.posEdges == PosEdgesBy(c.period, c.Age()) - (if c.ticks == 0 then 1 else 0)
        ensures c.ticks == 0 ==> c.period == 1
      {
        EdgesFollowAge(c, c.Age());
      }
    }

    // So a clock of period p that joins between two ticks of a main clock of period P has,
    // n ticks later, reported floor(n * P / p) falling edges; beside a main clock of one
    // nanosecond its time soon stops.
    method AddAndRun(timing: Timing, n: nat) returns (added: Clk)
      requires Valid() && match timing case Period(ns) => ns > 0 case Freq(hz) => 0 < hz <= 1_000_000_000
      modifies `nodes, `clks, nodes`next, nodes`prev, clks, mainClk
      ensures Valid() && added in clks && HasTiming(added.period, timing)
      ensures mainClk.period >= 2 ==> added.negEdges == n * mainClk.period / added.period
      ensures mainClk.period >= 2 ==>
        added.posEdges == (n * mainClk.period + added.period - added.period / 2) / added.period
                          - if added.ticks == 0 then 1 else 0
      ensures added.ticks == 0 ==> added.period == 1
      ensures mainClk.period == 1 ==> added.Age() <= 1 && mainClk.negEdges == old(mainClk.negEdges)
    {
      hide Linked, Sorted, Distinct, OldNodes;
      added := Add(timing);
      Run(n);
    }
  }

  // With main and derived clock of two nanoseconds the derived clock's rising edge comes first.
  method DerivedFirst() returns (ghost main: Clk, ghost derived: Clk, ghost last: seq<Clk>)
    ensures |last| >= 2 && last[0] == derived && last[1] == main && derived != main
  {
    var context := new ClockContext(2);
    var added := context.Add(Period(2));
    main, derived := context.mainClk, added;
    assert context.clks == [added];
    assert EdgeAt(added.period, added.Age() + context.HalfPeriod());
    ghost var earlier;
    earlier, last := context.HalfTick();
  }

  // A clock of one nanosecond that is alone in the list is always one rising edge late.
  method LateAlone(period: nat, n: nat) returns (added: Clk)
    requires period >= 2 && n > 0
    ensures added.period == 1 && added.negEdges == n * period
    ensures added.posEdges == n * period == PosEdgesBy(1, n * period) - 1
  {
    var context := new ClockContext(period);
    added := context.Add(Period(1));
    assert context.clks == [added];
    context.Run(n);
  }
}

// Circular doubly linked lists with a dummy head.  A node is embedded in the structure
// it belongs to, its owner; a list head has none.
module IntrusiveList {
  import opened Optional

  class ListNode<T> {
    var next: ListNode<T>
    var prev: ListNode<T>
    const owner: Option<T>

    // A fresh node is an empty list: its own successor and predecessor.
    constructor (owner: Option<T>)
      ensures next == this && prev == this && this.owner == owner
    {
      this.next := this;
      this.prev := this;
      this.owner := owner;
    }
  }

  ghost predicate Distinct<T>(s: seq<T>) {
    forall i, j :: 0 <= i < j < |s| ==> s[i] != s[j]
  }

  // s is a whole list, head first, linked both ways round.
  ghost predicate Ring<T>(s: seq<ListNode<T>>)
    reads s
  {
    && s != [] && Distinct(s)
    && (forall i {:trigger s[i].next} :: 0 <= i < |s| - 1 ==> s[i].next == s[i + 1])
    && (forall i {:trigger s[i].prev} :: 1 <= i < |s| ==> s[i].prev == s[i - 1])
    && s[|s| - 1].next == s[0] && s[0].prev == s[|s| - 1]
  }

  method AddTail<T>(head: ListNode<T>, add: ListNode<T>, ghost s: seq<ListNode<T>>)
    requires Ring(s) && s[0] == head && add !in s
    modifies s`next, s`prev, add`next, add`prev
    ensures Ring(s + [add])
  {
    head.prev.next := add;
    add.prev := head.prev;
    head.prev := add;
    add.next := head;
  }

  method Remove<T>(rem: ListNode<T>, ghost s: seq<ListNode<T>>, ghost k: nat)
    requires Ring(s) && 1 <= k < |s| && s[k] == rem
    modifies s`next, s`prev
    ensures Ring(s[..k] + s[k + 1..])
  {
    rem.prev.next := rem.next;
    rem.next.prev := rem.prev;
  }

  method InsertBefore<T>(entry: ListNode<T>, add: ListNode<T>, ghost s: seq<ListNode<T>>, ghost k: nat)
    requires Ring(s) && 1 <= k < |s| && s[k] == entry && add !in s
    modifies s`next, s`prev, add`next, add`prev
    ensures Ring(s[..k] + [add] + s[k..])
  {
    add.next := entry;
    add.prev := entry.prev;
    entry.prev := add;
    add.prev.next := add;
  }
}

/** Circular doubly linked lists (rtservice.h): nodes threaded by next and prev
    fields. A list is the sequence of its nodes, the list head first. */
module Rings {
  import opened Basics

  type Node = nat

  /** The next and prev fields of the nodes in memory. */
  datatype Links = Links(next: map<Node, Node>, prev: map<Node, Node>)

  function Succ(ns: seq<Node>, k: nat): Node
    requires k < |ns|
  {
    if k + 1 < |ns| then ns[k + 1] else ns[0]
  }

  function Pred(ns: seq<Node>, k: nat): Node
    requires k < |ns|
  {
    if k > 0 then ns[k - 1] else ns[|ns| - 1]
  }

  /** Node k is linked to its neighbours both ways. */
  ghost predicate Joined(l: Links, ns: seq<Node>, k: int) {
    0 <= k < |ns| && ns[k] in l.next && ns[k] in l.prev && l.next[ns[k]] == Succ(ns, k) && l.prev[ns[k]] == Pred(ns, k)
  }

  ghost predicate Ring(l: Links, ns: seq<Node>) {
    |ns| > 0 && Distinct(ns) && forall k :: 0 <= k < |ns| ==> Joined(l, ns, k)
  }

  // -------------------------------------------------------------- operations

  /** rt_list_init */
  function Alone(l: Links, n: Node): Links {
    Links(l.next[n := n], l.prev[n := n])
  }

  /** rt_list_insert_after, assignment by assignment */
  function InsertAfter(l: Links, a: Node, n: Node): Links
    requires a in l.next
  {
    var l1 := l.(prev := l.prev[l.next[a] := n]);
    var l2 := l1.(next := l1.next[n := l1.next[a]]);
    var l3 := l2.(next := l2.next[a := n]);
    l3.(prev := l3.prev[n := a])
  }

  /** rt_list_insert_before, assignment by assignment */
  function InsertBefore(l: Links, a: Node, n: Node): Links
    requires a in l.prev
  {
    var l1 := l.(next := l.next[l.prev[a] := n]);
    var l2 := l1.(prev := l1.prev[n := l1.prev[a]]);
    var l3 := l2.(prev := l2.prev[a := n]);
    l3.(next := l3.next[n := a])
  }

  /** The two assignments that take node n out. */
  function Bypass(l: Links, n: Node): Links
    requires n in l.next && n in l.prev
  {
    var l1 := l.(prev := l.prev[l.next[n] := l.prev[n]]);
    l1.(next := l1.next[if n in l1.prev then l1.prev[n] else n := l1.next[n]])
  }

  /** rt_list_remove */
  function Remove(l: Links, n: Node): Links
    requires n in l.next && n in l.prev
  {
    Alone(Bypass(l, n), n)
  }

  function With(ns: seq<Node>, k: nat, n: Node): seq<Node>
    requires k < |ns|
  {
    ns[..k + 1] + [n] + ns[k + 1..]
  }

  function Without(ns: seq<Node>, k: nat): seq<Node>
    requires k < |ns|
  {
    ns[..k] + ns[k + 1..]
  }

  // ------------------------------------------------------------------ lemmas

  lemma WithAt(ns: seq<Node>, k: nat, n: Node)
    requires k < |ns|
    ensures var q := With(ns, k, n);
            |q| == |ns| + 1
            && forall i :: 0 <= i < |q| ==> q[i] == if i <= k then ns[i] else if i == k + 1 then n else ns[i - 1]
  {
  }

  lemma WithDistinct(ns: seq<Node>, k: nat, n: Node)
    requires k < |ns| && Distinct(ns) && n !in ns
    ensures Distinct(With(ns, k, n))
    ensures forall x :: x in With(ns, k, n) <==> x in ns || x == n
  {
    WithAt(ns, k, n);
    var q := With(ns, k, n);
    hide With;
    forall x | x in ns || x == n ensures x in q {
      if x in ns {
        var i :| 0 <= i < |ns| && ns[i] == x;
        assert q[if i <= k then i else i + 1] == x;
      } else {
        assert q[k + 1] == x;
      }
    }
  }

  lemma WithoutAt(ns: seq<Node>, k: nat)
    requires k < |ns|
    ensures var q := Without(ns, k);
            |q| == |ns| - 1 && (k > 0 ==> q[0] == ns[0])
            && forall i :: 0 <= i < |q| ==> q[i] == if i < k then ns[i] else ns[i + 1]
  {
  }

  lemma WithoutDistinct(ns: seq<Node>, k: nat)
    requires k < |ns| && Distinct(ns)
    ensures Distinct(Without(ns, k))
    ensures forall x :: x in Without(ns, k) <==> x in ns && x != ns[k]
  {
    WithoutAt(ns, k);
    var q := Without(ns, k);
    hide Without;
    forall x | x in ns && x != ns[k] ensures x in q {
      var i :| 0 <= i < |ns| && ns[i] == x;
      assert q[if i < k then i else i - 1] == x;
    }
  }

  lemma InsertJoined(l: Links, ns: seq<Node>, k: nat, n: Node, i: nat)
    requires Ring(l, ns) && k < |ns| && n !in ns && i <= |ns| && ns[k] in l.next
    ensures Joined(InsertAfter(l, ns[k], n), With(ns, k, n), i)
  {
    WithAt(ns, k, n);
    hide With;
    assert Joined(l, ns, k);
    var j := if i <= k then i else if i == k + 1 then k else i - 1;
    assert Joined(l, ns, j);
    assert ns[j] in ns && ns[k] in ns && Succ(ns, k) in ns;
  }

  /** Inserting after node k puts the new node right behind it. */
  lemma InsertAfterRing(l: Links, ns: seq<Node>, k: nat, n: Node)
    requires Ring(l, ns) && k < |ns| && n !in ns
    ensures ns[k] in l.next && Ring(InsertAfter(l, ns[k], n), With(ns, k, n))
  {
    assert Joined(l, ns, k);
    var l', q := InsertAfter(l, ns[k], n), With(ns, k, n);
    WithDistinct(ns, k, n);
    hide InsertAfter;
    assert |q| == |ns| + 1;
    forall i | 0 <= i < |q| ensures Joined(l', q, i) {
      InsertJoined(l, ns, k, n, i);
    }
  }

  /** Inserting before node a is inserting after the node in front of it. */
  lemma InsertBeforeIs(l: Links, ns: seq<Node>, k: nat, n: Node)
    requires Ring(l, ns) && k < |ns| && n !in ns
    ensures ns[k] in l.prev && Pred(ns, k) in l.next
    ensures InsertBefore(l, ns[k], n) == InsertAfter(l, Pred(ns, k), n)
  {
    assert Joined(l, ns, k);
    var j := if k > 0 then k - 1 else |ns| - 1;
    assert Joined(l, ns, j);
    assert Succ(ns, j) == ns[k] && Pred(ns, k) == ns[j];
    assert ns[j] in ns && ns[k] in ns;
    var a, b := InsertBefore(l, ns[k], n), InsertAfter(l, ns[j], n);
    assert a.next == b.next && a.prev == b.prev;
  }

  /** Inserting before the list head appends. */
  lemma InsertBeforeHead(l: Links, ns: seq<Node>, n: Node)
    requires Ring(l, ns) && n !in ns
    ensures ns[0] in l.prev && Ring(InsertBefore(l, ns[0], n), ns + [n])
  {
    InsertBeforeIs(l, ns, 0, n);
    InsertAfterRing(l, ns, |ns| - 1, n);
    assert With(ns, |ns| - 1, n) == ns + [n];
  }

  lemma BypassRing(l: Links, ns: seq<Node>, k: nat)
    requires Ring(l, ns) && 0 < k < |ns|
    ensures ns[k] in l.next && ns[k] in l.prev && Ring(Bypass(l, ns[k]), Without(ns, k))
  {
    assert Joined(l, ns, k);
    var n := ns[k];
    var l', q := Bypass(l, n), Without(ns, k);
    assert Succ(ns, k) != n;
    WithoutDistinct(ns, k);
    WithoutAt(ns, k);
    hide Without;
    forall i | 0 <= i < |q| ensures Joined(l', q, i) {
      assert Joined(l, ns, if i < k then i else i + 1);
    }
  }

  /** Taking node k out closes the gap and leaves the node alone. */
  lemma RemoveRing(l: Links, ns: seq<Node>, k: nat)
    requires Ring(l, ns) && 0 < k < |ns|
    ensures ns[k] in l.next && ns[k] in l.prev
    ensures Ring(Remove(l, ns[k]), Without(ns, k)) && Ring(Remove(l, ns[k]), [ns[k]])
  {
    BypassRing(l, ns, k);
    WithoutDistinct(ns, k);
    var q := Without(ns, k);
    hide Without, Bypass;
    forall i | 0 <= i < |q| ensures Joined(Remove(l, ns[k]), q, i) {
      assert Joined(Bypass(l, ns[k]), q, i);
      assert q[i] in q;
    }
    assert Joined(Remove(l, ns[k]), [ns[k]], 0);
  }

  /** Fields that agree on the nodes of a ring keep it. */
  lemma RingFrame(l: Links, l': Links, ns: seq<Node>)
    requires Ring(l, ns)
    requires forall x :: x in ns && x in l.next && x in l.prev ==>
               x in l'.next && x in l'.prev && l'.next[x] == l.next[x] && l'.prev[x] == l.prev[x]
    ensures Ring(l', ns)
  {
    forall k | 0 <= k < |ns| ensures Joined(l', ns, k) {
      assert Joined(l, ns, k);
      assert ns[k] in ns;
    }
  }

  /** rt_list_isempty, on a list that is a ring. */
  lemma EmptyIff(l: Links, ns: seq<Node>)
    requires Ring(l, ns)
    ensures ns[0] in l.next && (l.next[ns[0]] == ns[0] <==> |ns| == 1)
  {
    assert Joined(l, ns, 0);
  }

  /** Inserting and removing a node restores every link of the list. */
  lemma InsertRemove(l: Links, ns: seq<Node>, k: nat, n: Node)
    requires Ring(l, ns) && k < |ns| && n !in ns
    ensures ns[k] in l.next
    ensures var l1 := InsertAfter(l, ns[k], n); n in l1.next && n in l1.prev && Ring(Remove(l1, n), ns)
  {
    InsertAfterRing(l, ns, k, n);
    WithAt(ns, k, n);
    RemoveRing(InsertAfter(l, ns[k], n), With(ns, k, n), k + 1);
    assert Without(With(ns, k, n), k + 1) == ns;
  }

  // --------------------------------------------------------- nodes as objects

  class ListNode {
    var next: ListNode
    var prev: ListNode

    /** rt_list_init */
    constructor ()
      ensures next == this && prev == this && RingOf([this])
    {
      next, prev := this, this;
    }
  }

  ghost predicate Apart(ns: seq<ListNode>) {
    forall i, j :: 0 <= i < j < |ns| ==> ns[i] != ns[j]
  }

  ghost predicate Hooked(ns: seq<ListNode>, k: int)
    reads ns
  {
    0 <= k < |ns|
    && ns[k].next == (if k + 1 < |ns| then ns[k + 1] else ns[0])
    && ns[k].prev == (if k > 0 then ns[k - 1] else ns[|ns| - 1])
  }

  ghost predicate RingOf(ns: seq<ListNode>)
    reads ns
  {
    |ns| > 0 && Apart(ns) && forall k :: 0 <= k < |ns| ==> Hooked(ns, k)
  }

  /** rt_list_insert_after; `ns` is the list l is in, at place k. */
  method ListInsertAfter(l: ListNode, n: ListNode, ghost ns: seq<ListNode>, ghost k: nat)
    requires RingOf(ns) && k < |ns| && ns[k] == l && n !in ns
    modifies l, l.next, n
    ensures RingOf(ns[..k + 1] + [n] + ns[k + 1..])
  {
    assert Hooked(ns, k);
    ghost var after := l.next;
    l.next.prev := n;
    n.next := l.next;
    l.next := n;
    n.prev := l;
    ghost var q := ns[..k + 1] + [n] + ns[k + 1..];
    assert forall i :: 0 <= i < |q| ==> q[i] == if i <= k then ns[i] else if i == k + 1 then n else ns[i - 1];
    forall i | 0 <= i < |q| ensures Hooked(q, i) {
      assert old(Hooked(ns, if i <= k then i else if i == k + 1 then k else i - 1));
    }
  }

  /** rt_list_insert_before; before the head means at the end. */
  method ListInsertBefore(l: ListNode, n: ListNode, ghost ns: seq<ListNode>, ghost k: nat)
    requires RingOf(ns) && k < |ns| && ns[k] == l && n !in ns
    modifies l, l.prev, n
    ensures RingOf(if k == 0 then ns + [n] else ns[..k] + [n] + ns[k..])
  {
    assert Hooked(ns, k);
    l.prev.next := n;
    n.prev := l.prev;
    l.prev := n;
    n.next := l;
    ghost var m := if k == 0 then |ns| else k;
    ghost var q := if k == 0 then ns + [n] else ns[..k] + [n] + ns[k..];
    assert forall i :: 0 <= i < |q| ==> q[i] == if i < m then ns[i] else if i == m then n else ns[i - 1];
    forall i | 0 <= i < |q| ensures Hooked(q, i) {
      assert old(Hooked(ns, if i < m then i else if i == m then k else i - 1));
    }
  }

  /** rt_list_remove */
  method ListRemove(n: ListNode, ghost ns: seq<ListNode>, ghost k: nat)
    requires RingOf(ns) && 0 < k < |ns| && ns[k] == n
    modifies n, n.next, n.prev
    ensures RingOf(ns[..k] + ns[k + 1..]) && RingOf([n])
  {
    assert Hooked(ns, k);
    n.next.prev := n.prev;
    n.prev.next := n.next;
    n.next, n.prev := n, n;
    ghost var q := ns[..k] + ns[k + 1..];
    assert forall i :: 0 <= i < |q| ==> q[i] == if i < k then ns[i] else ns[i + 1];
    forall i | 0 <= i < |q| ensures Hooked(q, i) {
      assert old(Hooked(ns, if i < k then i else i + 1));
    }
  }
}

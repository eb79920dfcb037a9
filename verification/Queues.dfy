/** The ready queues with their bitmap, the wait lists and the defunct list as the
    scheduler holds them (scheduler.c): list heads, thread nodes and bits. */
module Queues {
  import opened Basics
  import opened Rings
  import opened WaitList
  import opened ReadyBits
  import opened ThreadLists

  /** `objects` are the IPC objects, each with the head of a wait list. */
  datatype Board = Board(wide: bool, objects: set<Obj>, links: Links, group: nat, table: seq<nat>)

  predicate HasHead(b: Board, x: Place) {
    match x
    case Nowhere => false
    case Queue(p) => p < Levels(b.wide)
    case Waiting(o) => o in b.objects
    case Defunct => true
  }

  /** Both pointers of the node point at nodes. */
  ghost predicate Points(links: Links, n: Node) {
    n in links.next && n in links.prev ==> links.next[n] in links.next && links.prev[n] in links.next
  }

  ghost predicate Wired(links: Links) {
    links.prev.Keys == links.next.Keys && forall n :: Points(links, n)
  }

  /** The list heads and nodes exist, whatever their links. */
  ghost predicate WellFormed(b: Board) {
    Wired(b.links) && forall x :: HasHead(b, x) ==> Head(x) in b.links.next
  }

  /** The same heads and nodes, still well formed. */
  ghost predicate Kept(b: Board, b': Board) {
    WellFormed(b') && b'.links.next.Keys == b.links.next.Keys && b'.wide == b.wide && b'.objects == b.objects
  }

  /** Which ready queues hold a thread. */
  function Busy(l: Lists, wide: bool): (busy: seq<bool>)
    ensures |busy| == Levels(wide)
    ensures forall p :: 0 <= p < |busy| ==> (busy[p] <==> Queue(p) in l.at && l.at[Queue(p)] != [])
  {
    seq(Levels(wide), p requires 0 <= p < Levels(wide) => Queue(p) in l.at && l.at[Queue(p)] != [])
  }

  /** The links are those of the lists l, and the bits say which queues hold a thread. */
  ghost predicate BoardOk(b: Board, l: Lists) {
    Rep(b.links, l) && (forall x :: x in l.at <==> HasHead(b, x)) && BitsOk(b.wide, Busy(l, b.wide), b.group, b.table)
  }

  // -------------------------------------------------------------- operations

  /** rt_list_remove of a thread's node */
  function Off(b: Board, t: Tid): Board
    requires WellFormed(b) && NodeOf(t) in b.links.next
  {
    b.(links := Remove(b.links, NodeOf(t)))
  }

  /** rt_list_insert_before of a thread's node */
  function Before(b: Board, a: Node, t: Tid): Board
    requires WellFormed(b) && a in b.links.next
  {
    b.(links := InsertBefore(b.links, a, NodeOf(t)))
  }

  /** rt_list_insert_after of a thread's node */
  function After(b: Board, a: Node, t: Tid): Board
    requires WellFormed(b) && a in b.links.next
  {
    b.(links := InsertAfter(b.links, a, NodeOf(t)))
  }

  /** rt_schedule_insert_thread, but for the status */
  function Put(b: Board, t: Tid, p: nat): Board
    requires WellFormed(b) && p < Levels(b.wide)
  {
    Before(b, Head(Queue(p)), t)
      .(group := MarkedGroup(b.wide, b.group, p), table := MarkedTable(b.wide, b.table, p))
  }

  /** rt_schedule_remove_thread: off whatever list, and the bit of priority p cleared
      if that queue is empty. */
  function Taken(b: Board, t: Tid, p: nat): Board
    requires WellFormed(b) && NodeOf(t) in b.links.next && p < Levels(b.wide)
  {
    var b' := Off(b, t);
    if IsEmpty(b'.links, Head(Queue(p))) then
      var table' := ClearedTable(b.wide, b.table, p);
      b'.(table := table', group := ClearedGroup(b.wide, b.group, table', p))
    else b'
  }

  /** rt_list_isempty */
  predicate IsEmpty(links: Links, h: Node) {
    h in links.next && links.next[h] == h
  }

  // -------------------------------------------------------------- any links

  lemma WiredRemove(links: Links, n: Node)
    requires Wired(links) && n in links.next
    ensures n in links.prev && Wired(Remove(links, n)) && Remove(links, n).next.Keys == links.next.Keys
  {
    assert n in links.prev.Keys && Points(links, n);
    assert links.next[n] in links.prev.Keys;
    var l' := Remove(links, n);
    assert l'.next.Keys == links.next.Keys && l'.prev.Keys == links.prev.Keys;
    forall m ensures Points(l', m) {
      assert Points(links, m);
      assert m in l'.next <==> m in links.next.Keys;
    }
  }

  lemma WiredBefore(links: Links, a: Node, n: Node)
    requires Wired(links) && n in links.next && a in links.next
    ensures a in links.prev && Wired(InsertBefore(links, a, n))
            && InsertBefore(links, a, n).next.Keys == links.next.Keys
  {
    assert a in links.prev.Keys && n in links.prev.Keys && Points(links, a);
    var l' := InsertBefore(links, a, n);
    assert l'.next.Keys == links.next.Keys && l'.prev.Keys == links.prev.Keys;
    forall m ensures Points(l', m) {
      assert Points(links, m);
      assert m in l'.next <==> m in links.next.Keys;
    }
  }

  lemma WiredAfter(links: Links, a: Node, n: Node)
    requires Wired(links) && n in links.next && a in links.next
    ensures Wired(InsertAfter(links, a, n)) && InsertAfter(links, a, n).next.Keys == links.next.Keys
  {
    assert a in links.prev.Keys && n in links.prev.Keys && Points(links, a);
    assert links.next[a] in links.prev.Keys;
    var l' := InsertAfter(links, a, n);
    assert l'.next.Keys == links.next.Keys && l'.prev.Keys == links.prev.Keys;
    forall m ensures Points(l', m) {
      assert Points(links, m);
      assert m in l'.next <==> m in links.next.Keys;
    }
  }

  /** The operations keep the heads and nodes. */
  lemma OffReady(b: Board, t: Tid)
    requires WellFormed(b) && NodeOf(t) in b.links.next
    ensures Kept(b, Off(b, t))
  {
    hide Remove, NodeOf, Wired, Head;
    WiredRemove(b.links, NodeOf(t));
    forall x | HasHead(Off(b, t), x) ensures Head(x) in Off(b, t).links.next { assert HasHead(b, x); }
  }

  lemma BeforeReady(b: Board, a: Node, t: Tid)
    requires WellFormed(b) && NodeOf(t) in b.links.next && a in b.links.next
    ensures Kept(b, Before(b, a, t))
  {
    hide InsertBefore, NodeOf, Wired, Head;
    WiredBefore(b.links, a, NodeOf(t));
    forall x | HasHead(Before(b, a, t), x) ensures Head(x) in Before(b, a, t).links.next { assert HasHead(b, x); }
  }

  lemma AfterReady(b: Board, a: Node, t: Tid)
    requires WellFormed(b) && NodeOf(t) in b.links.next && a in b.links.next
    ensures Kept(b, After(b, a, t))
  {
    hide InsertAfter, NodeOf, Wired, Head;
    WiredAfter(b.links, a, NodeOf(t));
    forall x | HasHead(After(b, a, t), x) ensures Head(x) in After(b, a, t).links.next { assert HasHead(b, x); }
  }

  lemma PutReady(b: Board, t: Tid, p: nat)
    requires WellFormed(b) && NodeOf(t) in b.links.next && p < Levels(b.wide)
    ensures Kept(b, Put(b, t, p))
  {
    hide Before, NodeOf, Wired, Head;
    assert HasHead(b, Queue(p));
    BeforeReady(b, Head(Queue(p)), t);
    BitsAside(Before(b, Head(Queue(p)), t), Put(b, t, p));
  }

  lemma TakenReady(b: Board, t: Tid, p: nat)
    requires WellFormed(b) && NodeOf(t) in b.links.next && p < Levels(b.wide)
    ensures Kept(b, Taken(b, t, p))
  {
    hide Off, NodeOf, Wired, Head;
    OffReady(b, t);
    BitsAside(Off(b, t), Taken(b, t, p));
  }

  lemma BitsAside(b: Board, b': Board)
    requires WellFormed(b) && b'.links == b.links && b'.wide == b.wide && b'.objects == b.objects
    ensures WellFormed(b')
  {
    hide Wired, Head;
    forall x | HasHead(b', x) ensures Head(x) in b'.links.next { assert HasHead(b, x); }
  }

  // ------------------------------------------------------------- intact lists

  lemma OffKeeps(b: Board, l: Lists, t: Tid)
    requires WellFormed(b) && BoardOk(b, l) && t in l.place && !l.place[t].Queue?
    ensures NodeOf(t) in b.links.next && BoardOk(Off(b, t), Unlinked(l, t))
  {
    hide Rep, BitsOk, Remove, NodeOf, Basics.Removed;
    UnlinkRep(b.links, l, t);
    UnlinkedHeads(b, l, t);
    assert Busy(Unlinked(l, t), b.wide) == Busy(l, b.wide);
  }

  lemma UnlinkedHeads(b: Board, l: Lists, t: Tid)
    requires forall x :: x in l.at <==> HasHead(b, x)
    ensures forall x :: x in Unlinked(l, t).at <==> HasHead(b, x)
  {
    hide Basics.Removed;
  }

  lemma TakenKeeps(b: Board, l: Lists, t: Tid, p: nat)
    requires WellFormed(b) && BoardOk(b, l) && t in l.place && p < Levels(b.wide)
    requires l.place[t].Queue? ==> l.place[t].p == p
    ensures NodeOf(t) in b.links.next && BoardOk(Taken(b, t, p), Unlinked(l, t))
  {
    hide Rep, BitsOk, Remove, NodeOf, Head, Basics.Removed, ClearedTable, ClearedGroup;
    UnlinkRep(b.links, l, t);
    UnlinkedHeads(b, l, t);
    var l' := Unlinked(l, t);
    assert HasHead(b, Queue(p));
    ListEmptyIff(Off(b, t).links, l', Queue(p));
    TakenBusy(b, l, t, p);
    ClearedBits(b.wide, Busy(l, b.wide), b.group, b.table, p);
  }

  /** Taking a thread off empties at most the queue of its priority. */
  lemma TakenBusy(b: Board, l: Lists, t: Tid, p: nat)
    requires t in l.place && p < Levels(b.wide) && Queue(p) in l.at && Rep(b.links, l)
    requires l.place[t].Queue? ==> l.place[t].p == p
    ensures var l' := Unlinked(l, t);
            Queue(p) in l'.at
            && Busy(l', b.wide) == if l'.at[Queue(p)] == [] then Busy(l, b.wide)[p := false] else Busy(l, b.wide)
  {
    hide Ring, Basics.Removed, Chain, Head;
    var l' := Unlinked(l, t);
    assert NodeOk(b.links, l, t) && ListOk(b.links, l, Queue(p));
    forall q: nat | q < Levels(b.wide) && q != p ensures Busy(l', b.wide)[q] == Busy(l, b.wide)[q] { }
    assert l'.at[Queue(p)] != [] ==> l.at[Queue(p)] != [] by {
      if l'.at[Queue(p)] != [] && l.place[t] == Queue(p) { assert t in l.at[Queue(p)]; }
    }
    var busy := if l'.at[Queue(p)] == [] then Busy(l, b.wide)[p := false] else Busy(l, b.wide);
    forall q: nat | q < Levels(b.wide) ensures Busy(l', b.wide)[q] == busy[q] { }
    assert Busy(l', b.wide) == busy;
  }

  lemma PutKeeps(b: Board, l: Lists, t: Tid, p: nat)
    requires WellFormed(b) && BoardOk(b, l) && At(l, t, Nowhere) && p < Levels(b.wide)
    ensures Queue(p) in l.at && BoardOk(Put(b, t, p), Queued(l, t, p))
  {
    hide Rep, BitsOk, InsertBefore, NodeOf, Head, InsertAt, MarkedTable, MarkedGroup;
    assert HasHead(b, Queue(p));
    var q := l.at[Queue(p)];
    LinkBeforeRep(b.links, l, t, Queue(p), |q|);
    MarkedBits(b.wide, Busy(l, b.wide), b.group, b.table, p);
    var l' := Linked(l, t, Queue(p), |q|);
    assert InsertAt(q, |q|, t) != [] by { InsertNonEmpty(q, |q|, t); }
    var busy := Busy(l, b.wide)[p := true];
    forall r: nat | r < Levels(b.wide) ensures Busy(l', b.wide)[r] == busy[r] { }
    assert Busy(l', b.wide) == busy;
  }

  lemma InsertNonEmpty(q: seq<Tid>, k: nat, t: Tid)
    requires k <= |q|
    ensures InsertAt(q, k, t) != []
  {
    assert |InsertAt(q, k, t)| == |q| + 1;
  }

  /** A thread put on a wait list before its k-th member. */
  lemma BeforeKeeps(b: Board, l: Lists, t: Tid, o: Obj, k: nat)
    requires WellFormed(b) && BoardOk(b, l) && At(l, t, Nowhere) && o in b.objects
    requires Waiting(o) in l.at ==> k <= |l.at[Waiting(o)]|
    ensures Waiting(o) in l.at && NodeAt(l, Waiting(o), k) in b.links.next
    ensures BoardOk(Before(b, NodeAt(l, Waiting(o), k), t), Linked(l, t, Waiting(o), k))
  {
    hide Rep, BitsOk, InsertBefore, NodeOf, Head, InsertAt;
    assert HasHead(b, Waiting(o));
    LinkBeforeRep(b.links, l, t, Waiting(o), k);
    assert NodeAt(l, Waiting(o), k) in b.links.prev.Keys;
    assert Busy(Linked(l, t, Waiting(o), k), b.wide) == Busy(l, b.wide);
  }

  /** A thread put at the front of the defunct list. */
  lemma DefunctKeeps(b: Board, l: Lists, t: Tid)
    requires WellFormed(b) && BoardOk(b, l) && At(l, t, Nowhere)
    ensures Defunct in l.at && Head(Defunct) in b.links.next
    ensures BoardOk(After(b, Head(Defunct), t), Linked(l, t, Defunct, 0))
  {
    hide Rep, BitsOk, InsertAfter, NodeOf, Head, InsertAt;
    assert HasHead(b, Defunct);
    LinkAfterRep(b.links, l, t, Defunct, 0);
    assert Chain(Defunct, l.at[Defunct])[0] == Head(Defunct);
    assert Busy(Linked(l, t, Defunct, 0), b.wide) == Busy(l, b.wide);
  }

  /** Board and threads determine the lists. */
  lemma BoardUnique(b: Board, l: Lists, l': Lists)
    requires BoardOk(b, l) && BoardOk(b, l') && l.place.Keys == l'.place.Keys
    ensures l == l'
  {
    hide Rep, BitsOk;
    assert forall x :: x in l.at <==> x in l'.at;
    assert l.at.Keys == l'.at.Keys;
    RepUnique(b.links, l, l');
  }

  /** Inserting a node that is in a list already leaves no lists at all. */
  lemma PutRuins(b: Board, l: Lists, t: Tid, p: nat, l': Lists)
    requires WellFormed(b) && BoardOk(b, l) && t in l.place && l.place[t] != Nowhere && p < Levels(b.wide)
    requires l'.place.Keys == l.place.Keys
    ensures !BoardOk(Put(b, t, p), l')
  {
    hide Rep, BitsOk, InsertBefore, NodeOf, Head, MarkedTable, MarkedGroup;
    assert HasHead(b, Queue(p));
    assert IsNode(l, Head(Queue(p)));
    HeadsApart(Queue(p), Queue(p), t);
    if BoardOk(Put(b, t, p), l') {
      SameHeads(b, Put(b, t, p), l, l');
      InsertBeforeRuins(b.links, l, t, Head(Queue(p)), l');
    }
  }

  lemma DefunctRuins(b: Board, l: Lists, t: Tid, l': Lists)
    requires WellFormed(b) && BoardOk(b, l) && t in l.place && l.place[t] != Nowhere
    requires l'.place.Keys == l.place.Keys
    ensures Head(Defunct) in b.links.next && !BoardOk(After(b, Head(Defunct), t), l')
  {
    hide Rep, BitsOk, InsertAfter, NodeOf, Head;
    assert HasHead(b, Defunct);
    assert IsNode(l, Head(Defunct));
    HeadsApart(Defunct, Defunct, t);
    if BoardOk(After(b, Head(Defunct), t), l') {
      SameHeads(b, After(b, Head(Defunct), t), l, l');
      InsertAfterRuins(b.links, l, t, Head(Defunct), l');
    }
  }

  lemma SameHeads(b: Board, b': Board, l: Lists, l': Lists)
    requires b'.wide == b.wide && b'.objects == b.objects
    requires forall x :: x in l.at <==> HasHead(b, x)
    requires forall x :: x in l'.at <==> HasHead(b', x)
    ensures l'.at.Keys == l.at.Keys
  {
    forall x ensures x in l.at <==> x in l'.at { assert HasHead(b, x) <==> HasHead(b', x); }
  }
}

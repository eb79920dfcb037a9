/** The lists that threads are linked into (thread.c, scheduler.c): one node in each
    thread, one list head for each ready queue, for each IPC object and for the
    defunct threads, all threaded by next and prev fields. */
module ThreadLists {
  import opened Basics
  import opened Rings
  import opened WaitList

  type Obj = nat

  /** The list a thread's tlist node is linked into. */
  datatype Place = Nowhere | Queue(p: nat) | Waiting(o: Obj) | Defunct

  /** The address of the node of thread t. */
  function NodeOf(t: Tid): Node {
    2 * t
  }

  /** The address of a list head. */
  function Head(x: Place): Node {
    match x
    case Queue(p) => 6 * p + 1
    case Waiting(o) => 6 * o + 3
    case _ => 5
  }

  /** What the links stand for: the place of each thread and the members of each list. */
  datatype Lists = Lists(place: map<Tid, Place>, at: map<Place, seq<Tid>>)

  function Nodes(q: seq<Tid>): seq<Node> {
    seq(|q|, i requires 0 <= i < |q| => NodeOf(q[i]))
  }

  /** The nodes of a list, its head first. */
  function Chain(x: Place, q: seq<Tid>): seq<Node> {
    [Head(x)] + Nodes(q)
  }

  predicate At(l: Lists, t: Tid, x: Place) {
    t in l.place && l.place[t] == x
  }

  /** The list at x is a ring through the nodes of exactly the threads there. */
  ghost predicate ListOk(links: Links, l: Lists, x: Place) {
    x in l.at && x != Nowhere && Ring(links, Chain(x, l.at[x])) && forall t :: t in l.at[x] <==> At(l, t, x)
  }

  /** A thread in no list has its node linked to itself. */
  ghost predicate NodeOk(links: Links, l: Lists, t: Tid) {
    t in l.place && if l.place[t] == Nowhere then Ring(links, [NodeOf(t)]) else l.place[t] in l.at
  }

  /** The links are those of the lists l. */
  ghost predicate Rep(links: Links, l: Lists) {
    (forall x :: x in l.at ==> ListOk(links, l, x)) && (forall t :: t in l.place ==> NodeOk(links, l, t))
  }

  // --------------------------------------------------------------- list moves

  /** Thread t in no list. */
  function Unlinked(l: Lists, t: Tid): Lists {
    if t !in l.place then l
    else
      var x := l.place[t];
      Lists(l.place[t := Nowhere], if x in l.at then l.at[x := Removed(l.at[x], t)] else l.at)
  }

  /** Thread t put into the list at x, k members before it. */
  function Linked(l: Lists, t: Tid, x: Place, k: nat): Lists
    requires x in l.at && k <= |l.at[x]|
  {
    Lists(l.place[t := x], l.at[x := InsertAt(l.at[x], k, t)])
  }

  /** Thread t put at the end of ready queue p. */
  function Queued(l: Lists, t: Tid, p: nat): Lists {
    if Queue(p) in l.at then Linked(l, t, Queue(p), |l.at[Queue(p)]|) else l
  }

  lemma UnlinkedShape(l: Lists, t: Tid)
    requires t in l.place
    ensures Unlinked(l, t).place == l.place[t := Nowhere] && Unlinked(l, t).at.Keys == l.at.Keys
    ensures forall x :: x in l.at && x != l.place[t] ==> Unlinked(l, t).at[x] == l.at[x]
  {
    hide Removed;
  }

  // ------------------------------------------------------------ chain shapes

  lemma ChainAt(x: Place, q: seq<Tid>)
    ensures var c := Chain(x, q);
            |c| == |q| + 1 && c[0] == Head(x) && forall i :: 0 <= i < |q| ==> c[i + 1] == NodeOf(q[i])
  {
  }

  lemma ChainNode(x: Place, q: seq<Tid>, i: nat)
    requires i <= |q|
    ensures |Chain(x, q)| == |q| + 1 && Chain(x, q)[i] == if i == 0 then Head(x) else NodeOf(q[i - 1])
  {
  }

  lemma InChain(x: Place, q: seq<Tid>, n: Node)
    ensures n in Chain(x, q) <==> n == Head(x) || exists t :: t in q && n == NodeOf(t)
  {
    var c := Chain(x, q);
    ChainAt(x, q);
    hide Chain, Head;
    if n in c {
      var i :| 0 <= i < |c| && c[i] == n;
      if i > 0 { assert c[i] == NodeOf(q[i - 1]) && q[i - 1] in q; }
    }
    if t :| t in q && n == NodeOf(t) {
      var i :| 0 <= i < |q| && q[i] == t;
      assert c[i + 1] == n;
    }
    if n == Head(x) { assert c[0] == n; }
  }

  lemma HeadsApart(x: Place, y: Place, t: Tid)
    requires x != Nowhere && y != Nowhere
    ensures Head(x) != NodeOf(t) && (Head(x) == Head(y) ==> x == y)
  {
    HeadParts(x);
    HeadParts(y);
    hide Head;
  }

  /** A head address tells the list. */
  lemma HeadParts(x: Place)
    requires x != Nowhere
    ensures Head(x) % 2 == 1
    ensures Head(x) % 6 == if x.Queue? then 1 else if x.Waiting? then 3 else 5
    ensures Head(x) / 6 == if x.Queue? then x.p else if x.Waiting? then x.o else 0
  {
  }

  /** Two lists share no node. */
  lemma ChainsApart(links: Links, l: Lists, x: Place, y: Place, n: Node)
    requires ListOk(links, l, x) && ListOk(links, l, y) && n in Chain(x, l.at[x]) && n in Chain(y, l.at[y])
    ensures x == y
  {
    hide Ring, Chain, Head, NodeOf;
    InChain(x, l.at[x], n);
    InChain(y, l.at[y], n);
    if n == Head(x) {
      HeadsApart(x, y, 0);
      forall t ensures n != NodeOf(t) { HeadsApart(x, y, t); }
    } else {
      var t :| t in l.at[x] && n == NodeOf(t);
      HeadsApart(y, x, t);
      var u :| u in l.at[y] && n == NodeOf(u);
      assert t == u by { NodeInjective(t, u); }
    }
  }

  lemma NodeInjective(t: Tid, u: Tid)
    ensures NodeOf(t) == NodeOf(u) <==> t == u
  {
  }

  /** The node of a thread is in the list at x exactly if the thread is. */
  lemma NodeInList(links: Links, l: Lists, x: Place, t: Tid)
    requires ListOk(links, l, x)
    ensures NodeOf(t) in Chain(x, l.at[x]) <==> At(l, t, x)
  {
    hide Ring, Chain, Head, NodeOf;
    InChain(x, l.at[x], NodeOf(t));
    HeadsApart(x, x, t);
    if u :| u in l.at[x] && NodeOf(t) == NodeOf(u) { NodeInjective(t, u); }
  }

  lemma RemovedAt(q: seq<Tid>, i: nat, j: nat)
    requires i < |q| && Distinct(q) && j < |q| - 1
    ensures |Removed(q, q[i])| == |q| - 1 && Removed(q, q[i])[j] == if j < i then q[j] else q[j + 1]
  {
    RemovedIs(q, i);
  }

  lemma ChainDistinct(links: Links, x: Place, q: seq<Tid>)
    requires Ring(links, Chain(x, q))
    ensures Distinct(q)
  {
    ChainAt(x, q);
    var c := Chain(x, q);
    hide Chain, Head;
    forall i, j | 0 <= i < j < |q| ensures q[i] != q[j] { assert c[i + 1] != c[j + 1]; }
  }

  lemma ChainWithout(x: Place, q: seq<Tid>, i: nat)
    requires i < |q| && Distinct(q)
    ensures i + 1 < |Chain(x, q)| && Without(Chain(x, q), i + 1) == Chain(x, Removed(q, q[i]))
  {
    RemovedIs(q, i);
    hide *;
    var r := Removed(q, q[i]);
    ChainNode(x, q, i + 1);
    ChainNode(x, r, 0);
    var w, c := Without(Chain(x, q), i + 1), Chain(x, r);
    forall j | 0 <= j < |c| ensures w[j] == c[j] {
      ChainNode(x, r, j);
      ChainNode(x, q, if j > i then j + 1 else j);
      if j > 0 {
        RemovedAt(q, i, j - 1);
      }
    }
  }

  lemma ChainWith(x: Place, q: seq<Tid>, k: nat, t: Tid)
    requires k <= |q|
    ensures k < |Chain(x, q)| && Rings.With(Chain(x, q), k, NodeOf(t)) == Chain(x, InsertAt(q, k, t))
  {
    hide Chain, NodeOf, Head;
    var r := InsertAt(q, k, t);
    ChainNode(x, q, 0);
    ChainNode(x, r, 0);
    WithAt(Chain(x, q), k, NodeOf(t));
    var w, c := Rings.With(Chain(x, q), k, NodeOf(t)), Chain(x, r);
    hide Rings.With;
    forall j | 0 <= j < |c| ensures w[j] == c[j] {
      ChainNode(x, r, j);
      if j <= k {
        ChainNode(x, q, j);
      } else if j > k + 1 {
        ChainNode(x, q, j - 1);
        assert r[j - 1] == q[j - 2];
      } else {
        assert r[k] == t;
      }
    }
  }

  // ----------------------------------------------------------------- removing

  lemma RemoveOutside(links: Links, ns: seq<Node>, k: nat, z: Node)
    requires Ring(links, ns) && k < |ns| && z !in ns && z in links.next && z in links.prev
    ensures ns[k] in links.next && ns[k] in links.prev
    ensures var l' := Remove(links, ns[k]);
            z in l'.next && z in l'.prev && l'.next[z] == links.next[z] && l'.prev[z] == links.prev[z]
  {
    assert Joined(links, ns, k);
    assert Succ(ns, k) in ns && Pred(ns, k) in ns && ns[k] in ns;
  }

  lemma RemoveAlone(links: Links, n: Node)
    requires Ring(links, [n])
    ensures n in links.next && n in links.prev && Remove(links, n) == links
  {
    assert Joined(links, [n], 0);
    assert links.next[n := n] == links.next && links.prev[n := n] == links.prev;
  }

  /** A ring that shares no node with the one a node is taken from stays a ring. */
  lemma RemoveElsewhere(links: Links, ns: seq<Node>, k: nat, ms: seq<Node>)
    requires Ring(links, ns) && k < |ns| && Ring(links, ms) && forall z :: z in ms ==> z !in ns
    ensures ns[k] in links.next && ns[k] in links.prev && Ring(Remove(links, ns[k]), ms)
  {
    assert Joined(links, ns, k);
    var l' := Remove(links, ns[k]);
    forall z | z in ms && z in links.next && z in links.prev
      ensures z in l'.next && z in l'.prev && l'.next[z] == links.next[z] && l'.prev[z] == links.prev[z]
    {
      RemoveOutside(links, ns, k, z);
    }
    hide Remove;
    RingFrame(links, l', ms);
  }

  lemma PlaceIndex(links: Links, l: Lists, t: Tid) returns (i: nat)
    requires Rep(links, l) && t in l.place && l.place[t] != Nowhere
    ensures ListOk(links, l, l.place[t])
    ensures i < |l.at[l.place[t]]| && l.at[l.place[t]][i] == t
    ensures Distinct(l.at[l.place[t]])
    ensures i + 1 < |Chain(l.place[t], l.at[l.place[t]])| && Chain(l.place[t], l.at[l.place[t]])[i + 1] == NodeOf(t)
  {
    hide Ring;
    assert NodeOk(links, l, t);
    var x := l.place[t];
    assert ListOk(links, l, x);
    assert t in l.at[x];
    i :| 0 <= i < |l.at[x]| && l.at[x][i] == t;
    ChainAt(x, l.at[x]);
    ChainDistinct(links, x, l.at[x]);
  }

  /** rt_list_remove of a thread's node takes the thread out of its list and changes
      no other list, whatever list that is. */
  lemma UnlinkRep(links: Links, l: Lists, t: Tid)
    requires Rep(links, l) && t in l.place
    ensures NodeOf(t) in links.next && NodeOf(t) in links.prev
    ensures Rep(Remove(links, NodeOf(t)), Unlinked(l, t))
  {
    var x := l.place[t];
    hide Remove, Ring, Chain, NodeOf, Head, Removed;
    assert NodeOk(links, l, t);
    if x == Nowhere {
      RemoveAlone(links, NodeOf(t));
      assert Nowhere in l.at ==> ListOk(links, l, Nowhere);
      assert l.place[t := Nowhere] == l.place;
    } else {
      var i := PlaceIndex(links, l, t);
      RemoveRing(links, Chain(x, l.at[x]), i + 1);
      var links', l' := Remove(links, NodeOf(t)), Unlinked(l, t);
      forall y | y in l'.at ensures ListOk(links', l', y) {
        UnlinkList(links, l, t, i, y);
      }
      forall u | u in l'.place ensures NodeOk(links', l', u) {
        UnlinkNode(links, l, t, i, u);
      }
    }
  }

  lemma UnlinkList(links: Links, l: Lists, t: Tid, i: nat, y: Place)
    requires Rep(links, l) && t in l.place && y in l.at
    requires l.place[t] != Nowhere && ListOk(links, l, l.place[t]) && i < |l.at[l.place[t]]| && l.at[l.place[t]][i] == t
    requires NodeOf(t) in links.next && NodeOf(t) in links.prev
    ensures ListOk(Remove(links, NodeOf(t)), Unlinked(l, t), y)
  {
    var x, q := l.place[t], l.at[l.place[t]];
    hide Remove, Ring, Chain, NodeOf, Head, Removed;
    if y == x {
      UnlinkOwn(links, l, t, i);
    } else {
      assert ListOk(links, l, y);
      UnlinkOther(links, l, t, i, y);
      forall u ensures At(Unlinked(l, t), u, y) <==> At(l, u, y) { }
    }
  }

  lemma UnlinkOwn(links: Links, l: Lists, t: Tid, i: nat)
    requires t in l.place && ListOk(links, l, l.place[t]) && i < |l.at[l.place[t]]| && l.at[l.place[t]][i] == t
    ensures NodeOf(t) in links.next && NodeOf(t) in links.prev
    ensures ListOk(Remove(links, NodeOf(t)), Unlinked(l, t), l.place[t])
  {
    var x, q := l.place[t], l.at[l.place[t]];
    hide Remove, Ring, Chain, NodeOf, Head, Removed;
    ChainNode(x, q, i + 1);
    ChainDistinct(links, x, q);
    ChainWithout(x, q, i);
    RemoveRing(links, Chain(x, q), i + 1);
    RemovedMembers(q, t);
    forall u ensures At(Unlinked(l, t), u, x) <==> At(l, u, x) && u != t { }
  }

  lemma UnlinkOther(links: Links, l: Lists, t: Tid, i: nat, y: Place)
    requires t in l.place && ListOk(links, l, l.place[t]) && i < |l.at[l.place[t]]| && l.at[l.place[t]][i] == t
    requires ListOk(links, l, y) && y != l.place[t]
    ensures NodeOf(t) in links.next && NodeOf(t) in links.prev
    ensures Ring(Remove(links, NodeOf(t)), Chain(y, l.at[y]))
  {
    var x, q := l.place[t], l.at[l.place[t]];
    hide Remove, Ring, Chain, NodeOf, Head;
    ChainNode(x, q, i + 1);
    forall z | z in Chain(y, l.at[y]) ensures z !in Chain(x, q) {
      if z in Chain(x, q) { ChainsApart(links, l, x, y, z); }
    }
    RemoveElsewhere(links, Chain(x, q), i + 1, Chain(y, l.at[y]));
  }

  lemma UnlinkNode(links: Links, l: Lists, t: Tid, i: nat, u: Tid)
    requires Rep(links, l) && t in l.place && u in l.place
    requires l.place[t] != Nowhere && ListOk(links, l, l.place[t]) && i < |l.at[l.place[t]]| && l.at[l.place[t]][i] == t
    requires NodeOf(t) in links.next && NodeOf(t) in links.prev
    ensures NodeOk(Remove(links, NodeOf(t)), Unlinked(l, t), u)
  {
    var x, q := l.place[t], l.at[l.place[t]];
    hide Remove, Ring, Chain, NodeOf, Head, Removed;
    ChainAt(x, q);
    assert NodeOk(links, l, u);
    if u == t {
      RemoveRing(links, Chain(x, q), i + 1);
    } else if l.place[u] == Nowhere {
      NodeInList(links, l, x, u);
      RemoveElsewhere(links, Chain(x, q), i + 1, [NodeOf(u)]);
    }
  }

  // ---------------------------------------------------------------- inserting

  lemma InsertOutside(links: Links, ns: seq<Node>, k: nat, n: Node, z: Node)
    requires Ring(links, ns) && k < |ns| && z !in ns && z != n && z in links.next && z in links.prev
    ensures ns[k] in links.next
    ensures var l' := InsertAfter(links, ns[k], n);
            z in l'.next && z in l'.prev && l'.next[z] == links.next[z] && l'.prev[z] == links.prev[z]
  {
    assert Joined(links, ns, k);
    assert Succ(ns, k) in ns && ns[k] in ns;
  }

  lemma InsertElsewhere(links: Links, ns: seq<Node>, k: nat, n: Node, ms: seq<Node>)
    requires Ring(links, ns) && k < |ns| && Ring(links, ms) && n !in ms && forall z :: z in ms ==> z !in ns
    ensures ns[k] in links.next && Ring(InsertAfter(links, ns[k], n), ms)
  {
    assert Joined(links, ns, k);
    var l' := InsertAfter(links, ns[k], n);
    forall z | z in ms && z in links.next && z in links.prev
      ensures z in l'.next && z in l'.prev && l'.next[z] == links.next[z] && l'.prev[z] == links.prev[z]
    {
      InsertOutside(links, ns, k, n, z);
    }
    hide InsertAfter;
    RingFrame(links, l', ms);
  }

  /** Inserting a lone node behind the head or the k-th member of a list puts the
      thread there and changes no other list. */
  lemma LinkAfterRep(links: Links, l: Lists, t: Tid, x: Place, k: nat)
    requires Rep(links, l) && At(l, t, Nowhere) && x in l.at && k <= |l.at[x]|
    ensures k < |Chain(x, l.at[x])| && Chain(x, l.at[x])[k] in links.next
    ensures Rep(InsertAfter(links, Chain(x, l.at[x])[k], NodeOf(t)), Linked(l, t, x, k))
  {
    hide InsertAfter, Ring, Chain, NodeOf, Head, InsertAt;
    var q := l.at[x];
    ChainAt(x, q);
    assert ListOk(links, l, x);
    LinkList(links, l, t, x, k, x);
    var links', l' := InsertAfter(links, Chain(x, q)[k], NodeOf(t)), Linked(l, t, x, k);
    forall y | y in l'.at ensures ListOk(links', l', y) {
      LinkList(links, l, t, x, k, y);
    }
    forall u | u in l'.place ensures NodeOk(links', l', u) {
      if u in l.place && u != t {
        assert NodeOk(links, l, u);
        if l.place[u] == Nowhere {
          NodeInList(links, l, x, u);
          NodeInjective(t, u);
          InsertElsewhere(links, Chain(x, q), k, NodeOf(t), [NodeOf(u)]);
        }
      }
    }
  }

  lemma LinkList(links: Links, l: Lists, t: Tid, x: Place, k: nat, y: Place)
    requires Rep(links, l) && At(l, t, Nowhere) && x in l.at && k <= |l.at[x]| && y in l.at
    ensures k < |Chain(x, l.at[x])| && Chain(x, l.at[x])[k] in links.next
    ensures ListOk(InsertAfter(links, Chain(x, l.at[x])[k], NodeOf(t)), Linked(l, t, x, k), y)
  {
    var q := l.at[x];
    hide InsertAfter, Ring, Chain, NodeOf, Head, InsertAt;
    ChainAt(x, q);
    assert ListOk(links, l, x) && ListOk(links, l, y);
    NodeInList(links, l, x, t);
    NodeInList(links, l, y, t);
    InsertAfterRing(links, Chain(x, q), k, NodeOf(t));
    if y == x {
      ChainWith(x, q, k, t);
      ChainDistinct(links, x, q);
      InsertAtMembers(q, k, t);
    } else {
      forall z | z in Chain(y, l.at[y]) ensures z !in Chain(x, q) {
        if z in Chain(x, q) { ChainsApart(links, l, x, y, z); }
      }
      InsertElsewhere(links, Chain(x, q), k, NodeOf(t), Chain(y, l.at[y]));
    }
  }

  /** The node that stands k members into the list at x; the head behind the last. */
  function NodeAt(l: Lists, x: Place, k: nat): Node
    requires x in l.at
  {
    if k < |l.at[x]| then NodeOf(l.at[x][k]) else Head(x)
  }

  /** Inserting a lone node before that node. */
  lemma LinkBeforeRep(links: Links, l: Lists, t: Tid, x: Place, k: nat)
    requires Rep(links, l) && At(l, t, Nowhere) && x in l.at && k <= |l.at[x]|
    ensures NodeAt(l, x, k) in links.prev
    ensures Rep(InsertBefore(links, NodeAt(l, x, k), NodeOf(t)), Linked(l, t, x, k))
  {
    hide InsertAfter, InsertBefore, Ring, Chain, NodeOf, Head, InsertAt;
    var q := l.at[x];
    ChainAt(x, q);
    assert ListOk(links, l, x);
    NodeInList(links, l, x, t);
    LinkAfterRep(links, l, t, x, k);
    InsertBeforeIs(links, Chain(x, q), if k < |q| then k + 1 else 0, NodeOf(t));
  }

  // --------------------------------------------------------------- uniqueness

  lemma {:induction false} SameUpTo(links: Links, ns: seq<Node>, ms: seq<Node>, i: nat)
    requires Ring(links, ns) && Ring(links, ms) && ns[0] == ms[0] && i < |ns| && i < |ms|
    ensures ns[i] == ms[i]
  {
    if i > 0 {
      SameUpTo(links, ns, ms, i - 1);
      assert Joined(links, ns, i - 1) && Joined(links, ms, i - 1);
    }
  }

  lemma NotShorter(links: Links, ns: seq<Node>, ms: seq<Node>)
    requires Ring(links, ns) && Ring(links, ms) && ns[0] == ms[0]
    ensures |ns| >= |ms|
  {
    var i := |ns| - 1;
    if i < |ms| {
      SameUpTo(links, ns, ms, i);
      assert Joined(links, ns, i) && Joined(links, ms, i);
      assert Succ(ms, i) == ms[0];
    }
  }

  /** A ring is determined by its first node. */
  lemma RingUnique(links: Links, ns: seq<Node>, ms: seq<Node>)
    requires Ring(links, ns) && Ring(links, ms) && ns[0] == ms[0]
    ensures ns == ms
  {
    NotShorter(links, ns, ms);
    NotShorter(links, ms, ns);
    forall i | 0 <= i < |ns| ensures ns[i] == ms[i] { SameUpTo(links, ns, ms, i); }
  }

  lemma SamePlace(links: Links, l: Lists, l': Lists, t: Tid, x: Place)
    requires Rep(links, l) && Rep(links, l') && l.at == l'.at && At(l, t, x) && x in l.at
    ensures At(l', t, x)
  {
    hide Ring, Chain;
    assert ListOk(links, l, x) && ListOk(links, l', x);
    assert t in l.at[x];
  }

  /** The links determine the lists. */
  lemma RepUnique(links: Links, l: Lists, l': Lists)
    requires Rep(links, l) && Rep(links, l') && l.place.Keys == l'.place.Keys && l.at.Keys == l'.at.Keys
    ensures l == l'
  {
    hide Ring, Chain, NodeOf, Head;
    forall x | x in l.at ensures l.at[x] == l'.at[x] {
      assert x in l'.at.Keys;
      SameList(links, l, l', x);
    }
    assert l.at == l'.at;
    forall t | t in l.place ensures l.place[t] == l'.place[t] {
      assert t in l'.place.Keys;
      assert NodeOk(links, l, t) && NodeOk(links, l', t);
      if l.place[t] != Nowhere {
        SamePlace(links, l, l', t, l.place[t]);
      } else if l'.place[t] != Nowhere {
        assert l'.place[t] in l.at.Keys;
        SamePlace(links, l', l, t, l'.place[t]);
      }
    }
    assert l.place == l'.place;
  }

  lemma SameList(links: Links, l: Lists, l': Lists, x: Place)
    requires Rep(links, l) && Rep(links, l') && x in l.at && x in l'.at
    ensures l.at[x] == l'.at[x]
  {
    hide Ring, Head, NodeOf;
    assert ListOk(links, l, x) && ListOk(links, l', x);
    var q, q' := l.at[x], l'.at[x];
    ChainAt(x, q);
    ChainAt(x, q');
    var c, c' := Chain(x, q), Chain(x, q');
    hide Chain;
    RingUnique(links, c, c');
    forall i | 0 <= i < |q| ensures q[i] == q'[i] {
      assert c[i + 1] == NodeOf(q[i]) && c'[i + 1] == NodeOf(q'[i]);
      NodeInjective(q[i], q'[i]);
    }
  }

  // -------------------------------------------------------------- corruption

  /** The node is a list head or belongs to a thread. */
  ghost predicate IsNode(l: Lists, n: Node) {
    (exists x :: x in l.at && n == Head(x)) || exists t :: t in l.place && n == NodeOf(t)
  }

  /** Both neighbours of a node point back at it. */
  ghost predicate Mutual(links: Links, n: Node) {
    n in links.next && links.next[n] in links.prev && links.prev[links.next[n]] == n
    && n in links.prev && links.prev[n] in links.next && links.next[links.prev[n]] == n
  }

  lemma RingMutual(links: Links, ns: seq<Node>, k: nat)
    requires Ring(links, ns) && k < |ns|
    ensures Mutual(links, ns[k])
  {
    assert Joined(links, ns, k);
    assert Joined(links, ns, if k + 1 < |ns| then k + 1 else 0);
    assert Joined(links, ns, if k > 0 then k - 1 else |ns| - 1);
  }

  lemma NodeMutual(links: Links, l: Lists, n: Node)
    requires Rep(links, l) && IsNode(l, n)
    ensures Mutual(links, n)
  {
    hide Ring, Chain, Head, NodeOf;
    if x :| x in l.at && n == Head(x) {
      assert ListOk(links, l, x);
      ChainAt(x, l.at[x]);
      RingMutual(links, Chain(x, l.at[x]), 0);
    } else {
      var t :| t in l.place && n == NodeOf(t);
      assert NodeOk(links, l, t);
      if l.place[t] == Nowhere {
        RingMutual(links, [n], 0);
      } else {
        var i := PlaceIndex(links, l, t);
        RingMutual(links, Chain(l.place[t], l.at[l.place[t]]), i + 1);
      }
    }
  }

  lemma NeighbourIsNode(links: Links, l: Lists, t: Tid)
    requires Rep(links, l) && t in l.place
    ensures Mutual(links, NodeOf(t)) && IsNode(l, links.next[NodeOf(t)]) && IsNode(l, links.prev[NodeOf(t)])
  {
    hide Ring, Chain, Head, NodeOf;
    NodeMutual(links, l, NodeOf(t));
    assert NodeOk(links, l, t);
    var n := NodeOf(t);
    if l.place[t] == Nowhere {
      assert links.next[n] == n && links.prev[n] == n by { RingOne(links, n); }
    } else {
      var i := PlaceIndex(links, l, t);
      var c := Chain(l.place[t], l.at[l.place[t]]);
      ChainAt(l.place[t], l.at[l.place[t]]);
      RingNext(links, c, i + 1);
      ChainIsNodes(links, l, l.place[t], links.next[n]);
      ChainIsNodes(links, l, l.place[t], links.prev[n]);
    }
  }

  lemma RingOne(links: Links, n: Node)
    requires Ring(links, [n])
    ensures n in links.next && n in links.prev && links.next[n] == n && links.prev[n] == n
  {
    assert Joined(links, [n], 0);
  }

  lemma RingNext(links: Links, ns: seq<Node>, k: nat)
    requires Ring(links, ns) && k < |ns|
    ensures ns[k] in links.next && links.next[ns[k]] in ns && ns[k] in links.prev && links.prev[ns[k]] in ns
    ensures |ns| > 1 ==> links.next[ns[k]] != ns[k]
  {
    assert Joined(links, ns, k);
  }

  lemma ChainIsNodes(links: Links, l: Lists, x: Place, n: Node)
    requires ListOk(links, l, x) && n in Chain(x, l.at[x])
    ensures IsNode(l, n)
  {
    hide Ring, Chain, Head, NodeOf;
    InChain(x, l.at[x], n);
    if n != Head(x) {
      var t :| t in l.at[x] && n == NodeOf(t);
      assert At(l, t, x);
    }
  }

  /** A thread's node points at itself exactly if it is in no list. */
  lemma AloneIff(links: Links, l: Lists, t: Tid)
    requires Rep(links, l) && t in l.place
    ensures NodeOf(t) in links.next && (links.next[NodeOf(t)] == NodeOf(t) <==> l.place[t] == Nowhere)
  {
    hide Ring, Chain, Head, NodeOf;
    assert NodeOk(links, l, t);
    if l.place[t] == Nowhere {
      RingOne(links, NodeOf(t));
    } else {
      var i := PlaceIndex(links, l, t);
      ChainAt(l.place[t], l.at[l.place[t]]);
      RingNext(links, Chain(l.place[t], l.at[l.place[t]]), i + 1);
    }
  }

  /** A list is empty exactly if its head points at itself. */
  lemma ListEmptyIff(links: Links, l: Lists, x: Place)
    requires Rep(links, l) && x in l.at
    ensures Head(x) in links.next && (links.next[Head(x)] == Head(x) <==> l.at[x] == [])
  {
    hide Ring, Chain, Head, NodeOf;
    assert ListOk(links, l, x);
    ChainAt(x, l.at[x]);
    EmptyIff(links, Chain(x, l.at[x]));
  }

  /** Inserting a node that is still in a list ruins the links for good: they are
      then those of no lists whatever. */
  lemma InsertBeforeRuins(links: Links, l: Lists, t: Tid, a: Node, l': Lists)
    requires Rep(links, l) && t in l.place && l.place[t] != Nowhere && IsNode(l, a) && a != NodeOf(t)
    requires l'.place.Keys == l.place.Keys && l'.at.Keys == l.at.Keys
    ensures a in links.prev && !Rep(InsertBefore(links, a, NodeOf(t)), l')
  {
    hide Rep, Head, NodeOf;
    var n := NodeOf(t);
    AloneIff(links, l, t);
    NeighbourIsNode(links, l, t);
    NodeMutual(links, l, a);
    var m, links' := links.prev[n], InsertBefore(links, a, n);
    assert links.next[m] == n && m != n;
    assert links'.next[m] == n && links'.prev[n] == links.prev[a] != m;
    SameNodes(l, l', m);
    if Rep(links', l') { NodeMutual(links', l', m); }
  }

  lemma InsertAfterRuins(links: Links, l: Lists, t: Tid, a: Node, l': Lists)
    requires Rep(links, l) && t in l.place && l.place[t] != Nowhere && IsNode(l, a) && a != NodeOf(t)
    requires l'.place.Keys == l.place.Keys && l'.at.Keys == l.at.Keys
    ensures a in links.next && !Rep(InsertAfter(links, a, NodeOf(t)), l')
  {
    hide Rep, Head, NodeOf;
    var n := NodeOf(t);
    AloneIff(links, l, t);
    NeighbourIsNode(links, l, t);
    NodeMutual(links, l, a);
    var m, links' := links.next[n], InsertAfter(links, a, n);
    assert links.prev[m] == n && m != n;
    assert links'.prev[m] == n && links'.next[n] == links.next[a] != m;
    SameNodes(l, l', m);
    if Rep(links', l') { NodeMutual(links', l', m); }
  }

  lemma SameNodes(l: Lists, l': Lists, n: Node)
    requires IsNode(l, n) && l'.place.Keys == l.place.Keys && l'.at.Keys == l.at.Keys
    ensures IsNode(l', n)
  {
    hide Head, NodeOf;
    if x :| x in l.at && n == Head(x) {
      assert x in l'.at.Keys;
    } else {
      var t :| t in l.place && n == NodeOf(t);
      assert t in l'.place.Keys;
    }
  }

  // -------------------------------------------------------------- new threads

  /** A new thread's node, linked to itself. */
  lemma AloneRep(links: Links, l: Lists, t: Tid)
    requires Rep(links, l) && t !in l.place
    ensures Rep(Rings.Alone(links, NodeOf(t)), l.(place := l.place[t := Nowhere]))
  {
    hide Ring, Chain, NodeOf, Head, Rings.Alone;
    var links', l' := Rings.Alone(links, NodeOf(t)), l.(place := l.place[t := Nowhere]);
    forall x | x in l'.at ensures ListOk(links', l', x) {
      assert ListOk(links, l, x);
      NodeInList(links, l, x, t);
      AloneElsewhere(links, NodeOf(t), Chain(x, l.at[x]));
      forall u ensures At(l', u, x) <==> At(l, u, x) { }
    }
    forall u | u in l'.place ensures NodeOk(links', l', u) {
      if u == t {
        AloneRing(links, NodeOf(t));
      } else {
        assert NodeOk(links, l, u);
        NodeInjective(t, u);
        if l.place[u] == Nowhere { AloneElsewhere(links, NodeOf(t), [NodeOf(u)]); }
      }
    }
  }

  lemma AloneRing(links: Links, n: Node)
    ensures Ring(Rings.Alone(links, n), [n])
  {
    assert Joined(Rings.Alone(links, n), [n], 0);
  }

  lemma AloneElsewhere(links: Links, n: Node, ns: seq<Node>)
    requires Ring(links, ns) && n !in ns
    ensures Ring(Rings.Alone(links, n), ns)
  {
    RingFrame(links, Rings.Alone(links, n), ns);
  }
}

/** What each thread call of thread.c does, said of the thread table, the timers and the
    lists that the links stand for, without the functions that do it. */
module ThreadCalls {
  import opened Basics
  import opened Rings
  import opened WaitList
  import opened ReadyBits
  import opened ThreadLists
  import opened Queues
  import opened Threads

  // --------------------------------------------------------- what may be said

  /** No thread but t is changed in any way, and the same thread runs. */
  ghost predicate OnlyThread(k: State, k': State, t: Tid) {
    k'.current == k.current
    && (forall u :: u != t ==> (u in k'.threads <==> u in k.threads) && (u in k'.timers <==> u in k.timers))
    && (forall u :: u != t && u in k.threads && u in k'.threads ==> k'.threads[u] == k.threads[u])
  }

  /** The other threads stand as they stood, in every list in the same order. */
  ghost predicate OthersStay(l: Lists, l': Lists, t: Tid) {
    l'.at.Keys == l.at.Keys && forall x :: x in l.at ==> Removed(l'.at[x], t) == Removed(l.at[x], t)
  }

  /** Thread t is in this list and in no other. */
  ghost predicate StandsIn(l: Lists, t: Tid, x: Place) {
    forall y :: y in l.at ==> (t in l.at[y] <==> y == x)
  }

  /** It is the last of its list, behind everybody who was there. */
  ghost predicate AtEnd(l: Lists, l': Lists, t: Tid, x: Place) {
    x in l.at && x in l'.at && l'.at[x] == Removed(l.at[x], t) + [t] && StandsIn(l', t, x)
  }

  /** It is in a wait list: at the end, or behind everybody as urgent and before the first
      less urgent. */
  ghost predicate WaitsAt(k: State, l: Lists, l': Lists, t: Tid, o: Obj, flag: Flag, j: nat) {
    t in k.threads && Waiting(o) in l.at && Waiting(o) in l'.at && j <= |l.at[Waiting(o)]|
    && l'.at[Waiting(o)] == InsertAt(l.at[Waiting(o)], j, t) && StandsIn(l', t, Waiting(o))
    && var q := l.at[Waiting(o)];
       if flag.Fifo? then j == |q|
       else
         (forall i :: 0 <= i < j ==> q[i] in k.threads && k.threads[q[i]].prio <= k.threads[t].prio)
         && (j < |q| ==> q[j] in k.threads && k.threads[t].prio < k.threads[q[j]].prio)
  }

  ghost predicate Joins(k: State, l: Lists, l': Lists, t: Tid, o: Obj, flag: Flag) {
    exists j :: WaitsAt(k, l, l', t, o, flag, j)
  }

  /** Thread t as it was but for its status. */
  predicate Turned(k: State, k': State, t: Tid, stat: Stat) {
    t in k.threads && t in k'.threads && k'.threads[t].stat == stat
    && k'.threads[t].prio == k.threads[t].prio && k'.threads[t].init == k.threads[t].init
  }

  /** It is READY, its timer is off, and it is the last of the queue of its priority. */
  ghost predicate Awake(k: State, l: Lists, k': State, l': Lists, t: Tid) {
    Turned(k, k', t, Ready) && t !in k'.timers && !k'.threads[t].timed && AtEnd(l, l', t, Queue(k.threads[t].prio))
  }

  /** The thread table, the timers and the current thread are as they were. */
  predicate SameThreads(k: State, k': State) {
    k'.threads == k.threads && k'.timers == k.timers && k'.current == k.current && k'.closed == k.closed
  }

  // --------------------------------------------------------------- the calls

  /** The thread a section is about; the calling thread where no other is named. */
  function Subject(k: State, e: Event): Tid {
    match e
    case Create(t, _) => t
    case Startup(t) => t
    case ResumeTest(_, t) => t
    case ResumeFirst(c) => if c in k.calls then k.calls[c].t else k.current
    case ResumeSecond(c) => if c in k.calls then k.calls[c].t else k.current
    case SuspendTest(_, t) => t
    case SuspendSecond(c) => if c in k.calls then k.calls[c].t else k.current
    case Wake(t) => t
    case Timeout(t) => t
    case SetPriority(t, _) => t
    case DeleteFirst(_, t, _) => t
    case DetachTimer(c) => if c in k.calls then k.calls[c].t else k.current
    case MarkClosed(c) => if c in k.calls then k.calls[c].t else k.current
    case LinkDefunct(c) => if c in k.calls then k.calls[c].t else k.current
    case _ => k.current
  }

  /** What a section does to its thread. */
  ghost predicate Does(k: State, l: Lists, k': State, l': Lists, e: Event) {
    var t := Subject(k, e);
    match e
    case Create(_, prio) =>
      t in k'.threads && k'.threads[t].stat == Init && k'.threads[t].prio == prio == k'.threads[t].init
      && (forall x :: x in l'.at ==> t !in l'.at[x])
    case Startup(_) =>
      t in k.threads && t in k'.threads && k'.threads[t].stat == Suspend
      && k'.threads[t].prio == k.threads[t].init == k'.threads[t].init && l' == l
    case ResumeFirst(_) =>
      t in k.threads && Turned(k, k', t, k.threads[t].stat) && t !in k'.timers && !k'.threads[t].timed
      && StandsIn(l', t, Nowhere) && k'.calls == k.calls[e.c := Resuming(t)]
    case ResumeSecond(c) => Awake(k, l, k', l', t) && k'.calls == k.calls - {c}
    case SuspendSecond(c) =>
      Turned(k, k', t, Suspend) && (t in k'.timers <==> t in k.timers) && StandsIn(l', t, Nowhere)
      && k'.calls == k.calls - {c}
    case Wake(_) => Awake(k, l, k', l', t)
    case Timeout(_) => Awake(k, l, k', l', t)
    case Block(o, flag, timed) =>
      Turned(k, k', t, Suspend) && (t in k'.timers <==> timed) && Joins(k, l, l', t, o, flag)
    case Sleep => Turned(k, k', t, Suspend) && t in k'.timers && StandsIn(l', t, Nowhere)
    case Yield => t in k.threads && SameThreads(k, k') && AtEnd(l, l', t, Queue(k.threads[t].prio))
    case SetPriority(_, p) =>
      t in k.threads && t in k'.threads && k'.threads[t] == k.threads[t].(prio := p)
      && (t in k'.timers <==> t in k.timers)
      && if k.threads[t].stat == Ready then AtEnd(l, l', t, Queue(p)) else l' == l
    case Exit(keep) =>
      Turned(k, k', t, Closed) && t !in k'.timers
      && StandsIn(l', t, if keep then Defunct else Nowhere)
      && (keep ==> Defunct in l.at && Defunct in l'.at && l'.at[Defunct] == [t] + l.at[Defunct])
    case DeleteFirst(c, _, keep) =>
      t in k.threads && Turned(k, k', t, k.threads[t].stat) && StandsIn(l', t, Nowhere)
      && k'.calls == k.calls[c := Deleting(t, OffList, keep)]
    case DetachTimer(c) =>
      t in k.threads && Turned(k, k', t, k.threads[t].stat) && t !in k'.timers && l' == l
      && c in k.calls && k.calls[c].Deleting? && k'.calls == k.calls[c := Deleting(t, OffTimers, k.calls[c].keep)]
    case MarkClosed(c) =>
      Turned(k, k', t, Closed) && l' == l && c in k.calls && k.calls[c].Deleting?
      && k'.calls == if k.calls[c].keep then k.calls[c := Deleting(t, Marked, true)] else k.calls - {c}
    case LinkDefunct(c) =>
      k'.threads == k.threads && Defunct in l.at && Defunct in l'.at && l'.at[Defunct] == [t] + l.at[Defunct]
      && k'.calls == k.calls - {c}
    case Reclaim =>
      SameThreads(k, k') && Defunct in l.at && Defunct in l'.at && l.at[Defunct] != []
      && l'.at[Defunct] == l.at[Defunct][1..]
    case EnterCritical => SameThreads(k, k') && l' == l && k'.locks == k.locks + 1
    case ExitCritical =>
      SameThreads(k, k') && l' == l && k'.locks == if k.locks > 0 then k.locks - 1 else 0
    case Schedule => k'.threads == k.threads && l' == l && (k.locks > 0 ==> k'.current == k.current)
    case ResumeTest(c, _) => SameThreads(k, k') && l' == l && k'.calls == k.calls[c := Tested(t)]
    case SuspendTest(c, _) => SameThreads(k, k') && l' == l && k'.calls == k.calls[c := Suspending(t)]
  }

  // ----------------------------------------------------------- list by list

  /** Where a thread is by the lists is where it is by its place. */
  lemma PlacedOnce(k: State, l: Lists, t: Tid)
    requires Inv(k, l) && t in k.threads
    ensures t in l.place && StandsIn(l, t, l.place[t])
  {
    hide BitsOk, Ring, Chain, Head;
    Known(k, l, t);
    forall x | x in l.at ensures t in l.at[x] <==> x == l.place[t] {
      assert ListOk(k.board.links, l, x);
      assert t in l.at[x] <==> At(l, t, x);
    }
  }

  /** The links of a good board stand for one set of lists. */
  lemma OneReading(k: State, l: Lists, l': Lists)
    requires Inv(k, l) && Inv(k, l')
    ensures l == l'
  {
    hide Rep, BitsOk, ThreadOk, CallOk, HasHead;
    assert forall x :: x in l.at <==> x in l'.at;
    assert l.at.Keys == l'.at.Keys;
    RepUnique(k.board.links, l, l');
  }

  lemma {:induction false} RemovedAbsent(q: seq<Tid>, t: Tid)
    requires t !in q
    ensures Removed(q, t) == q
  {
    if |q| > 0 {
      assert t !in q[1..];
      RemovedAbsent(q[1..], t);
    }
  }

  lemma InsertTail(q: seq<Tid>, j: nat, t: Tid)
    requires 0 < j <= |q|
    ensures InsertAt(q, j, t)[1..] == InsertAt(q[1..], j - 1, t)
  {
    assert q[..j] == [q[0]] + q[1..][..j - 1] && q[j..] == q[1..][j - 1..];
  }

  lemma {:induction false} RemovedInserted(q: seq<Tid>, j: nat, t: Tid)
    requires t !in q && j <= |q|
    ensures Removed(InsertAt(q, j, t), t) == q
  {
    var i := InsertAt(q, j, t);
    if j == 0 {
      assert i[1..] == q;
    } else {
      assert i[0] == q[0] && t !in q[1..];
      InsertTail(q, j, t);
      RemovedInserted(q[1..], j - 1, t);
      assert q == [q[0]] + q[1..];
    }
  }

  /** Taking a thread out is taking it out of every list. */
  lemma UnlinkedLists(l: Lists, t: Tid)
    requires t in l.place && StandsIn(l, t, l.place[t])
    ensures Unlinked(l, t).at.Keys == l.at.Keys
    ensures forall x :: x in l.at ==> Unlinked(l, t).at[x] == Removed(l.at[x], t)
  {
    hide Removed;
    forall x | x in l.at ensures Unlinked(l, t).at[x] == Removed(l.at[x], t) {
      if x != l.place[t] { RemovedAbsent(l.at[x], t); }
    }
  }

  /** Putting it into one list leaves the others. */
  lemma LinkedLists(l: Lists, t: Tid, x: Place, j: nat)
    requires x in l.at && j <= |l.at[x]| && forall y :: y in l.at ==> t !in l.at[y]
    ensures var l' := Linked(l, t, x, j);
            OthersStay(l, l', t) && l'.at[x] == InsertAt(l.at[x], j, t) && StandsIn(l', t, x)
  {
    hide Removed, InsertAt;
    var l' := Linked(l, t, x, j);
    forall y | y in l.at ensures Removed(l'.at[y], t) == Removed(l.at[y], t) {
      RemovedAbsent(l.at[y], t);
      if y == x { RemovedInserted(l.at[x], j, t); }
    }
    assert t in InsertAt(l.at[x], j, t) by { InsertedIn(l.at[x], j, t); }
  }

  lemma InsertedIn(q: seq<Tid>, j: nat, t: Tid)
    requires j <= |q|
    ensures t in InsertAt(q, j, t)
  {
    assert InsertAt(q, j, t)[j] == t;
  }

  /** Out of its list and into another. */
  lemma Moved(k: State, l: Lists, t: Tid, x: Place, j: nat)
    requires Inv(k, l) && t in k.threads && x in l.at && j <= |Removed(l.at[x], t)|
    ensures x in Unlinked(l, t).at && Unlinked(l, t).at[x] == Removed(l.at[x], t)
    ensures var l' := Linked(Unlinked(l, t), t, x, j);
            x in l'.at && l'.at[x] == InsertAt(Removed(l.at[x], t), j, t)
            && OthersStay(l, l', t) && StandsIn(l', t, x)
  {
    hide Inv, Removed, InsertAt, Linked;
    Gone(k, l, t);
    LinkedLists(Unlinked(l, t), t, x, j);
  }

  lemma Gone(k: State, l: Lists, t: Tid)
    requires Inv(k, l) && t in k.threads
    ensures var l1 := Unlinked(l, t);
            OthersStay(l, l1, t) && StandsIn(l1, t, Nowhere) && Nowhere !in l1.at
            && (forall x :: x in l.at ==> x in l1.at && l1.at[x] == Removed(l.at[x], t) && t !in l1.at[x])
  {
    hide Rep, BitsOk, ThreadOk, Removed, Unlinked;
    PlacedOnce(k, l, t);
    UnlinkedLists(l, t);
    var l1 := Unlinked(l, t);
    forall x | x in l.at ensures t !in l1.at[x] && Removed(l1.at[x], t) == Removed(l.at[x], t) {
      NotIn(k, l, x, t);
      RemovedAbsent(l1.at[x], t);
    }
    assert forall x :: x in l1.at ==> x in l.at.Keys;
    assert !HasHead(k.board, Nowhere);
  }

  lemma NotIn(k: State, l: Lists, x: Place, t: Tid)
    requires Inv(k, l) && x in l.at
    ensures t !in Removed(l.at[x], t)
  {
    hide BitsOk, ThreadOk, Ring, Chain, Head, CallOk;
    assert ListOk(k.board.links, l, x);
    ChainDistinct(k.board.links, x, l.at[x]);
    RemovedMembers(l.at[x], t);
  }

  // ------------------------------------------------------------ call by call

  /** To the end of a ready queue. */
  lemma ToQueue(k: State, l: Lists, t: Tid, p: nat)
    requires Inv(k, l) && t in k.threads && p < Levels(k.board.wide)
    ensures var l' := Queued(Unlinked(l, t), t, p); OthersStay(l, l', t) && AtEnd(l, l', t, Queue(p))
  {
    hide Rep, BitsOk, ThreadOk, Removed, Unlinked, StandsIn;
    assert HasHead(k.board, Queue(p));
    var q := Removed(l.at[Queue(p)], t);
    Moved(k, l, t, Queue(p), |q|);
    assert InsertAt(q, |q|, t) == q + [t];
  }

  lemma WakeDoes(k: State, l: Lists, t: Tid)
    requires Sane(k) && Inv(k, l) && t in k.threads
    ensures var k', l' := Woken(k, t), Queued(Unlinked(l, t), t, k.threads[t].prio);
            Awake(k, l, k', l', t) && OnlyThread(k, k', t) && OthersStay(l, l', t)
  {
    hide Inv, Put, Off, Unlinked, Queued, AtEnd, OthersStay, Kept;
    ToQueue(k, l, t, k.threads[t].prio);
  }

  /** The sections of a resume. */
  lemma ResumeDoes(k: State, l: Lists, e: Event)
    requires Sane(k) && Inv(k, l) && Enabled(k, e) && Lawful(k, e) && (e.ResumeFirst? || e.ResumeSecond?)
    ensures var k', l' := Step(k, e), ListStep(k, l, e);
            Does(k, l, k', l', e) && OnlyThread(k, k', Subject(k, e)) && OthersStay(l, l', Subject(k, e))
  {
    hide Put, Off, Unlinked, Queued, AtEnd, OthersStay, WellFormed, Inv, StandsIn, Lone, Dying;
    var t := k.calls[e.c].t;
    CallKnown(k, e.c);
    if e.ResumeFirst? {
      Gone(k, l, t);
    } else {
      LoneNowhere(k, l, t);
      NotListed(k, l, t);
      ToQueue(k, l, t, k.threads[t].prio);
    }
  }

  lemma NotListed(k: State, l: Lists, t: Tid)
    requires Inv(k, l) && t in k.threads
    ensures !k.threads[t].timed ==> t !in k.timers
  {
    hide BoardOk, Dying;
    Known(k, l, t);
  }

  lemma LoneNowhere(k: State, l: Lists, t: Tid)
    requires Inv(k, l) && t in k.threads && Lone(k, t)
    ensures Unlinked(l, t) == l
  {
    hide Rep, BitsOk, ThreadOk, Lone;
    LoneIff(k, l, t);
    assert !HasHead(k.board, Nowhere);
    assert l.place[t := Nowhere] == l.place;
  }

  /** The second section of a suspension. */
  lemma SuspendDoes(k: State, l: Lists, c: Ctx)
    requires Sane(k) && Inv(k, l) && Enabled(k, SuspendSecond(c))
    ensures var k', l', e := Step(k, SuspendSecond(c)), ListStep(k, l, SuspendSecond(c)), SuspendSecond(c);
            Does(k, l, k', l', e) && OnlyThread(k, k', Subject(k, e)) && OthersStay(l, l', Subject(k, e))
  {
    hide Taken, Unlinked, OthersStay, Kept, Inv, WellFormed, StandsIn, Started;
    CallKnown(k, c);
    Gone(k, l, k.calls[c].t);
  }

  /** The running thread has no timer in the list. */
  lemma NoTimer(k: State, l: Lists)
    requires Inv(k, l) && Running(k)
    ensures !k.threads[k.current].timed && k.current !in k.timers
  {
    hide BoardOk, Dying;
    Known(k, l, k.current);
  }

  /** A thread suspended, and its timer started if it has a time. */
  lemma TimedFields(k: State, k1: State, t: Tid, timed: bool)
    requires t in k.threads && !k.threads[t].timed && t !in k.timers
    requires k1.threads == k.threads[t := k.threads[t].(stat := Suspend)] && k1.timers == k.timers
    requires k1.current == k.current
    ensures var k' := if timed then Started(k1, t) else k1;
            Turned(k, k', t, Suspend) && (t in k'.timers <==> timed) && OnlyThread(k, k', t)
  {
  }

  lemma SleepDoes(k: State, l: Lists)
    requires Sane(k) && Inv(k, l) && Enabled(k, Sleep)
    ensures var k', l' := Step(k, Sleep), ListStep(k, l, Sleep);
            Does(k, l, k', l', Sleep) && OnlyThread(k, k', k.current) && OthersStay(l, l', k.current)
  {
    hide Taken, Unlinked, OthersStay, Kept, Inv, WellFormed, StandsIn, Started, OnlyThread, Turned, Dying;
    NoTimer(k, l);
    TimedFields(k, Threads.Suspended(k, k.current), k.current, true);
    Gone(k, l, k.current);
  }

  /** The suspension on an object, with its timer started exactly if it has a time. */
  lemma BlockDoes(k: State, l: Lists, o: Obj, flag: Flag, timed: bool)
    requires Sane(k) && Inv(k, l) && Enabled(k, Block(o, flag, timed))
    ensures var e := Block(o, flag, timed);
            var k', l' := Step(k, e), ListStep(k, l, e);
            Does(k, l, k', l', e) && OnlyThread(k, k', k.current) && OthersStay(l, l', k.current)
  {
    hide Blocked, Unlinked, OthersStay, Inv, Sane, StandsIn, Spot, Linked, OnlyThread, Turned, Dying, Joins, BlockedOn;
    BlockFields(k, l, o, flag, timed);
    BlockLists(k, l, o, flag);
  }

  lemma BlockFields(k: State, l: Lists, o: Obj, flag: Flag, timed: bool)
    requires Sane(k) && Inv(k, l) && Enabled(k, Block(o, flag, timed))
    ensures var k', t := Blocked(k, k.current, o, flag, timed), k.current;
            Turned(k, k', t, Suspend) && (t in k'.timers <==> timed) && OnlyThread(k, k', t)
  {
    var t := k.current;
    hide Taken, Before, Target, WellFormed, Inv, Dying, Turned, OnlyThread, Started;
    NoTimer(k, l);
    TakenReady(k.board, t, k.threads[t].prio);
    var k1 := Threads.Suspended(k, t);
    TargetKnown(k1, o, flag, k.threads[t].prio);
    TimedFields(k, k1.(board := Before(k1.board, Target(k1, o, flag, k.threads[t].prio), t)), t, timed);
  }

  lemma BlockLists(k: State, l: Lists, o: Obj, flag: Flag)
    requires Inv(k, l) && Running(k) && o in k.board.objects
    ensures var t, l' := k.current, BlockedOn(k, l, k.current, o, flag);
            Joins(k, l, l', t, o, flag) && OthersStay(l, l', t)
  {
    hide Unlinked, OthersStay, Rep, BitsOk, StandsIn, Spot, Linked, Dying, ThreadOk;
    var t, x := k.current, Waiting(o);
    assert HasHead(k.board, x);
    WaitSpot(k, l, t, o, flag);
    var j := Spot(l.at[x], k.threads, flag, k.threads[t].prio);
    Moved(k, l, t, x, j);
    assert BlockedOn(k, l, t, o, flag) == Linked(Unlinked(l, t), t, x, j);
    assert WaitsAt(k, l, BlockedOn(k, l, t, o, flag), t, o, flag, j);
  }

  /** The place in the wait list, by the priorities in the thread table. */
  lemma WaitSpot(k: State, l: Lists, t: Tid, o: Obj, flag: Flag)
    requires Inv(k, l) && StatIs(k, t, Ready) && !Dying(k, t) && Waiting(o) in l.at
    ensures var q := l.at[Waiting(o)];
            Waiting(o) in Unlinked(l, t).at && Unlinked(l, t).at[Waiting(o)] == q == Removed(q, t)
            && var j := Spot(q, k.threads, flag, k.threads[t].prio);
               j <= |q| && (flag.Fifo? ==> j == |q|)
               && (flag.Prio? ==>
                     (forall i :: 0 <= i < j ==> q[i] in k.threads && k.threads[q[i]].prio <= k.threads[t].prio)
                     && (j < |q| ==> q[j] in k.threads && k.threads[t].prio < k.threads[q[j]].prio))
  {
    hide BitsOk, Ring, Chain, Head, Removed, Dying, Position;
    var q := l.at[Waiting(o)];
    Known(k, l, t);
    PlacedOnce(k, l, t);
    UnlinkedLists(l, t);
    RemovedAbsent(q, t);
    forall i | 0 <= i < |q| ensures q[i] in k.threads && Priority(Urgency(k.threads), q[i]) == k.threads[q[i]].prio {
      assert ListOk(k.board.links, l, Waiting(o)) && q[i] in q;
      assert q[i] in l.place.Keys;
    }
  }

  lemma YieldDoes(k: State, l: Lists)
    requires Sane(k) && Inv(k, l) && Enabled(k, Yield)
    ensures var k', l' := Step(k, Yield), ListStep(k, l, Yield);
            Does(k, l, k', l', Yield) && OnlyThread(k, k', k.current) && OthersStay(l, l', k.current)
  {
    hide Before, Off, Unlinked, OthersStay, WellFormed, Inv, Queued, AtEnd, Dying, Company;
    var t, p := k.current, k.threads[k.current].prio;
    ToQueue(k, l, t, p);
  }

  lemma PriorityDoes(k: State, l: Lists, t: Tid, p: nat)
    requires Sane(k) && Inv(k, l) && Enabled(k, SetPriority(t, p)) && Lawful(k, SetPriority(t, p))
    ensures var e := SetPriority(t, p);
            var k', l' := Step(k, e), ListStep(k, l, e);
            Does(k, l, k', l', e) && OnlyThread(k, k', t) && OthersStay(l, l', t)
  {
    hide Put, Taken, Unlinked, WellFormed, Inv, OthersStay, Queued, AtEnd, Dying;
    ToQueue(k, l, t, p);
    StaysPut(l, t);
  }

  lemma StaysPut(l: Lists, t: Tid)
    ensures OthersStay(l, l, t)
  {
  }

  /** To the front of the defunct list. */
  lemma ToDefunct(k: State, l: Lists, t: Tid)
    requires Inv(k, l) && t in k.threads && l.place[t] != Defunct
    ensures Defunct in l.at
    ensures var l' := Interred(Unlinked(l, t), t);
            OthersStay(l, l', t) && StandsIn(l', t, Defunct)
            && Defunct in l'.at && l'.at[Defunct] == [t] + l.at[Defunct]
  {
    hide Rep, BitsOk, ThreadOk, Removed, Unlinked;
    assert HasHead(k.board, Defunct);
    PlacedOnce(k, l, t);
    Moved(k, l, t, Defunct, 0);
    RemovedAbsent(l.at[Defunct], t);
  }

  lemma NotDefunct(k: State, l: Lists)
    requires Inv(k, l) && Running(k)
    ensures k.current in l.place && l.place[k.current] == Queue(k.threads[k.current].prio)
  {
    hide BoardOk, Dying;
    Known(k, l, k.current);
  }

  lemma ExitDoes(k: State, l: Lists, keep: bool)
    requires Sane(k) && Inv(k, l) && Enabled(k, Exit(keep))
    ensures var e := Exit(keep);
            var k', l' := Step(k, e), ListStep(k, l, e);
            Does(k, l, k', l', e) && OnlyThread(k, k', k.current) && OthersStay(l, l', k.current)
  {
    hide Taken, After, Unlinked, WellFormed, Inv, StandsIn, Interred, OthersStay, Dying;
    NotDefunct(k, l);
    Gone(k, l, k.current);
    if keep { ToDefunct(k, l, k.current); }
  }

  /** The sections of a deletion. */
  lemma DeleteDoes(k: State, l: Lists, e: Event)
    requires Sane(k) && Inv(k, l) && Enabled(k, e)
    requires e.DeleteFirst? || e.DetachTimer? || e.MarkClosed?
    ensures var k', l' := Step(k, e), ListStep(k, l, e);
            Does(k, l, k', l', e) && OnlyThread(k, k', Subject(k, e)) && OthersStay(l, l', Subject(k, e))
  {
    hide Taken, Unlinked, WellFormed, StandsIn, Inv;
    if e.DeleteFirst? {
      Gone(k, l, e.t);
    } else {
      CallKnown(k, e.c);
    }
  }

  lemma BuryDoes(k: State, l: Lists, c: Ctx)
    requires Sane(k) && Inv(k, l) && Enabled(k, LinkDefunct(c)) && Lawful(k, LinkDefunct(c))
    ensures var k', l', e := Step(k, LinkDefunct(c)), ListStep(k, l, LinkDefunct(c)), LinkDefunct(c);
            Does(k, l, k', l', e) && OnlyThread(k, k', Subject(k, e)) && OthersStay(l, l', Subject(k, e))
  {
    hide After, Unlinked, WellFormed, Inv, Interred, Lone, OthersStay, StandsIn;
    var t := k.calls[c].t;
    CallKnown(k, c);
    LoneNowhere(k, l, t);
    LoneIff(k, l, t);
    ToDefunct(k, l, t);
  }

  lemma ReclaimDoes(k: State, l: Lists)
    requires Sane(k) && Inv(k, l) && Enabled(k, Reclaim)
    ensures Does(k, l, Step(k, Reclaim), ListStep(k, l, Reclaim), Reclaim)
  {
    hide Remove, Unlinked, Rep, BitsOk, Ring, Chain, Head, ThreadOk;
    KnownBoard(k, l);
    assert HasHead(k.board, Defunct);
    ListEmptyIff(k.board.links, l, Defunct);
    WaitersKnown(k.board.links, l, Defunct);
    var t := l.at[Defunct][0];
    assert t in l.at[Defunct] && t in l.place.Keys;
    Gone(k, l, t);
  }

  lemma CreateDoes(k: State, l: Lists, t: Tid, prio: nat)
    requires Sane(k) && Inv(k, l) && Enabled(k, Create(t, prio))
    ensures var e := Create(t, prio);
            var k', l' := Step(k, e), ListStep(k, l, e);
            Does(k, l, k', l', e) && OnlyThread(k, k', t) && OthersStay(l, l', t)
  {
    hide BitsOk, Ring, Chain, Head, ThreadOk, Alone;
    forall x | x in l.at ensures t !in l.at[x] {
      assert ListOk(k.board.links, l, x);
      assert t in l.at[x] <==> At(l, t, x);
      assert t !in l.place.Keys;
    }
  }

  // ---------------------------------------------------------------- every call

  /** Every lawful section does to its thread what its call is for, to the thread table,
      the timers and the lists, and to no other thread anything. */
  lemma CallsDo(k: State, l: Lists, e: Event, l': Lists)
    requires Sane(k) && Inv(k, l) && Enabled(k, e) && Lawful(k, e) && Inv(Step(k, e), l')
    ensures Does(k, l, Step(k, e), l', e)
    ensures !e.Reclaim? && !e.Schedule? ==>
              OnlyThread(k, Step(k, e), Subject(k, e)) && OthersStay(l, l', Subject(k, e))
  {
    hide *;
    LawfulKeeps(k, l, e);
    OneReading(Step(k, e), l', ListStep(k, l, e));
    DoesFrom(k, l, e);
  }

  lemma DoesFrom(k: State, l: Lists, e: Event)
    requires Sane(k) && Inv(k, l) && Enabled(k, e) && Lawful(k, e)
    ensures Does(k, l, Step(k, e), ListStep(k, l, e), e)
    ensures !e.Reclaim? && !e.Schedule? ==>
              OnlyThread(k, Step(k, e), Subject(k, e)) && OthersStay(l, ListStep(k, l, e), Subject(k, e))
  {
    hide Sane, Inv, Does, OthersStay, OnlyThread, Step, ListStep, Enabled, Lawful;
    match e {
      case Create(t, prio) => CreateDoes(k, l, t, prio);
      case ResumeFirst(_) => ResumeDoes(k, l, e);
      case ResumeSecond(_) => ResumeDoes(k, l, e);
      case SuspendSecond(c) => SuspendDoes(k, l, c);
      case Wake(t) => RaiseDoes(k, l, e);
      case Timeout(t) => RaiseDoes(k, l, e);
      case Block(o, flag, timed) => BlockDoes(k, l, o, flag, timed);
      case Sleep => SleepDoes(k, l);
      case Yield => YieldDoes(k, l);
      case SetPriority(t, p) => PriorityDoes(k, l, t, p);
      case Exit(keep) => ExitDoes(k, l, keep);
      case DeleteFirst(_, _, _) => DeleteDoes(k, l, e);
      case DetachTimer(_) => DeleteDoes(k, l, e);
      case MarkClosed(_) => DeleteDoes(k, l, e);
      case LinkDefunct(c) => BuryDoes(k, l, c);
      case Reclaim => ReclaimDoes(k, l);
      case _ => RestDoes(k, l, e);
    }
  }

  lemma RaiseDoes(k: State, l: Lists, e: Event)
    requires Sane(k) && Inv(k, l) && Enabled(k, e) && (e.Wake? || e.Timeout?)
    ensures var k', l' := Step(k, e), ListStep(k, l, e);
            Does(k, l, k', l', e) && OnlyThread(k, k', e.t) && OthersStay(l, l', e.t)
  {
    if e.Timeout? { TimerKnown(k, e.t); }
    hide Sane, Inv, Woken, Awake, OnlyThread, OthersStay, Unlinked, Queued;
    WakeDoes(k, l, e.t);
  }

  lemma RestDoes(k: State, l: Lists, e: Event)
    requires Sane(k) && Inv(k, l) && Enabled(k, e)
    requires e.Startup? || e.ResumeTest? || e.SuspendTest? || e.Schedule? || e.EnterCritical? || e.ExitCritical?
    ensures var k', l' := Step(k, e), ListStep(k, l, e);
            Does(k, l, k', l', e)
            && (!e.Schedule? ==> OnlyThread(k, k', Subject(k, e)) && OthersStay(l, l', Subject(k, e)))
  {
    hide Sane, Inv, Removed, Lowest, Flags;
  }

  /** In particular the timer of a thread that blocks runs exactly if its wait has a time,
      and that of a thread that sleeps runs. */
  lemma TimerRuns(k: State, e: Event)
    requires Good(k) && Sane(k) && Enabled(k, e) && (e.Block? || e.Sleep?)
    ensures Step(k, e).current == k.current && (k.current in Step(k, e).timers <==> e.Sleep? || e.timed)
  {
    hide Inv, WellFormed, Dying, Joins, StandsIn, Threads.Suspended, Blocked;
    var l :| Inv(k, l);
    if e.Block? {
      BlockDoes(k, l, e.o, e.flag, e.timed);
    } else {
      SleepDoes(k, l);
    }
  }
}

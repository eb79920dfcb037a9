/** Threads and the scheduler (thread.c, scheduler.c): every call that creates,
    starts, blocks, wakes, ends or deletes a thread, cut into its atomic sections. */
module Threads {
  import opened Basics
  import opened Rings
  import opened WaitList
  import opened ReadyBits
  import opened ThreadLists
  import opened Queues

  /** Who makes a call: a thread or an interrupt handler. */
  type Ctx = nat

  datatype Stat = Init | Ready | Suspend | Closed

  /** `timed` is the ACTIVATED flag of the thread timer. */
  datatype Thread = Thread(stat: Stat, init: nat, prio: nat, timed: bool)

  /** How far a deletion has come: the thread taken off its list, its timer taken off
      the timer list, its status set. */
  datatype Stage = OffList | OffTimers | Marked

  /** A call between two of its sections: rt_thread_resume after its test and after
      its first section, rt_thread_suspend after its test, rt_thread_delete or
      rt_thread_detach after a stage. `keep`: the thread goes to the defunct list. */
  datatype Call =
    | Tested(t: Tid)
    | Resuming(t: Tid)
    | Suspending(t: Tid)
    | Deleting(t: Tid, stage: Stage, keep: bool)

  /** `timers` are the threads whose timer is in the timer list; `closed` remembers
      the threads that were closed. */
  datatype State = State(board: Board, threads: map<Tid, Thread>, timers: set<Tid>, closed: set<Tid>,
                         calls: map<Ctx, Call>, current: Tid, locks: nat)

  // --------------------------------------------------------------- invariant

  /** Some call is deleting the thread. */
  predicate Dying(k: State, t: Tid) {
    exists c :: c in k.calls && k.calls[c].Deleting? && k.calls[c].t == t
  }

  /** A ready thread is in the queue of its current priority; a suspended one is on
      a wait list or on no list at all. */
  predicate Fitting(th: Thread, x: Place) {
    match th.stat
    case Init => x == Nowhere && !th.timed
    case Ready => x == Queue(th.prio) && !th.timed
    case Suspend => x.Nowhere? || x.Waiting?
    case Closed => x.Nowhere? || x.Defunct?
  }

  /** A thread that is being deleted is in no list but perhaps the defunct list. */
  ghost predicate ThreadOk(k: State, l: Lists, t: Tid) {
    t in k.threads && t in l.place
    && var th := k.threads[t];
    th.prio < Levels(k.board.wide) && th.init < Levels(k.board.wide)
    && (t in k.timers ==> th.timed && th.stat != Closed)
    && (t in k.closed <==> th.stat == Closed)
    && (l.place[t] == Defunct ==> th.stat == Closed)
    && if Dying(k, t) then l.place[t].Nowhere? || l.place[t].Defunct?
       else Fitting(th, l.place[t]) && (th.timed && th.stat != Closed ==> t in k.timers)
  }

  ghost predicate CallOk(k: State, c: Ctx) {
    c in k.calls && k.calls[c].t in k.threads
    && (k.calls[c].Deleting? ==>
          (k.calls[c].stage != OffList ==> k.calls[c].t !in k.timers)
          && (k.calls[c].stage == Marked ==> k.calls[c].t in k.closed))
  }

  ghost predicate Inv(k: State, l: Lists) {
    BoardOk(k.board, l) && l.place.Keys == k.threads.Keys
    && k.timers <= k.threads.Keys && k.closed <= k.threads.Keys
    && (forall t :: t in k.threads ==> ThreadOk(k, l, t))
    && (forall c :: c in k.calls ==> CallOk(k, c))
  }

  /** Every thread has a node, a priority in range, and every call a thread. */
  ghost predicate Sane(k: State) {
    WellFormed(k.board)
    && (forall t :: t in k.threads ==> NodeOf(t) in k.board.links.next && k.threads[t].prio < Levels(k.board.wide)
                                       && k.threads[t].init < Levels(k.board.wide))
    && k.timers <= k.threads.Keys
    && (forall c :: c in k.calls ==> k.calls[c].t in k.threads)
  }

  /** The links are those of some lists, which hold each thread as its status says. */
  ghost predicate Good(k: State) {
    Sane(k) && exists l :: Inv(k, l)
  }

  // ------------------------------------------------------------------ events

  /** The atomic sections. Block is the suspension of the running thread on an IPC
      object, with or without a time; Wake is rt_thread_resume called with interrupts
      off; Timeout is the expiry of a thread's timer. */
  datatype Event =
    | Create(t: Tid, prio: nat)
    | Startup(t: Tid)
    | ResumeTest(c: Ctx, t: Tid)
    | ResumeFirst(c: Ctx)
    | ResumeSecond(c: Ctx)
    | SuspendTest(c: Ctx, t: Tid)
    | SuspendSecond(c: Ctx)
    | Wake(t: Tid)
    | Block(o: Obj, flag: Flag, timed: bool)
    | Sleep
    | Timeout(t: Tid)
    | Yield
    | SetPriority(t: Tid, p: nat)
    | Exit(keep: bool)
    | DeleteFirst(c: Ctx, t: Tid, keep: bool)
    | DetachTimer(c: Ctx)
    | MarkClosed(c: Ctx)
    | LinkDefunct(c: Ctx)
    | Reclaim
    | Schedule
    | EnterCritical
    | ExitCritical

  predicate StatIs(k: State, t: Tid, stat: Stat) {
    t in k.threads && k.threads[t].stat == stat
  }

  /** The thread that runs is READY and nobody is deleting it. */
  predicate Running(k: State) {
    StatIs(k, k.current, Ready) && !Dying(k, k.current)
  }

  predicate Stands(k: State, c: Ctx, stage: Stage) {
    c in k.calls && k.calls[c].Deleting? && k.calls[c].stage == stage
  }

  /** The queues that the bitmap marks. */
  function Flags(b: Board): (flags: seq<bool>)
    ensures |flags| == Levels(b.wide)
  {
    seq(Levels(b.wide), p requires 0 <= p < Levels(b.wide) => Flag(b, p))
  }

  predicate Flag(b: Board, p: nat) {
    if b.wide then p / 8 < |b.table| && Bit(b.table[p / 8], p % 8) else Bit(b.group, p)
  }

  ghost predicate Enabled(k: State, e: Event) {
    match e
    case Create(t, prio) => t !in k.threads && prio < Levels(k.board.wide)
    case Startup(t) => StatIs(k, t, Init)
    case ResumeTest(c, t) => c !in k.calls && StatIs(k, t, Suspend)
    case ResumeFirst(c) => c in k.calls && k.calls[c].Tested?
    case ResumeSecond(c) => c in k.calls && k.calls[c].Resuming?
    case SuspendTest(c, t) => c !in k.calls && StatIs(k, t, Ready)
    case SuspendSecond(c) => c in k.calls && k.calls[c].Suspending?
    case Wake(t) => StatIs(k, t, Suspend)
    case Block(o, _, _) => Running(k) && o in k.board.objects
    case Sleep => Running(k)
    case Timeout(t) => t in k.timers
    case Yield => Running(k)
    case SetPriority(t, p) => t in k.threads && p < Levels(k.board.wide)
    case Exit(_) => Running(k)
    case DeleteFirst(c, t, _) => c !in k.calls && t in k.threads
    case DetachTimer(c) => Stands(k, c, OffList)
    case MarkClosed(c) => Stands(k, c, OffTimers)
    case LinkDefunct(c) => Stands(k, c, Marked)
    case Reclaim => !IsEmpty(k.board.links, Head(Defunct))
    case Schedule => Lowest(Flags(k.board)) < Levels(k.board.wide)
    case EnterCritical => true
    case ExitCritical => true
  }

  // ------------------------------------------------------------------- steps

  function SetThread(k: State, t: Tid, th: Thread): State {
    k.(threads := k.threads[t := th])
  }

  /** rt_timer_start of a thread timer, refused if it is flagged. */
  function Started(k: State, t: Tid): State
    requires t in k.threads
  {
    if k.threads[t].timed then k
    else k.(timers := k.timers + {t}, threads := k.threads[t := k.threads[t].(timed := true)])
  }

  /** rt_thread_suspend of a ready thread */
  function Suspended(k: State, t: Tid): State
    requires Sane(k) && t in k.threads
  {
    SetThread(k, t, k.threads[t].(stat := Suspend)).(board := Taken(k.board, t, k.threads[t].prio))
  }

  /** The first section of rt_thread_resume: off the wait list, off the timer list,
      the flag cleared. */
  function Loosened(k: State, t: Tid): State
    requires Sane(k) && t in k.threads
  {
    SetThread(k, t, k.threads[t].(timed := false)).(board := Off(k.board, t), timers := k.timers - {t})
  }

  /** rt_schedule_insert_thread */
  function Inserted(k: State, t: Tid): State
    requires Sane(k) && t in k.threads
  {
    SetThread(k, t, k.threads[t].(stat := Ready)).(board := Put(k.board, t, k.threads[t].prio))
  }

  function LoosenedBy(k: State, c: Ctx): State
    requires Sane(k) && c in k.calls
  {
    Loosened(k, k.calls[c].t).(calls := k.calls[c := Resuming(k.calls[c].t)])
  }

  function InsertedBy(k: State, c: Ctx): State
    requires Sane(k) && c in k.calls
  {
    Inserted(k, k.calls[c].t).(calls := k.calls - {c})
  }

  function SuspendedBy(k: State, c: Ctx): State
    requires Sane(k) && c in k.calls
  {
    Suspended(k, k.calls[c].t).(calls := k.calls - {c})
  }

  /** A whole rt_thread_resume. */
  function Woken(k: State, t: Tid): State
    requires Sane(k) && t in k.threads
  {
    OffReady(k.board, t);
    SetThread(k, t, k.threads[t].(stat := Ready, timed := false))
      .(board := Put(Off(k.board, t), t, k.threads[t].prio), timers := k.timers - {t})
  }

  /** The first node from n on whose thread is less urgent than p; the head h if there
      is none. */
  function Walk(k: State, n: Node, h: Node, p: nat, fuel: nat): Node
    decreases fuel
  {
    if fuel == 0 || n == h || n !in k.board.links.next then h
    else if n / 2 in k.threads && p < k.threads[n / 2].prio then n
    else Walk(k, k.board.links.next[n], h, p, fuel - 1)
  }

  /** Before which node rt_ipc_list_suspend inserts. */
  function Target(k: State, o: Obj, flag: Flag, p: nat): Node {
    var h := Head(Waiting(o));
    if flag.Fifo? || h !in k.board.links.next then h
    else Walk(k, k.board.links.next[h], h, p, |k.threads|)
  }

  lemma {:induction false} WalkKnown(k: State, n: Node, h: Node, p: nat, fuel: nat)
    requires h in k.board.links.next
    ensures Walk(k, n, h, p, fuel) in k.board.links.next
    decreases fuel
  {
    if fuel > 0 && n != h && n in k.board.links.next { WalkKnown(k, k.board.links.next[n], h, p, fuel - 1); }
  }

  lemma TargetKnown(k: State, o: Obj, flag: Flag, p: nat)
    requires WellFormed(k.board) && o in k.board.objects
    ensures Target(k, o, flag, p) in k.board.links.next
  {
    hide Walk, Wired, Head;
    assert HasHead(k.board, Waiting(o));
    var h := Head(Waiting(o));
    if flag.Prio? { WalkKnown(k, k.board.links.next[h], h, p, |k.threads|); }
  }

  function Blocked(k: State, t: Tid, o: Obj, flag: Flag, timed: bool): State
    requires Sane(k) && t in k.threads && o in k.board.objects
  {
    TakenReady(k.board, t, k.threads[t].prio);
    var k1 := Suspended(k, t);
    TargetKnown(k1, o, flag, k.threads[t].prio);
    var k2 := k1.(board := Before(k1.board, Target(k1, o, flag, k.threads[t].prio), t));
    if timed then Started(k2, t) else k2
  }

  function Prioritised(k: State, t: Tid, p: nat): State
    requires Sane(k) && t in k.threads && p < Levels(k.board.wide)
  {
    var k1 := SetThread(k, t, k.threads[t].(prio := p));
    if k.threads[t].stat == Ready then
      TakenReady(k.board, t, k.threads[t].prio);
      k1.(board := Put(Taken(k.board, t, k.threads[t].prio), t, p))
    else k1
  }

  /** The test of rt_thread_yield: the thread's two neighbours differ. */
  predicate Company(k: State, t: Tid) {
    var n, links := NodeOf(t), k.board.links;
    n in links.next && n in links.prev && links.next[n] != links.prev[n]
  }

  function Yielded(k: State, t: Tid): State
    requires Sane(k) && t in k.threads
  {
    if Company(k, t) then
      assert HasHead(k.board, Queue(k.threads[t].prio));
      OffReady(k.board, t);
      k.(board := Before(Off(k.board, t), Head(Queue(k.threads[t].prio)), t))
    else k
  }

  function Exited(k: State, t: Tid, keep: bool): State
    requires Sane(k) && t in k.threads
  {
    TakenReady(k.board, t, k.threads[t].prio);
    var b := Taken(k.board, t, k.threads[t].prio);
    assert HasHead(b, Defunct);
    SetThread(k, t, k.threads[t].(stat := Closed))
      .(board := if keep then After(b, Head(Defunct), t) else b, timers := k.timers - {t}, closed := k.closed + {t})
  }

  function Created(k: State, t: Tid, prio: nat): State {
    k.(threads := k.threads[t := Thread(Init, prio, prio, false)],
       board := k.board.(links := Alone(k.board.links, NodeOf(t))))
  }

  /** The first section of a deletion: rt_schedule_remove_thread. */
  function Doomed(k: State, c: Ctx, t: Tid, keep: bool): State
    requires Sane(k) && t in k.threads
  {
    k.(board := Taken(k.board, t, k.threads[t].prio), calls := k.calls[c := Deleting(t, OffList, keep)])
  }

  /** The second: rt_timer_detach, which leaves the flag. */
  function Untimed(k: State, c: Ctx): State
    requires Stands(k, c, OffList)
  {
    k.(timers := k.timers - {k.calls[c].t}, calls := k.calls[c := k.calls[c].(stage := OffTimers)])
  }

  /** The status set by a deletion; without a cleanup function it ends there. */
  function ClosedBy(k: State, c: Ctx): State
    requires Sane(k) && Stands(k, c, OffTimers)
  {
    var t := k.calls[c].t;
    SetThread(k, t, k.threads[t].(stat := Closed))
      .(closed := k.closed + {t},
        calls := if k.calls[c].keep then k.calls[c := k.calls[c].(stage := Marked)] else k.calls - {c})
  }

  function Buried(k: State, c: Ctx): State
    requires Sane(k) && Stands(k, c, Marked)
  {
    assert HasHead(k.board, Defunct);
    k.(board := After(k.board, Head(Defunct), k.calls[c].t), calls := k.calls - {c})
  }

  /** The idle thread takes the first thread off the defunct list. */
  function Reclaimed(k: State): State
    requires Sane(k)
  {
    assert HasHead(k.board, Defunct) && Points(k.board.links, Head(Defunct));
    k.(board := k.board.(links := Remove(k.board.links, k.board.links.next[Head(Defunct)])))
  }

  /** rt_schedule */
  function Scheduled(k: State): State
    requires Sane(k) && Lowest(Flags(k.board)) < Levels(k.board.wide)
  {
    assert HasHead(k.board, Queue(Lowest(Flags(k.board))));
    if k.locks > 0 then k
    else k.(current := k.board.links.next[Head(Queue(Lowest(Flags(k.board))))] / 2)
  }

  function Step(k: State, e: Event): State
    requires Sane(k) && Enabled(k, e)
  {
    match e
    case Create(t, prio) => Created(k, t, prio)
    case Startup(t) => SetThread(k, t, k.threads[t].(stat := Suspend, prio := k.threads[t].init))
    case ResumeTest(c, t) => k.(calls := k.calls[c := Tested(t)])
    case ResumeFirst(c) => LoosenedBy(k, c)
    case ResumeSecond(c) => InsertedBy(k, c)
    case SuspendTest(c, t) => k.(calls := k.calls[c := Suspending(t)])
    case SuspendSecond(c) => SuspendedBy(k, c)
    case Wake(t) => Woken(k, t)
    case Block(o, flag, timed) => Blocked(k, k.current, o, flag, timed)
    case Sleep => Started(Suspended(k, k.current), k.current)
    case Timeout(t) => assert t in k.threads.Keys; Woken(k, t)
    case Yield => Yielded(k, k.current)
    case SetPriority(t, p) => Prioritised(k, t, p)
    case Exit(keep) => Exited(k, k.current, keep)
    case DeleteFirst(c, t, keep) => Doomed(k, c, t, keep)
    case DetachTimer(c) => Untimed(k, c)
    case MarkClosed(c) => ClosedBy(k, c)
    case LinkDefunct(c) => Buried(k, c)
    case Reclaim => Reclaimed(k)
    case Schedule => Scheduled(k)
    case EnterCritical => k.(locks := k.locks + 1)
    case ExitCritical => k.(locks := if k.locks > 0 then k.locks - 1 else 0)
  }

  // ------------------------------------------------- the shape is always kept

  /** One thread changed, on a board with the same nodes. */
  lemma SaneChange(k: State, k': State, t: Tid)
    requires Sane(k) && Kept(k.board, k'.board)
    requires t in k.threads && t in k'.threads && k'.threads == k.threads[t := k'.threads[t]]
    requires k'.threads[t].prio < Levels(k.board.wide) && k'.threads[t].init < Levels(k.board.wide)
    requires k'.timers <= k.timers + {t}
    requires forall c :: c in k'.calls ==> k'.calls[c].t == t || (c in k.calls && k'.calls[c] == k.calls[c])
    ensures Sane(k')
  {
    hide WellFormed, NodeOf;
    forall u | u in k'.threads
      ensures NodeOf(u) in k'.board.links.next && k'.threads[u].prio < Levels(k'.board.wide)
              && k'.threads[u].init < Levels(k'.board.wide)
    {
      if u != t { assert NodeOf(u) in k.board.links.next.Keys; }
    }
    forall u | u in k'.timers ensures u in k'.threads.Keys { assert u in k.timers || u == t; }
  }

  lemma CreatedSane(k: State, t: Tid, prio: nat)
    requires Sane(k) && t !in k.threads && prio < Levels(k.board.wide)
    ensures Sane(Created(k, t, prio))
  {
    hide NodeOf, Head;
    var k' := Created(k, t, prio);
    var links, links' := k.board.links, k'.board.links;
    forall n ensures Points(links', n) {
      assert Points(links, n);
      assert n in links.prev <==> n in links.prev.Keys;
    }
    assert links'.prev.Keys == links'.next.Keys;
    forall x | HasHead(k'.board, x) ensures Head(x) in links'.next { assert HasHead(k.board, x); }
  }

  lemma ReclaimedSane(k: State)
    requires Sane(k)
    ensures Sane(Reclaimed(k))
  {
    hide NodeOf, Head, Remove, Wired;
    assert HasHead(k.board, Defunct);
    var n := Head(Defunct);
    assert k.board.links.next[n] in k.board.links.next.Keys by {
      assert Wired(k.board.links);
      Follow(k.board.links, n);
    }
    WiredRemove(k.board.links, k.board.links.next[n]);
    var k' := Reclaimed(k);
    forall x | HasHead(k'.board, x) ensures Head(x) in k'.board.links.next.Keys { assert HasHead(k.board, x); }
    forall t | t in k'.threads ensures NodeOf(t) in k'.board.links.next.Keys { assert NodeOf(t) in k.board.links.next; }
  }

  lemma Follow(links: Links, n: Node)
    requires Wired(links) && n in links.next
    ensures links.next[n] in links.next.Keys
  {
    assert Points(links, n) && n in links.prev.Keys;
  }

  lemma BlockedSane(k: State, t: Tid, o: Obj, flag: Flag, timed: bool)
    requires Sane(k) && t in k.threads && o in k.board.objects
    ensures Sane(Blocked(k, t, o, flag, timed))
  {
    hide WellFormed, NodeOf, Head, Taken, Before, Target;
    var p := k.threads[t].prio;
    TakenReady(k.board, t, p);
    var k1 := Suspended(k, t);
    TargetKnown(k1, o, flag, p);
    BeforeReady(k1.board, Target(k1, o, flag, p), t);
    SaneChange(k, Blocked(k, t, o, flag, timed), t);
  }

  lemma ExitedSane(k: State, t: Tid, keep: bool)
    requires Sane(k) && t in k.threads
    ensures Sane(Exited(k, t, keep))
  {
    hide Wired, NodeOf, Head, Taken, After;
    var b := Taken(k.board, t, k.threads[t].prio);
    TakenReady(k.board, t, k.threads[t].prio);
    assert HasHead(b, Defunct);
    AfterReady(b, Head(Defunct), t);
    SaneChange(k, Exited(k, t, keep), t);
  }

  lemma PrioritisedSane(k: State, t: Tid, p: nat)
    requires Sane(k) && t in k.threads && p < Levels(k.board.wide)
    ensures Sane(Prioritised(k, t, p))
  {
    hide WellFormed, NodeOf, Head, Taken, Put;
    TakenReady(k.board, t, k.threads[t].prio);
    PutReady(Taken(k.board, t, k.threads[t].prio), t, p);
    SaneChange(k, Prioritised(k, t, p), t);
  }

  lemma YieldedSane(k: State, t: Tid)
    requires Sane(k) && t in k.threads
    ensures Sane(Yielded(k, t))
  {
    hide Wired, NodeOf, Head, Off, Before;
    OffReady(k.board, t);
    assert HasHead(k.board, Queue(k.threads[t].prio)) && HasHead(Off(k.board, t), Queue(k.threads[t].prio));
    BeforeReady(Off(k.board, t), Head(Queue(k.threads[t].prio)), t);
    SaneChange(k, Yielded(k, t), t);
  }

  lemma WokenSane(k: State, t: Tid)
    requires Sane(k) && t in k.threads
    ensures Sane(Woken(k, t)) && Sane(Loosened(k, t))
  {
    hide WellFormed, NodeOf, Head, Off, Put;
    OffReady(k.board, t);
    PutReady(Off(k.board, t), t, k.threads[t].prio);
    SaneChange(k, Woken(k, t), t);
    SaneChange(k, Loosened(k, t), t);
  }

  lemma SuspendedSane(k: State, t: Tid)
    requires Sane(k) && t in k.threads
    ensures Sane(Suspended(k, t)) && Sane(Started(Suspended(k, t), t)) && Sane(Inserted(k, t))
  {
    hide WellFormed, NodeOf, Head, Taken, Put;
    TakenReady(k.board, t, k.threads[t].prio);
    PutReady(k.board, t, k.threads[t].prio);
    SaneChange(k, Suspended(k, t), t);
    SaneChange(k, Started(Suspended(k, t), t), t);
    SaneChange(k, Inserted(k, t), t);
  }

  lemma DeletingSane(k: State, e: Event)
    requires Sane(k) && Enabled(k, e) && (e.DeleteFirst? || e.DetachTimer? || e.MarkClosed? || e.LinkDefunct?)
    ensures Sane(Step(k, e))
  {
    hide Wired, NodeOf, Head, Taken, After;
    var k', t := Step(k, e), if e.DeleteFirst? then e.t else k.calls[e.c].t;
    assert Kept(k.board, k'.board) by {
      if e.DeleteFirst? { TakenReady(k.board, t, k.threads[t].prio); }
      if e.LinkDefunct? {
        assert HasHead(k.board, Defunct);
        AfterReady(k.board, Head(Defunct), t);
      }
    }
    hide WellFormed;
    SaneChange(k, k', t);
  }

  lemma CallsSane(k: State, k': State)
    requires Sane(k) && k'.board == k.board && k'.threads == k.threads && k'.timers == k.timers
    requires forall c :: c in k'.calls ==> k'.calls[c].t in k.threads
    ensures Sane(k')
  {
    hide WellFormed, NodeOf;
  }

  lemma ResumingSane(k: State, e: Event)
    requires Sane(k) && Enabled(k, e) && (e.ResumeFirst? || e.ResumeSecond? || e.SuspendSecond?)
    ensures Sane(Step(k, e))
  {
    hide WellFormed, NodeOf, Started, Woken, Off, Put, Taken;
    var t := k.calls[e.c].t;
    WokenSane(k, t);
    SuspendedSane(k, t);
    match e {
      case ResumeFirst(c) => CallsSane(Loosened(k, t), Step(k, e));
      case ResumeSecond(c) => CallsSane(Inserted(k, t), Step(k, e));
      case SuspendSecond(c) => CallsSane(Suspended(k, t), Step(k, e));
    }
  }

  lemma RestSane(k: State, e: Event)
    requires Sane(k) && Enabled(k, e)
    requires e.Startup? || e.ResumeTest? || e.SuspendTest? || e.Schedule? || e.EnterCritical? || e.ExitCritical?
    ensures Sane(Step(k, e))
  {
    hide WellFormed, NodeOf;
    if e.Startup? { SaneChange(k, Step(k, e), e.t); } else { CallsSane(k, Step(k, e)); }
  }

  lemma TimerKnown(k: State, t: Tid)
    requires Sane(k) && t in k.timers
    ensures t in k.threads
  {
    assert t in k.threads.Keys;
  }

  lemma StepSane(k: State, e: Event)
    requires Sane(k) && Enabled(k, e)
    ensures Sane(Step(k, e))
  {
    hide Sane, Created, Woken, Blocked, Started, Suspended, Yielded, Prioritised, Exited, Reclaimed, Scheduled;
    match e {
      case Create(t, prio) => CreatedSane(k, t, prio);
      case ResumeFirst(_) => ResumingSane(k, e);
      case ResumeSecond(_) => ResumingSane(k, e);
      case SuspendSecond(_) => ResumingSane(k, e);
      case Wake(t) => WokenSane(k, t);
      case Block(o, flag, timed) => BlockedSane(k, k.current, o, flag, timed);
      case Sleep => SuspendedSane(k, k.current);
      case Timeout(t) =>
        TimerKnown(k, t);
        WokenSane(k, t);
      case Yield => YieldedSane(k, k.current);
      case SetPriority(t, p) => PrioritisedSane(k, t, p);
      case Exit(keep) => ExitedSane(k, k.current, keep);
      case DeleteFirst(_, _, _) => DeletingSane(k, e);
      case DetachTimer(_) => DeletingSane(k, e);
      case MarkClosed(_) => DeletingSane(k, e);
      case LinkDefunct(_) => DeletingSane(k, e);
      case Reclaim => ReclaimedSane(k);
      case _ => RestSane(k, e);
    }
  }

  // ------------------------------------------------------- the lawful sections

  /** The thread's node is linked to itself. */
  predicate Lone(k: State, t: Tid) {
    IsEmpty(k.board.links, NodeOf(t))
  }

  /** What a section relies on, beyond the tests the source makes. */
  ghost predicate Lawful(k: State, e: Event)
    requires Sane(k) && Enabled(k, e)
  {
    match e
    case ResumeFirst(c) =>
      Dying(k, k.calls[c].t) || k.threads[k.calls[c].t].stat != Ready
    case ResumeSecond(c) =>
      !Dying(k, k.calls[c].t) && Lone(k, k.calls[c].t)
      && k.threads[k.calls[c].t].stat != Closed && !k.threads[k.calls[c].t].timed
    case SuspendSecond(c) => k.threads[k.calls[c].t].stat != Closed
    case Wake(t) => !Dying(k, t)
    case Timeout(t) => !Dying(k, t)
    case SetPriority(t, _) => !(StatIs(k, t, Ready) && Dying(k, t))
    case LinkDefunct(c) => Lone(k, k.calls[c].t)
    case _ => true
  }

  // ----------------------------------------------------------- what is known

  lemma Known(k: State, l: Lists, t: Tid)
    requires Inv(k, l) && t in k.threads
    ensures ThreadOk(k, l, t) && CallsOk(k, t) && BoardOk(k.board, l)
  {
    hide BoardOk;
  }

  lemma KnownBoard(k: State, l: Lists)
    requires Inv(k, l)
    ensures BoardOk(k.board, l) && l.place.Keys == k.threads.Keys
  {
    hide BoardOk;
  }

  lemma KnownCall(k: State, l: Lists, c: Ctx)
    requires Inv(k, l) && c in k.calls
    ensures CallOk(k, c) && ThreadOk(k, l, k.calls[c].t) && CallsOk(k, k.calls[c].t) && BoardOk(k.board, l)
  {
    hide BoardOk;
    assert CallOk(k, c);
  }

  /** The calls that concern other threads than t are the same. */
  ghost predicate SameCalls(k: State, k': State, t: Tid) {
    (forall c :: c in k.calls && k.calls[c].t != t ==> c in k'.calls && k'.calls[c] == k.calls[c])
    && (forall c :: c in k'.calls && k'.calls[c].t != t ==> c in k.calls && k.calls[c] == k'.calls[c])
  }

  lemma DyingSame(k: State, k': State, t: Tid, u: Tid)
    requires SameCalls(k, k', t) && u != t
    ensures Dying(k', u) <==> Dying(k, u)
  {
  }

  /** A section that concerns one thread keeps the invariant if it leaves that thread
      and the calls about it as they should be. */
  lemma OneThread(k: State, l: Lists, k': State, l': Lists, t: Tid)
    requires Inv(k, l) && t in k.threads && BoardOk(k'.board, l') && k'.board.wide == k.board.wide
    requires t in k'.threads && k'.threads == k.threads[t := k'.threads[t]]
    requires t in l'.place && l'.place == l.place[t := l'.place[t]]
    requires k'.timers - {t} == k.timers - {t} && k'.closed - {t} == k.closed - {t} && SameCalls(k, k', t)
    requires ThreadOk(k', l', t) && CallsOk(k', t)
    ensures Inv(k', l')
  {
    hide BoardOk, SameCalls, Dying;
    forall u | u in k'.threads ensures ThreadOk(k', l', u) {
      if u != t {
        Known(k, l, u);
        DyingSame(k, k', t, u);
        OthersSame(k.timers, k'.timers, t, u);
        OthersSame(k.closed, k'.closed, t, u);
      }
    }
    forall c | c in k'.calls ensures CallOk(k', c) {
      if k'.calls[c].t != t { OtherCall(k, k', t, c); }
    }
    forall u | u in k'.timers ensures u in k'.threads.Keys {
      if u != t { OthersSame(k.timers, k'.timers, t, u); }
    }
    forall u | u in k'.closed ensures u in k'.threads.Keys {
      if u != t { OthersSame(k.closed, k'.closed, t, u); }
    }
  }

  lemma OthersSame(s: set<Tid>, s': set<Tid>, t: Tid, u: Tid)
    requires s' - {t} == s - {t} && u != t
    ensures u in s' <==> u in s
  {
    assert u in s' - {t} <==> u in s - {t};
  }

  lemma OtherCall(k: State, k': State, t: Tid, c: Ctx)
    requires SameCalls(k, k', t) && c in k'.calls && k'.calls[c].t != t
    requires forall d :: d in k.calls ==> CallOk(k, d)
    requires t in k.threads && t in k'.threads && k'.threads == k.threads[t := k'.threads[t]]
    requires k'.timers - {t} == k.timers - {t} && k'.closed - {t} == k.closed - {t}
    ensures CallOk(k', c)
  {
    assert c in k.calls && CallOk(k, c);
    OthersSame(k.timers, k'.timers, t, k'.calls[c].t);
    OthersSame(k.closed, k'.closed, t, k'.calls[c].t);
  }

  /** The calls about one thread are as they should be. */
  ghost predicate CallsOk(k: State, t: Tid) {
    forall c :: c in k.calls && k.calls[c].t == t ==> CallOk(k, c)
  }

  lemma NoDeletion(k: State, t: Tid)
    requires !Dying(k, t) && t in k.threads
    ensures CallsOk(k, t)
  {
  }

  /** The calls about t were fine, its timer was not started and it stays closed. */
  lemma StillCalls(k: State, k': State, t: Tid)
    requires CallsOk(k, t) && t in k'.threads && (t in k'.timers ==> t in k.timers)
             && (t in k.closed ==> t in k'.closed)
    requires forall c :: c in k'.calls && k'.calls[c].t == t && k'.calls[c].Deleting? ==>
                           c in k.calls && k'.calls[c] == k.calls[c]
    ensures CallsOk(k', t)
  {
    forall c | c in k'.calls && k'.calls[c].t == t ensures CallOk(k', c) {
      assert k'.calls[c].Deleting? ==> CallOk(k, c);
    }
  }

  // --------------------------------------------------------- lawful sections

  lemma CreatedBoard(b: Board, l: Lists, t: Tid)
    requires BoardOk(b, l) && t !in l.place
    ensures BoardOk(b.(links := Rings.Alone(b.links, NodeOf(t))), l.(place := l.place[t := Nowhere]))
  {
    hide NodeOf, BitsOk, Rep, Rings.Alone;
    AloneRep(b.links, l, t);
    var b', l' := b.(links := Rings.Alone(b.links, NodeOf(t))), l.(place := l.place[t := Nowhere]);
    forall x ensures x in l'.at <==> HasHead(b', x) { assert x in l.at <==> HasHead(b, x); }
    assert Busy(l', b.wide) == Busy(l, b.wide);
  }

  lemma CreatedKeeps(k: State, l: Lists, t: Tid, prio: nat)
    requires Sane(k) && Inv(k, l) && t !in k.threads && prio < Levels(k.board.wide)
    ensures Inv(Created(k, t, prio), l.(place := l.place[t := Nowhere]))
  {
    hide NodeOf, BoardOk, WellFormed, Dying;
    var k', l' := Created(k, t, prio), l.(place := l.place[t := Nowhere]);
    assert t !in k.threads.Keys && t !in l.place;
    assert t !in k.timers && t !in k.closed;
    CreatedBoard(k.board, l, t);
    NobodyDies(k, l, t);
    assert !Dying(k', t) by { DyingFrame(k, k', t); }
    forall u | u in k'.threads ensures ThreadOk(k', l', u) {
      if u != t {
        Known(k, l, u);
        DyingFrame(k, k', u);
      }
    }
    forall c | c in k'.calls ensures CallOk(k', c) { assert CallOk(k, c); }
  }

  lemma DyingFrame(k: State, k': State, t: Tid)
    requires k'.calls == k.calls
    ensures Dying(k', t) <==> Dying(k, t)
  {
  }

  lemma NobodyDies(k: State, l: Lists, t: Tid)
    requires Inv(k, l) && t !in k.threads
    ensures !Dying(k, t)
  {
    forall c | c in k.calls ensures k.calls[c].t != t { assert CallOk(k, c); }
  }

  lemma StartupKeeps(k: State, l: Lists, t: Tid)
    requires Sane(k) && Inv(k, l) && StatIs(k, t, Init)
    ensures Inv(Step(k, Startup(t)), l)
  {
    hide Inv, BoardOk, WellFormed, Dying;
    Known(k, l, t);
    var k' := Step(k, Startup(t));
    DyingFrame(k, k', t);
    StillCalls(k, k', t);
    OneThread(k, l, k', l, t);
  }

  lemma WokenKeeps(k: State, l: Lists, t: Tid)
    requires Sane(k) && Inv(k, l) && StatIs(k, t, Suspend) && !Dying(k, t)
    ensures Inv(Woken(k, t), Queued(Unlinked(l, t), t, k.threads[t].prio))
  {
    hide Inv, BoardOk, WellFormed, NodeOf, Off, Put, Unlinked, Dying;
    Known(k, l, t);
    var k', l1 := Woken(k, t), Unlinked(l, t);
    WokenBoard(k, l, t);
    UnlinkedShape(l, t);
    DyingFrame(k, k', t);
    NoDeletion(k', t);
    OneThread(k, l, k', Queued(l1, t, k.threads[t].prio), t);
  }

  lemma WokenBoard(k: State, l: Lists, t: Tid)
    requires Sane(k) && Inv(k, l) && t in k.threads && !l.place[t].Queue?
    ensures Queue(k.threads[t].prio) in Unlinked(l, t).at
    ensures BoardOk(Woken(k, t).board, Queued(Unlinked(l, t), t, k.threads[t].prio))
    ensures Kept(k.board, Woken(k, t).board)
  {
    hide WellFormed, NodeOf, Off, Put, Rep, BitsOk, Basics.Removed;
    OffReady(k.board, t);
    OffKeeps(k.board, l, t);
    PutKeeps(Off(k.board, t), Unlinked(l, t), t, k.threads[t].prio);
    PutReady(Off(k.board, t), t, k.threads[t].prio);
  }

  lemma LoosenedKeeps(k: State, l: Lists, c: Ctx)
    requires Sane(k) && Inv(k, l) && c in k.calls && k.calls[c].Tested?
    requires k.calls[c].t in k.threads && (Dying(k, k.calls[c].t) || !StatIs(k, k.calls[c].t, Ready))
    ensures Inv(Loosened(k, k.calls[c].t).(calls := k.calls[c := Resuming(k.calls[c].t)]), Unlinked(l, k.calls[c].t))
  {
    hide Inv, BoardOk, WellFormed, NodeOf, Off, Unlinked, Dying;
    var t := k.calls[c].t;
    var k' := Loosened(k, t).(calls := k.calls[c := Resuming(t)]);
    KnownCall(k, l, c);
    OffReady(k.board, t);
    OffKeeps(k.board, l, t);
    UnlinkedShape(l, t);
    DyingBut(k, k', t, c);
    StillCalls(k, k', t);
    OneThread(k, l, k', Unlinked(l, t), t);
  }

  /** A call that deletes nothing makes no difference. */
  lemma DyingBut(k: State, k': State, t: Tid, c: Ctx)
    requires c in k.calls ==> !k.calls[c].Deleting?
    requires c in k'.calls ==> !k'.calls[c].Deleting?
    requires k'.calls - {c} == k.calls - {c}
    ensures Dying(k', t) <==> Dying(k, t)
  {
    forall d | d != c ensures d in k.calls <==> d in k'.calls
      ensures d in k.calls ==> k'.calls[d] == k.calls[d]
    {
      assert d in k.calls <==> d in k.calls - {c};
      assert d in k'.calls <==> d in k'.calls - {c};
      assert d in k.calls ==> (k.calls - {c})[d] == k.calls[d];
    }
  }

  lemma InsertedKeeps(k: State, l: Lists, c: Ctx)
    requires Sane(k) && Inv(k, l) && c in k.calls && k.calls[c].Resuming? && k.calls[c].t in k.threads
    requires var t := k.calls[c].t; !Dying(k, t) && Lone(k, t) && k.threads[t].stat != Closed && !k.threads[t].timed
    ensures var t := k.calls[c].t; Inv(Inserted(k, t).(calls := k.calls - {c}), Queued(l, t, k.threads[t].prio))
  {
    hide Inv, Lone, WellFormed, NodeOf, Put, Dying, BoardOk;
    var t := k.calls[c].t;
    var k' := Inserted(k, t).(calls := k.calls - {c});
    KnownCall(k, l, c);
    LoneIff(k, l, t);
    PutKeeps(k.board, l, t, k.threads[t].prio);
    PutReady(k.board, t, k.threads[t].prio);
    DyingBut(k, k', t, c);
    NoDeletion(k', t);
    OneThread(k, l, k', Queued(l, t, k.threads[t].prio), t);
  }

  /** The thread's parts after rt_thread_suspend. */
  lemma SuspendedBoard(k: State, l: Lists, t: Tid)
    requires Sane(k) && Inv(k, l) && t in k.threads
    ensures BoardOk(Taken(k.board, t, k.threads[t].prio), Unlinked(l, t))
            && Kept(k.board, Taken(k.board, t, k.threads[t].prio))
    ensures Unlinked(l, t).place == l.place[t := Nowhere]
  {
    hide BoardOk, WellFormed, NodeOf, Taken, Unlinked, Dying;
    Known(k, l, t);
    TakenKeeps(k.board, l, t, k.threads[t].prio);
    TakenReady(k.board, t, k.threads[t].prio);
    UnlinkedShape(l, t);
  }

  lemma SuspendedKeeps(k: State, l: Lists, c: Ctx)
    requires Sane(k) && Inv(k, l) && c in k.calls && k.calls[c].Suspending? && k.calls[c].t in k.threads
    requires k.threads[k.calls[c].t].stat != Closed
    ensures Inv(Suspended(k, k.calls[c].t).(calls := k.calls - {c}), Unlinked(l, k.calls[c].t))
  {
    hide Inv, BoardOk, WellFormed, NodeOf, Taken, Unlinked, Dying;
    var t := k.calls[c].t;
    var k' := Suspended(k, t).(calls := k.calls - {c});
    KnownCall(k, l, c);
    SuspendedBoard(k, l, t);
    DyingBut(k, k', t, c);
    StillCalls(k, k', t);
    OneThread(k, l, k', Unlinked(l, t), t);
  }

  lemma SleepKeeps(k: State, l: Lists, t: Tid)
    requires Sane(k) && Inv(k, l) && StatIs(k, t, Ready) && !Dying(k, t)
    ensures Inv(Started(Suspended(k, t), t), Unlinked(l, t))
  {
    hide Inv, BoardOk, WellFormed, NodeOf, Taken, Unlinked, Dying;
    var k' := Started(Suspended(k, t), t);
    Known(k, l, t);
    SuspendedBoard(k, l, t);
    DyingFrame(k, k', t);
    NoDeletion(k', t);
    OneThread(k, l, k', Unlinked(l, t), t);
  }

  lemma YieldedKeeps(k: State, l: Lists, t: Tid)
    requires Sane(k) && Inv(k, l) && StatIs(k, t, Ready) && !Dying(k, t)
    ensures var p := k.threads[t].prio;
            Inv(Yielded(k, t), Queued(Unlinked(l, t), t, p))
  {
    hide Inv, BoardOk, WellFormed, NodeOf, Off, Before, Unlinked, Dying, Queued, Company;
    var p, k' := k.threads[t].prio, Yielded(k, t);
    Known(k, l, t);
    if Company(k, t) {
      YieldedBoard(k, l, t);
      UnlinkedShape(l, t);
      DyingFrame(k, k', t);
      NoDeletion(k', t);
      OneThread(k, l, k', Queued(Unlinked(l, t), t, p), t);
    } else {
      OnlyOne(k, l, t);
    }
  }

  /** A thread whose neighbours are the same is alone in its queue. */
  lemma OnlyOne(k: State, l: Lists, t: Tid)
    requires Sane(k) && Inv(k, l) && t in k.threads && l.place[t] == Queue(k.threads[t].prio) && !Company(k, t)
    ensures Queued(Unlinked(l, t), t, k.threads[t].prio) == l
  {
    hide ThreadOk, CallOk, Dying, NodeOf, Head, BitsOk, Wired, Chain;
    var x := Queue(k.threads[t].prio);
    assert HasHead(k.board, x) && ListOk(k.board.links, l, x);
    HoldsPlace(k.board.links, l, t);
    var q := l.at[x];
    var i :| 0 <= i < |q| && q[i] == t;
    ChainAt(x, q);
    var c := Chain(x, q);
    assert Joined(k.board.links, c, i + 1);
    assert Succ(c, i + 1) == Pred(c, i + 1);
    var j := if i + 2 < |c| then i + 2 else 0;
    assert c[j] == c[i];
    assert q == [t];
    assert l.place[t := Nowhere][t := x] == l.place && Removed(q, t) == [];
    assert Unlinked(l, t).at[x := [t]] == l.at;
    assert InsertAt([], 0, t) == [t];
  }

  /** Off the queue and to its end: the queue is not empty afterwards, as before. */
  lemma YieldedBoard(k: State, l: Lists, t: Tid)
    requires Sane(k) && Inv(k, l) && t in k.threads && l.place[t] == Queue(k.threads[t].prio)
    requires Company(k, t)
    ensures var p, l' := k.threads[t].prio, Queued(Unlinked(l, t), t, k.threads[t].prio);
            BoardOk(Yielded(k, t).board, l') && l'.place == l.place[t := Queue(p)]
            && Yielded(k, t).board.wide == k.board.wide
  {
    hide ThreadOk, CallOk, Dying, NodeOf, Head, Remove, InsertBefore, Rep, BitsOk, Basics.Removed, InsertAt, Wired;
    var p, l1 := k.threads[t].prio, Unlinked(l, t);
    UnlinkRep(k.board.links, l, t);
    OffReady(k.board, t);
    assert HasHead(k.board, Queue(p));
    assert Queue(p) in l.at && Queue(p) in l1.at;
    LinkBeforeRep(Off(k.board, t).links, l1, t, Queue(p), |l1.at[Queue(p)]|);
    var l' := Queued(l1, t, p);
    InsertNonEmpty(l1.at[Queue(p)], |l1.at[Queue(p)]|, t);
    assert l.at[Queue(p)] != [] by { HoldsPlace(k.board.links, l, t); }
    assert Busy(l', k.board.wide) == Busy(l, k.board.wide);
  }

  lemma HoldsPlace(links: Links, l: Lists, t: Tid)
    requires Rep(links, l) && t in l.place && l.place[t] in l.at
    ensures t in l.at[l.place[t]]
  {
    hide Ring;
    assert ListOk(links, l, l.place[t]);
  }

  lemma PrioritisedKeeps(k: State, l: Lists, t: Tid, p: nat)
    requires Sane(k) && Inv(k, l) && t in k.threads && p < Levels(k.board.wide) && !(StatIs(k, t, Ready) && Dying(k, t))
    ensures Inv(Prioritised(k, t, p), if StatIs(k, t, Ready) then Queued(Unlinked(l, t), t, p) else l)
  {
    hide Inv, BoardOk, WellFormed, NodeOf, Taken, Put, Unlinked, Dying;
    var k' := Prioritised(k, t, p);
    Known(k, l, t);
    DyingFrame(k, k', t);
    if StatIs(k, t, Ready) {
      SuspendedBoard(k, l, t);
      PutKeeps(Taken(k.board, t, k.threads[t].prio), Unlinked(l, t), t, p);
      PutReady(Taken(k.board, t, k.threads[t].prio), t, p);
      NoDeletion(k', t);
      OneThread(k, l, k', Queued(Unlinked(l, t), t, p), t);
    } else {
      StillCalls(k, k', t);
      OneThread(k, l, k', l, t);
    }
  }

  /** Thread t at the front of the defunct list. */
  function Interred(l: Lists, t: Tid): Lists {
    if Defunct in l.at then Linked(l, t, Defunct, 0) else l
  }

  lemma ExitedKeeps(k: State, l: Lists, t: Tid, keep: bool)
    requires Sane(k) && Inv(k, l) && StatIs(k, t, Ready) && !Dying(k, t)
    ensures Inv(Exited(k, t, keep), if keep then Interred(Unlinked(l, t), t) else Unlinked(l, t))
  {
    hide Inv, BoardOk, WellFormed, NodeOf, Head, Taken, After, Unlinked, Dying;
    var k', b := Exited(k, t, keep), Taken(k.board, t, k.threads[t].prio);
    Known(k, l, t);
    SuspendedBoard(k, l, t);
    DefunctKeeps(b, Unlinked(l, t), t);
    AfterReady(b, Head(Defunct), t);
    DyingFrame(k, k', t);
    NoDeletion(k', t);
    OneThread(k, l, k', if keep then Interred(Unlinked(l, t), t) else Unlinked(l, t), t);
  }

  lemma DoomedKeeps(k: State, l: Lists, c: Ctx, t: Tid, keep: bool)
    requires Sane(k) && Inv(k, l) && c !in k.calls && t in k.threads
    ensures Inv(Doomed(k, c, t, keep), Unlinked(l, t))
  {
    hide Inv, BoardOk, WellFormed, NodeOf, Taken, Unlinked, Dying;
    var k' := Doomed(k, c, t, keep);
    Known(k, l, t);
    SuspendedBoard(k, l, t);
    assert Dying(k', t) by { DyingBy(k', c); }
    forall d | d in k'.calls && k'.calls[d].t == t ensures CallOk(k', d) { assert d != c ==> CallOk(k, d); }
    OneThread(k, l, k', Unlinked(l, t), t);
  }

  lemma DyingBy(k: State, c: Ctx)
    requires c in k.calls && k.calls[c].Deleting?
    ensures Dying(k, k.calls[c].t)
  {
  }

  lemma UntimedKeeps(k: State, l: Lists, c: Ctx)
    requires Sane(k) && Inv(k, l) && Stands(k, c, OffList)
    ensures Inv(Untimed(k, c), l)
  {
    hide Inv, BoardOk, WellFormed, Dying;
    var t, k' := k.calls[c].t, Untimed(k, c);
    KnownCall(k, l, c);
    DyingBy(k, c);
    DyingBy(k', c);
    forall d | d in k'.calls && k'.calls[d].t == t ensures CallOk(k', d) { assert CallOk(k, d); }
    OneThread(k, l, k', l, t);
  }

  lemma ClosedByKeeps(k: State, l: Lists, c: Ctx)
    requires Sane(k) && Inv(k, l) && Stands(k, c, OffTimers)
    ensures Inv(ClosedBy(k, c), l)
  {
    hide Inv, BoardOk, WellFormed, Dying;
    var t, k' := k.calls[c].t, ClosedBy(k, c);
    KnownCall(k, l, c);
    DyingBy(k, c);
    forall d | d in k'.calls && k'.calls[d].t == t ensures CallOk(k', d) { assert CallOk(k, d); }
    OneThread(k, l, k', l, t);
  }

  lemma BuriedKeeps(k: State, l: Lists, c: Ctx)
    requires Sane(k) && Inv(k, l) && Stands(k, c, Marked) && Lone(k, k.calls[c].t)
    ensures Inv(Buried(k, c), Interred(l, k.calls[c].t))
  {
    hide Inv, Lone, WellFormed, NodeOf, Head, After, Dying, BoardOk;
    var t, k' := k.calls[c].t, Buried(k, c);
    KnownCall(k, l, c);
    LoneIff(k, l, t);
    DefunctKeeps(k.board, l, t);
    AfterReady(k.board, Head(Defunct), t);
    StillCalls(k, k', t);
    OneThread(k, l, k', Interred(l, t), t);
  }

  // ----------------------------------------------------------------- blocking

  /** The current priorities, as a wait list sees them. */
  function Urgency(threads: map<Tid, Thread>): Tickets {
    map t | t in threads :: Ticket(threads[t].prio, 0)
  }

  lemma UrgencyOf(threads: map<Tid, Thread>, t: Tid)
    requires t in threads
    ensures Priority(Urgency(threads), t) == threads[t].prio
  {
  }

  lemma {:induction false} FitsIn(q: seq<Tid>, s: set<Tid>)
    requires Distinct(q) && forall t :: t in q ==> t in s
    ensures |q| <= |s|
  {
    if |q| > 0 {
      var r := q[1..];
      assert Distinct(r) by { forall a, b | 0 <= a < b < |r| ensures r[a] != r[b] { assert q[a + 1] != q[b + 1]; } }
      assert q[0] in s;
      forall t | t in r ensures t in s - {q[0]} {
        assert t in q;
        var a :| 0 <= a < |r| && r[a] == t;
        assert q[a + 1] != q[0];
      }
      FitsIn(r, s - {q[0]});
    }
  }

  /** One step along a wait list. */
  lemma NextAt(links: Links, l: Lists, x: Place, i: nat)
    requires Rep(links, l) && x in l.at && i < |l.at[x]|
    ensures NodeAt(l, x, i) in links.next && NodeAt(l, x, i) != Head(x)
    ensures links.next[NodeAt(l, x, i)] == NodeAt(l, x, i + 1) && At(l, l.at[x][i], x)
  {
    var q := l.at[x];
    assert ListOk(links, l, x);
    ChainAt(x, q);
    HeadsApart(x, x, q[i]);
    assert q[i] in q;
    hide Head, NodeOf, Chain;
    assert Joined(links, Chain(x, q), i + 1);
  }

  /** One step of the walk, at the i-th member of the list. */
  lemma WalkStep(k: State, l: Lists, x: Place, p: nat, i: nat, fuel: nat)
    requires Rep(k.board.links, l) && l.place.Keys == k.threads.Keys && x in l.at && i < |l.at[x]| && fuel > 0
    ensures Walk(k, NodeAt(l, x, i), Head(x), p, fuel)
            == if p < Priority(Urgency(k.threads), l.at[x][i]) then NodeAt(l, x, i)
               else Walk(k, NodeAt(l, x, i + 1), Head(x), p, fuel - 1)
  {
    hide Rep, Head, Urgency, Priority;
    NextAt(k.board.links, l, x, i);
    assert l.at[x][i] in l.place.Keys;
    UrgencyOf(k.threads, l.at[x][i]);
  }

  /** The walk of rt_ipc_list_suspend ends at the first less urgent thread. */
  lemma {:induction false} WalkIs(k: State, l: Lists, x: Place, p: nat, i: nat, fuel: nat)
    requires Rep(k.board.links, l) && l.place.Keys == k.threads.Keys && x in l.at && i <= |l.at[x]| <= fuel + i
    requires forall j :: 0 <= j < i ==> Priority(Urgency(k.threads), l.at[x][j]) <= p
    ensures Walk(k, NodeAt(l, x, i), Head(x), p, fuel) == NodeAt(l, x, Position(l.at[x], Urgency(k.threads), p))
    decreases fuel
  {
    var q := l.at[x];
    hide Rep, Head, Position, Urgency, Priority;
    if i == |q| {
      PositionIs(q, Urgency(k.threads), p, i);
    } else {
      hide Walk, NodeAt;
      WalkStep(k, l, x, p, i, fuel);
      if p < Priority(Urgency(k.threads), q[i]) {
        PositionIs(q, Urgency(k.threads), p, i);
      } else {
        WalkIs(k, l, x, p, i + 1, fuel - 1);
      }
    }
  }

  /** How many members stand before the place found. */
  function Spot(q: seq<Tid>, threads: map<Tid, Thread>, flag: Flag, p: nat): (i: nat)
    ensures i <= |q|
  {
    if flag.Fifo? then |q| else Position(q, Urgency(threads), p)
  }

  lemma TargetIs(k: State, l: Lists, o: Obj, flag: Flag, p: nat)
    requires Rep(k.board.links, l) && l.place.Keys == k.threads.Keys && Waiting(o) in l.at
    ensures Target(k, o, flag, p) == NodeAt(l, Waiting(o), Spot(l.at[Waiting(o)], k.threads, flag, p))
  {
    hide Rep, Head, Walk, Ring, Position;
    var x := Waiting(o);
    var q := l.at[x];
    FirstAt(k.board.links, l, x);
    assert |q| <= |k.threads| by {
      assert Distinct(q) && forall t :: t in q ==> t in k.threads.Keys by { WaitersKnown(k.board.links, l, x); }
      FitsIn(q, k.threads.Keys);
    }
    WalkIs(k, l, x, p, 0, |k.threads|);
  }

  lemma FirstAt(links: Links, l: Lists, x: Place)
    requires Rep(links, l) && x in l.at
    ensures Head(x) in links.next && links.next[Head(x)] == NodeAt(l, x, 0)
  {
    var q := l.at[x];
    assert ListOk(links, l, x);
    ChainAt(x, q);
    hide Head, NodeOf, Chain;
    assert Joined(links, Chain(x, q), 0);
  }

  lemma WaitersKnown(links: Links, l: Lists, x: Place)
    requires Rep(links, l) && x in l.at
    ensures Distinct(l.at[x]) && forall t :: t in l.at[x] ==> t in l.place.Keys
  {
    hide Ring, Chain;
    assert ListOk(links, l, x);
    ChainDistinct(links, x, l.at[x]);
  }

  /** The lists after thread t is suspended on object o: rt_ipc_list_suspend. */
  function BlockedOn(k: State, l: Lists, t: Tid, o: Obj, flag: Flag): Lists
    requires t in k.threads
  {
    var l1 := Unlinked(l, t);
    if Waiting(o) in l1.at
    then Linked(l1, t, Waiting(o), Spot(l1.at[Waiting(o)], k.threads, flag, k.threads[t].prio))
    else l1
  }

  lemma BlockedBoard(k: State, l: Lists, t: Tid, o: Obj, flag: Flag, timed: bool)
    requires Sane(k) && Inv(k, l) && t in k.threads && o in k.board.objects
    ensures BoardOk(Blocked(k, t, o, flag, timed).board, BlockedOn(k, l, t, o, flag))
    ensures Kept(k.board, Blocked(k, t, o, flag, timed).board)
    ensures BlockedOn(k, l, t, o, flag).place == l.place[t := Waiting(o)]
  {
    hide Rep, BitsOk, WellFormed, NodeOf, Head, Taken, Before;
    hide Unlinked, Target, Spot, InsertAt, Dying, ThreadOk, CallOk;
    var p := k.threads[t].prio;
    SuspendedBoard(k, l, t);
    TakenReady(k.board, t, p);
    var k1, l1 := Suspended(k, t), Unlinked(l, t);
    assert HasHead(k1.board, Waiting(o));
    assert l1.place.Keys == k1.threads.Keys;
    TargetIs(k1, l1, o, flag, p);
    SpotSame(l1.at[Waiting(o)], k.threads, k1.threads, flag, p);
    BeforeKeeps(k1.board, l1, t, o, Spot(l1.at[Waiting(o)], k.threads, flag, p));
    BeforeReady(k1.board, Target(k1, o, flag, p), t);
  }

  lemma SpotSame(q: seq<Tid>, threads: map<Tid, Thread>, threads': map<Tid, Thread>, flag: Flag, p: nat)
    requires threads'.Keys == threads.Keys && forall t :: t in threads ==> threads'[t].prio == threads[t].prio
    ensures Spot(q, threads', flag, p) == Spot(q, threads, flag, p)
  {
    hide Position;
    assert Urgency(threads') == Urgency(threads);
  }

  lemma BlockedKeeps(k: State, l: Lists, t: Tid, o: Obj, flag: Flag, timed: bool)
    requires Sane(k) && Inv(k, l) && StatIs(k, t, Ready) && !Dying(k, t) && o in k.board.objects
    ensures Inv(Blocked(k, t, o, flag, timed), BlockedOn(k, l, t, o, flag))
  {
    hide Inv, BoardOk, WellFormed, NodeOf, Taken, Before, Target, BlockedOn, Dying;
    var k' := Blocked(k, t, o, flag, timed);
    Known(k, l, t);
    BlockedBoard(k, l, t, o, flag, timed);
    DyingFrame(k, k', t);
    NoDeletion(k', t);
    OneThread(k, l, k', BlockedOn(k, l, t, o, flag), t);
  }

  /** The wait list then is what rt_ipc_list_suspend makes of it. */
  lemma BlockedList(k: State, l: Lists, t: Tid, o: Obj, flag: Flag)
    requires Inv(k, l) && StatIs(k, t, Ready) && !Dying(k, t) && o in k.board.objects
    ensures Waiting(o) in l.at && Waiting(o) in BlockedOn(k, l, t, o, flag).at
    ensures BlockedOn(k, l, t, o, flag).at[Waiting(o)]
            == WaitList.Suspended(l.at[Waiting(o)], Urgency(k.threads), flag, t)
  {
    hide Position, Dying, Rep, BitsOk, Unlinked;
    Known(k, l, t);
    assert HasHead(k.board, Waiting(o));
    UnlinkedShape(l, t);
  }

  // --------------------------------------------------------------- reclaiming

  /** The defunct list without its first thread. */
  function Freed(l: Lists): Lists {
    if Defunct in l.at && l.at[Defunct] != [] then Unlinked(l, l.at[Defunct][0]) else l
  }

  lemma ReclaimedKeeps(k: State, l: Lists)
    requires Sane(k) && Inv(k, l) && !IsEmpty(k.board.links, Head(Defunct))
    ensures Inv(Reclaimed(k), Freed(l))
  {
    hide Inv, WellFormed, NodeOf, Head, Off, Unlinked, Dying, Rep, BitsOk;
    KnownBoard(k, l);
    assert HasHead(k.board, Defunct);
    ListEmptyIff(k.board.links, l, Defunct);
    FirstAt(k.board.links, l, Defunct);
    NextAt(k.board.links, l, Defunct, 0);
    var t, k' := l.at[Defunct][0], Reclaimed(k);
    assert t in l.place.Keys;
    assert k'.board == Off(k.board, t) by { ReclaimedIs(k, t); }
    Known(k, l, t);
    OffReady(k.board, t);
    OffKeeps(k.board, l, t);
    UnlinkedShape(l, t);
    hide BoardOk;
    DyingFrame(k, k', t);
    OneThread(k, l, k', Freed(l), t);
  }

  lemma ReclaimedIs(k: State, t: Tid)
    requires Sane(k) && Head(Defunct) in k.board.links.next && k.board.links.next[Head(Defunct)] == NodeOf(t)
    requires NodeOf(t) in k.board.links.next
    ensures Reclaimed(k).board == Off(k.board, t)
  {
    hide NodeOf, Head, Remove, Wired;
  }

  // ------------------------------------------------- calls, flags and schedule

  /** Nothing but new calls that delete nothing. */
  ghost predicate OnlyTests(k: State, k': State) {
    (forall c :: c in k.calls ==> c in k'.calls && k'.calls[c] == k.calls[c])
    && forall c :: c in k'.calls && c !in k.calls ==> !k'.calls[c].Deleting? && k'.calls[c].t in k.threads
  }

  lemma AsideKeeps(k: State, l: Lists, k': State)
    requires Inv(k, l) && k' == k.(calls := k'.calls, current := k'.current, locks := k'.locks) && OnlyTests(k, k')
    ensures Inv(k', l)
  {
    hide BoardOk, Dying;
    forall t | t in k'.threads ensures ThreadOk(k', l, t) {
      Known(k, l, t);
      assert Dying(k', t) <==> Dying(k, t) by { DyingAside(k, k', t); }
    }
    forall c | c in k'.calls ensures CallOk(k', c) {
      assert c in k.calls ==> CallOk(k, c);
    }
  }

  lemma DyingAside(k: State, k': State, t: Tid)
    requires OnlyTests(k, k')
    ensures Dying(k', t) <==> Dying(k, t)
  {
  }

  // -------------------------------------------------------- one lawful section

  /** The lists after a section. */
  ghost function ListStep(k: State, l: Lists, e: Event): Lists
    requires Sane(k) && Enabled(k, e)
  {
    match e
    case Create(t, _) => l.(place := l.place[t := Nowhere])
    case ResumeFirst(c) => Unlinked(l, k.calls[c].t)
    case ResumeSecond(c) => Queued(l, k.calls[c].t, k.threads[k.calls[c].t].prio)
    case SuspendSecond(c) => Unlinked(l, k.calls[c].t)
    case Wake(t) => Queued(Unlinked(l, t), t, k.threads[t].prio)
    case Block(o, flag, _) => BlockedOn(k, l, k.current, o, flag)
    case Sleep => Unlinked(l, k.current)
    case Timeout(t) => assert t in k.threads.Keys; Queued(Unlinked(l, t), t, k.threads[t].prio)
    case Yield => Queued(Unlinked(l, k.current), k.current, k.threads[k.current].prio)
    case SetPriority(t, p) => if StatIs(k, t, Ready) then Queued(Unlinked(l, t), t, p) else l
    case Exit(keep) => if keep then Interred(Unlinked(l, k.current), k.current) else Unlinked(l, k.current)
    case DeleteFirst(_, t, _) => Unlinked(l, t)
    case LinkDefunct(c) => Interred(l, k.calls[c].t)
    case Reclaim => Freed(l)
    case _ => l
  }

  lemma TimedSuspended(k: State, l: Lists, t: Tid)
    requires Sane(k) && Inv(k, l) && t in k.timers && !Dying(k, t)
    ensures StatIs(k, t, Suspend)
  {
    assert t in k.threads.Keys;
    Known(k, l, t);
  }

  lemma CallKnown(k: State, c: Ctx)
    requires Sane(k) && c in k.calls
    ensures k.calls[c].t in k.threads
  {
  }

  lemma AsideStep(k: State, l: Lists, e: Event)
    requires Sane(k) && Inv(k, l) && Enabled(k, e)
    requires e.ResumeTest? || e.SuspendTest? || e.Schedule? || e.EnterCritical? || e.ExitCritical?
    ensures Inv(Step(k, e), l)
  {
    hide Inv, Sane, Flags, Lowest;
    AsideKeeps(k, l, Step(k, e));
  }

  lemma DeletionKeeps(k: State, l: Lists, e: Event)
    requires Sane(k) && Inv(k, l) && Enabled(k, e) && Lawful(k, e)
    requires e.DeleteFirst? || e.DetachTimer? || e.MarkClosed? || e.LinkDefunct? || e.Exit? || e.Reclaim?
    ensures Inv(Step(k, e), ListStep(k, l, e))
  {
    hide Sane, Inv, Doomed, Untimed, ClosedBy, Buried, Exited, Reclaimed, Unlinked, Interred, Freed, Dying;
    match e {
      case DeleteFirst(c, t, keep) => DoomedKeeps(k, l, c, t, keep);
      case DetachTimer(c) => UntimedKeeps(k, l, c);
      case MarkClosed(c) => ClosedByKeeps(k, l, c);
      case LinkDefunct(c) => BuriedKeeps(k, l, c);
      case Exit(keep) => ExitedKeeps(k, l, k.current, keep);
      case Reclaim => ReclaimedKeeps(k, l);
    }
  }

  lemma RunningKeeps(k: State, l: Lists, e: Event)
    requires Sane(k) && Inv(k, l) && Enabled(k, e)
    requires e.Block? || e.Sleep? || e.Yield?
    ensures Inv(Step(k, e), ListStep(k, l, e))
  {
    hide Sane, Inv, Blocked, BlockedOn, Started, Suspended, Yielded, Unlinked, Queued, Dying;
    match e {
      case Block(o, flag, timed) => BlockedKeeps(k, l, k.current, o, flag, timed);
      case Sleep => SleepKeeps(k, l, k.current);
      case Yield => YieldedKeeps(k, l, k.current);
    }
  }

  /** Every lawful section keeps each thread in exactly the place its state calls for. */
  lemma LawfulKeeps(k: State, l: Lists, e: Event)
    requires Sane(k) && Inv(k, l) && Enabled(k, e) && Lawful(k, e)
    ensures Inv(Step(k, e), ListStep(k, l, e))
  {
    hide Sane, Inv, Created, Woken, Loosened, Inserted, Suspended, Prioritised, Unlinked, Queued, Dying, Started,
      Blocked, BlockedOn, Yielded, Interred, Freed, Exited, Reclaimed, Scheduled, Flags, Lowest, SetThread;
    match e {
      case Create(t, prio) => CreatedKeeps(k, l, t, prio);
      case Startup(t) => StartupKeeps(k, l, t);
      case ResumeFirst(c) =>
        CallKnown(k, c);
        LoosenedKeeps(k, l, c);
      case ResumeSecond(c) =>
        CallKnown(k, c);
        InsertedKeeps(k, l, c);
      case SuspendSecond(c) =>
        CallKnown(k, c);
        SuspendedKeeps(k, l, c);
      case Wake(t) => WokenKeeps(k, l, t);
      case Timeout(t) =>
        TimedSuspended(k, l, t);
        WokenKeeps(k, l, t);
      case SetPriority(t, p) => PrioritisedKeeps(k, l, t, p);
      case Block(_, _, _) => RunningKeeps(k, l, e);
      case Sleep => RunningKeeps(k, l, e);
      case Yield => RunningKeeps(k, l, e);
      case DeleteFirst(_, _, _) => DeletionKeeps(k, l, e);
      case DetachTimer(_) => DeletionKeeps(k, l, e);
      case MarkClosed(_) => DeletionKeeps(k, l, e);
      case LinkDefunct(_) => DeletionKeeps(k, l, e);
      case Exit(_) => DeletionKeeps(k, l, e);
      case Reclaim => DeletionKeeps(k, l, e);
      case _ => AsideStep(k, l, e);
    }
  }

  // ------------------------------------------------------- unlawful sections

  /** A thread that stands in a ready queue while it is being deleted, or while its
      status or its timer say otherwise, is not as it should be. */
  lemma Misplaced(k: State, l: Lists, t: Tid)
    requires t in k.threads && t in l.place && l.place[t].Queue?
    requires Dying(k, t) || k.threads[t].stat != Ready || k.threads[t].timed || t in k.closed
    ensures !ThreadOk(k, l, t)
  {
    hide Dying;
  }

  lemma NotInv(k: State, l: Lists, t: Tid)
    requires t in k.threads && !ThreadOk(k, l, t)
    ensures !Inv(k, l)
  {
    hide BoardOk, ThreadOk;
  }

  /** If the links are those of the lists l1, and these are not as they should be for
      one thread, then the state is good for no lists. */
  lemma OnlyLists(k: State, l1: Lists, t: Tid, l: Lists)
    requires BoardOk(k.board, l1) && l1.place.Keys == k.threads.Keys && t in k.threads && !ThreadOk(k, l1, t)
    ensures !Inv(k, l)
  {
    if BoardOk(k.board, l) && l.place.Keys == k.threads.Keys {
      BoardUnique(k.board, l, l1);
      hide BoardOk, ThreadOk;
    } else {
      hide BoardOk, ThreadOk;
    }
  }

  /** A wake-up or a timeout in the middle of a deletion. */
  lemma WokenRuins(k: State, l: Lists, t: Tid, l': Lists)
    requires Sane(k) && Inv(k, l) && t in k.threads && Dying(k, t) && (t in k.timers || StatIs(k, t, Suspend))
    ensures !Inv(Woken(k, t), l')
  {
    hide Inv, BoardOk, WellFormed, Woken, Unlinked, Dying;
    Known(k, l, t);
    WokenBoard(k, l, t);
    UnlinkedShape(l, t);
    var k', l1 := Woken(k, t), Queued(Unlinked(l, t), t, k.threads[t].prio);
    WokenCalls(k, t);
    DyingFrame(k, k', t);
    Misplaced(k', l1, t);
    KnownBoard(k, l);
    OnlyLists(k', l1, t, l');
  }

  lemma WokenCalls(k: State, t: Tid)
    requires Sane(k) && t in k.threads
    ensures Woken(k, t).calls == k.calls && Woken(k, t).threads.Keys == k.threads.Keys
  {
    hide Put, Off, NodeOf;
  }

  /** The first section of a resume for a thread that is READY by now. */
  lemma LoosenedRuins(k: State, l: Lists, c: Ctx, l': Lists)
    requires Sane(k) && Inv(k, l) && c in k.calls && k.calls[c].Tested?
    requires k.calls[c].t in k.threads && !Dying(k, k.calls[c].t) && StatIs(k, k.calls[c].t, Ready)
    ensures !Inv(Loosened(k, k.calls[c].t).(calls := k.calls[c := Resuming(k.calls[c].t)]), l')
  {
    hide Inv, BoardOk, WellFormed, NodeOf, Remove, Unlinked, Dying;
    var t := k.calls[c].t;
    var k' := Loosened(k, t).(calls := k.calls[c := Resuming(t)]);
    Known(k, l, t);
    KnownBoard(k, l);
    DyingBut(k, k', t, c);
    if Inv(k', l') {
      OffForced(k, l, t, k', l');
      Known(k', l', t);
    }
  }

  /** After rt_list_remove the thread is in no list, whatever the lists are. */
  lemma OffForced(k: State, l: Lists, t: Tid, k': State, l': Lists)
    requires Sane(k) && Inv(k, l) && Inv(k', l') && t in k.threads && k'.board == Off(k.board, t)
    requires k'.threads.Keys == k.threads.Keys
    ensures l'.place[t] == Nowhere
  {
    hide BitsOk, NodeOf, Head, Remove, Basics.Removed, ThreadOk, CallOk, WellFormed;
    UnlinkRep(k.board.links, l, t);
    assert l'.place.Keys == l.place.Keys;
    hide Rep;
    SameHeads(k.board, k'.board, l, l');
    UnlinkedShape(l, t);
    RepUnique(k'.board.links, l', Unlinked(l, t));
  }

  /** The second section of a resume for a thread that somebody else has moved on. */
  lemma InsertedRuins(k: State, l: Lists, c: Ctx, l': Lists)
    requires Sane(k) && Inv(k, l) && c in k.calls && k.calls[c].Resuming? && k.calls[c].t in k.threads
    requires var t := k.calls[c].t; Dying(k, t) || !Lone(k, t) || k.threads[t].stat == Closed || k.threads[t].timed
    ensures !Inv(Inserted(k, k.calls[c].t).(calls := k.calls - {c}), l')
  {
    hide WellFormed, NodeOf, Put, Dying, Rep, BitsOk, BoardOk;
    var t := k.calls[c].t;
    var k' := Inserted(k, t).(calls := k.calls - {c});
    KnownCall(k, l, c);
    assert BoardOk(k.board, l);
    LoneIff(k, l, t);
    if !Lone(k, t) {
      if Inv(k', l') { PutRuins(k.board, l, t, k.threads[t].prio, l'); }
    } else {
      PutKeeps(k.board, l, t, k.threads[t].prio);
      DyingBut(k, k', t, c);
      Misplaced(k', Queued(l, t, k.threads[t].prio), t);
      OnlyLists(k', Queued(l, t, k.threads[t].prio), t, l');
    }
  }

  lemma LoneIff(k: State, l: Lists, t: Tid)
    requires Inv(k, l) && t in k.threads
    ensures t in l.place && (Lone(k, t) <==> l.place[t] == Nowhere)
  {
    hide Rep, BitsOk, NodeOf;
    Known(k, l, t);
    AloneIff(k.board.links, l, t);
  }

  /** A thread put on the defunct list while it is still in a list. */
  lemma BuriedRuins(k: State, l: Lists, c: Ctx, l': Lists)
    requires Sane(k) && Inv(k, l) && Stands(k, c, Marked) && !Lone(k, k.calls[c].t)
    ensures !Inv(Buried(k, c), l')
  {
    hide WellFormed, NodeOf, Head, After, Dying, Rep, BitsOk, BoardOk;
    var t := k.calls[c].t;
    KnownCall(k, l, c);
    LoneIff(k, l, t);
    if Inv(Buried(k, c), l') { DefunctRuins(k.board, l, t, l'); }
  }

  lemma PrioritisedRuins(k: State, l: Lists, t: Tid, p: nat, l': Lists)
    requires Sane(k) && Inv(k, l) && StatIs(k, t, Ready) && Dying(k, t) && p < Levels(k.board.wide)
    ensures !Inv(Prioritised(k, t, p), l')
  {
    hide Inv, BoardOk, WellFormed, NodeOf, Taken, Put, Unlinked, Dying;
    var k' := Prioritised(k, t, p);
    Known(k, l, t);
    KnownBoard(k, l);
    DyingFrame(k, k', t);
    SuspendedBoard(k, l, t);
    PutKeeps(Taken(k.board, t, k.threads[t].prio), Unlinked(l, t), t, p);
    Misplaced(k', Queued(Unlinked(l, t), t, p), t);
    OnlyLists(k', Queued(Unlinked(l, t), t, p), t, l');
  }

  lemma UnlawfulRuins(k: State, l: Lists, e: Event, l': Lists)
    requires Sane(k) && Inv(k, l) && Enabled(k, e) && !Lawful(k, e)
    ensures !Inv(Step(k, e), l')
  {
    hide Sane, Inv, Created, Woken, Loosened, Inserted, Suspended, Prioritised, Dying, Started, Blocked, Yielded,
      Exited, Reclaimed, Scheduled, Flags, Lowest, Buried;
    match e {
      case ResumeFirst(c) =>
        CallKnown(k, c);
        LoosenedRuins(k, l, c, l');
      case ResumeSecond(c) =>
        CallKnown(k, c);
        InsertedRuins(k, l, c, l');
      case SuspendSecond(c) =>
        CallKnown(k, c);
        SuspendedRuins(k, l, c, l');
      case Wake(t) => WokenRuins(k, l, t, l');
      case Timeout(t) =>
        TimerKnown(k, t);
        WokenRuins(k, l, t, l');
      case SetPriority(t, p) => PrioritisedRuins(k, l, t, p, l');
      case LinkDefunct(c) => BuriedRuins(k, l, c, l');
    }
  }

  /** A closed thread made SUSPEND again. */
  lemma SuspendedRuins(k: State, l: Lists, c: Ctx, l': Lists)
    requires Sane(k) && Inv(k, l) && c in k.calls && StatIs(k, k.calls[c].t, Closed)
    ensures !Inv(Suspended(k, k.calls[c].t).(calls := k.calls - {c}), l')
  {
    hide BoardOk, WellFormed, Taken, Dying;
    Known(k, l, k.calls[c].t);
    NotInv(Suspended(k, k.calls[c].t).(calls := k.calls - {c}), l', k.calls[c].t);
  }

  // ----------------------------------------------------------------- theorems

  /** From a good state a section leads to a good state exactly if it is lawful. */
  lemma StepExact(k: State, e: Event)
    requires Good(k) && Enabled(k, e)
    ensures Sane(Step(k, e)) && (Good(Step(k, e)) <==> Lawful(k, e))
  {
    hide Sane, Inv, Enabled, Step, Lawful;
    StepSane(k, e);
    var l :| Inv(k, l);
    if Lawful(k, e) {
      LawfulKeeps(k, l, e);
    } else {
      forall l' ensures !Inv(Step(k, e), l') { UnlawfulRuins(k, l, e, l'); }
    }
  }

  // -------------------------------------------------------------- whole runs

  ghost predicate Runs(k: State, es: seq<Event>)
    decreases |es|
  {
    |es| == 0 || (Sane(k) && Enabled(k, es[0]) && Runs(Step(k, es[0]), es[1..]))
  }

  ghost function Last(k: State, es: seq<Event>): State
    requires Runs(k, es)
    decreases |es|
  {
    if |es| == 0 then k else Last(Step(k, es[0]), es[1..])
  }

  /** Every section of the run is lawful where it happens. */
  ghost predicate AllLawful(k: State, es: seq<Event>)
    requires Runs(k, es)
    decreases |es|
  {
    |es| == 0 || (Lawful(k, es[0]) && AllLawful(Step(k, es[0]), es[1..]))
  }

  /** Every state of the run is good. */
  ghost predicate AllGood(k: State, es: seq<Event>)
    requires Runs(k, es)
    decreases |es|
  {
    Good(k) && (|es| == 0 || AllGood(Step(k, es[0]), es[1..]))
  }

  /** A run stays good throughout exactly if each of its sections is lawful. */
  lemma {:induction false} RunExact(k: State, es: seq<Event>)
    requires Good(k) && Runs(k, es)
    ensures AllGood(k, es) <==> AllLawful(k, es)
    decreases |es|
  {
    if |es| > 0 {
      hide Good, Sane, Step, Enabled, Lawful;
      GoodSane(k);
      StepExact(k, es[0]);
      if Good(Step(k, es[0])) {
        RunExact(Step(k, es[0]), es[1..]);
      } else {
        BadStart(Step(k, es[0]), es[1..]);
      }
    }
  }

  lemma GoodSane(k: State)
    requires Good(k)
    ensures Sane(k)
  {
  }

  lemma BadStart(k: State, es: seq<Event>)
    requires Runs(k, es) && !Good(k)
    ensures !AllGood(k, es)
  {
  }

  lemma {:induction false} RunGood(k: State, es: seq<Event>)
    requires Runs(k, es) && AllGood(k, es)
    ensures Good(Last(k, es))
    decreases |es|
  {
    if |es| > 0 {
      hide Good, Sane, Step, Enabled;
      RunGood(Step(k, es[0]), es[1..]);
    }
  }

  // ------------------------------------------------------------------- start

  /** rt_system_scheduler_init: every list head linked to itself, no thread. */
  ghost predicate Initial(k: State) {
    k.threads == map[] && k.timers == {} && k.closed == {} && k.calls == map[] && k.locks == 0
    && k.board.group == 0 && k.board.table == seq(32, _ => 0)
    && k.board.links.prev == k.board.links.next
    && (forall n :: n in k.board.links.next ==> k.board.links.next[n] == n)
    && forall x :: HasHead(k.board, x) ==> Head(x) in k.board.links.next
  }

  /** The places that have a list head. */
  function Heads(b: Board): set<Place> {
    (set p | 0 <= p < Levels(b.wide) :: Queue(p)) + (set o | o in b.objects :: Waiting(o)) + {Defunct}
  }

  lemma {:induction false} ZeroFits(w: nat)
    ensures Fits(0, w)
  {
    if w > 0 { ZeroFits(w - 1); }
  }

  lemma InitialBits(b: Board, l: Lists)
    requires b.group == 0 && b.table == seq(32, _ => 0) && forall x :: x in l.at ==> l.at[x] == []
    ensures BitsOk(b.wide, Busy(l, b.wide), b.group, b.table)
  {
    hide Bit, Fits;
    ZeroFits(32);
    ZeroFits(8);
    forall j: nat ensures !Bit(0, j) { ZeroBits(j); }
    assert forall n :: 0 <= n < 32 ==> b.table[n] == 0;
    assert b.wide ==> forall p :: 0 <= p < 256 ==> b.table[p / 8] == 0;
  }

  lemma InitialGood(k: State)
    requires Initial(k)
    ensures Good(k)
  {
    hide BitsOk, Head;
    var l := Lists(map[], map x | x in Heads(k.board) :: []);
    forall x ensures x in l.at <==> HasHead(k.board, x) { }
    forall x | x in l.at ensures ListOk(k.board.links, l, x) {
      assert HasHead(k.board, x);
      assert Chain(x, []) == [Head(x)];
      assert Joined(k.board.links, [Head(x)], 0);
    }
    forall n ensures Points(k.board.links, n) { }
    InitialBits(k.board, l);
    assert Inv(k, l);
  }

  /** One place per thread: as long as every section of a run is lawful, the links are
      those of some lists, and in them a thread is READY and not being deleted exactly
      if it is in the queue of its current priority; it is in no other list then;
      otherwise it is on at most one list, which no list holds twice; and unless it is
      being deleted its timer runs exactly while it is suspended with a time. */
  lemma OnePlace(k: State, es: seq<Event>, t: Tid) returns (l: Lists)
    requires Initial(k) && Runs(k, es) && AllLawful(k, es) && t in Last(k, es).threads
    ensures var e := Last(k, es);
            var th := e.threads[t];
            Rep(e.board.links, l) && Queue(th.prio) in l.at
            && (th.stat == Ready && !Dying(e, t) <==> t in l.at[Queue(th.prio)])
            && (forall x :: x in l.at ==> Distinct(l.at[x]))
            && (forall x, y :: x in l.at && y in l.at && t in l.at[x] && t in l.at[y] ==> x == y)
            && (forall p :: Queue(p) in l.at && t in l.at[Queue(p)] ==> p == th.prio)
            && (forall o :: Waiting(o) in l.at && t in l.at[Waiting(o)] ==> th.stat == Suspend)
            && (Defunct in l.at && t in l.at[Defunct] ==> th.stat == Closed)
            && (t in e.timers ==> th.timed && (th.stat == Suspend || Dying(e, t)))
            && (!Dying(e, t) ==> (t in e.timers <==> th.timed && th.stat == Suspend))
  {
    InitialGood(k);
    RunExact(k, es);
    RunGood(k, es);
    var e := Last(k, es);
    hide Sane, Runs, AllLawful, AllGood, Last, Initial, Inv;
    l :| Inv(e, l);
    PlaceOf(e, l, t);
  }

  lemma PlaceOf(e: State, l: Lists, t: Tid)
    requires Inv(e, l) && t in e.threads
    ensures var th := e.threads[t];
            Rep(e.board.links, l) && Queue(th.prio) in l.at
            && (th.stat == Ready && !Dying(e, t) <==> t in l.at[Queue(th.prio)])
            && (forall x :: x in l.at ==> Distinct(l.at[x]))
            && (forall x, y :: x in l.at && y in l.at && t in l.at[x] && t in l.at[y] ==> x == y)
            && (forall p :: Queue(p) in l.at && t in l.at[Queue(p)] ==> p == th.prio)
            && (forall o :: Waiting(o) in l.at && t in l.at[Waiting(o)] ==> th.stat == Suspend)
            && (Defunct in l.at && t in l.at[Defunct] ==> th.stat == Closed)
            && (t in e.timers ==> th.timed && (th.stat == Suspend || Dying(e, t)))
            && (!Dying(e, t) ==> (t in e.timers <==> th.timed && th.stat == Suspend))
  {
    hide BitsOk, Dying, Ring, Chain;
    Known(e, l, t);
    var th := e.threads[t];
    assert HasHead(e.board, Queue(th.prio));
    forall x | x in l.at ensures Distinct(l.at[x]) && (t in l.at[x] ==> l.place[t] == x) {
      assert ListOk(e.board.links, l, x);
      ChainDistinct(e.board.links, x, l.at[x]);
      assert t in l.at[x] <==> At(l, t, x);
    }
    assert At(l, t, Queue(th.prio)) <==> t in l.at[Queue(th.prio)] by {
      assert ListOk(e.board.links, l, Queue(th.prio));
    }
  }

  // --------------------------------------------------------------- scheduling

  /** On a good board the bitmap marks exactly the queues that hold a thread. */
  lemma FlagsAreBusy(b: Board, l: Lists)
    requires BoardOk(b, l)
    ensures Flags(b) == Busy(l, b.wide)
  {
    hide Bit, Rep, Fits;
    var busy := Busy(l, b.wide);
    forall p: nat | p < Levels(b.wide) ensures Flags(b)[p] == busy[p] { }
  }

  /** A READY thread that nobody is deleting can be scheduled. */
  lemma ScheduleEnabled(k: State, t: Tid)
    requires Good(k) && StatIs(k, t, Ready) && !Dying(k, t)
    ensures Enabled(k, Schedule)
  {
    hide Sane, Inv, BoardOk, Flags, Dying, Lowest, Busy;
    var l :| Inv(k, l);
    Known(k, l, t);
    FlagsAreBusy(k.board, l);
    QueueBusy(k.board, l, t);
  }

  lemma QueueBusy(b: Board, l: Lists, t: Tid)
    requires BoardOk(b, l) && t in l.place && l.place[t].Queue? && l.place[t].p < Levels(b.wide)
    ensures Busy(l, b.wide)[l.place[t].p] && Lowest(Busy(l, b.wide)) <= l.place[t].p
  {
    hide Ring, Chain, BitsOk, Lowest;
    assert HasHead(b, l.place[t]);
    assert ListOk(b.links, l, l.place[t]);
    assert t in l.at[l.place[t]];
    LowestBelow(Busy(l, b.wide), l.place[t].p);
  }

  lemma LowestBelow(busy: seq<bool>, p: nat)
    requires p < |busy| && busy[p]
    ensures Lowest(busy) <= p
  {
    var m := Lowest(busy);
    assert !(m > p);
  }

  /** rt_schedule picks the first thread of the most urgent queue that holds one: a
      thread that is READY, is not being deleted and has no more urgent rival. */
  lemma SchedulePicks(k: State, l: Lists)
    requires Sane(k) && Inv(k, l) && Enabled(k, Schedule) && k.locks == 0
    ensures var k' := Step(k, Schedule);
            Running(k') && Queue(k.threads[k'.current].prio) in l.at && l.at[Queue(k.threads[k'.current].prio)] != []
            && l.at[Queue(k.threads[k'.current].prio)][0] == k'.current
            && forall t :: StatIs(k, t, Ready) && !Dying(k, t) ==> k.threads[k'.current].prio <= k.threads[t].prio
  {
    hide Ring, Chain, BitsOk, Flags, Dying, Lowest, Wired;
    FlagsAreBusy(k.board, l);
    var p := Lowest(Flags(k.board));
    assert Busy(l, k.board.wide)[p];
    FirstAt(k.board.links, l, Queue(p));
    NextAt(k.board.links, l, Queue(p), 0);
    var t, k' := l.at[Queue(p)][0], Step(k, Schedule);
    assert k'.current == t;
    assert t in l.place.Keys;
    Known(k, l, t);
    DyingFrame(k, k', t);
    forall u | StatIs(k, u, Ready) && !Dying(k, u) ensures p <= k.threads[u].prio {
      Known(k, l, u);
      QueueBusy(k.board, l, u);
    }
  }

  // -------------------------------------------------------------- failing runs

  /** A lawful section from a good state. */
  lemma Go(k: State, e: Event)
    requires Good(k) && Enabled(k, e) && Lawful(k, e)
    ensures Good(Step(k, e))
  {
    hide Good, Sane, Step, Lawful, Enabled;
    GoodSane(k);
    StepExact(k, e);
  }

  /** The first section of a run. */
  lemma Then(k: State, e: Event, es: seq<Event>)
    requires Sane(k) && Enabled(k, e) && Runs(Step(k, e), es)
    ensures Runs(k, [e] + es) && Last(k, [e] + es) == Last(Step(k, e), es)
    ensures AllGood(k, [e] + es) <==> Good(k) && AllGood(Step(k, e), es)
  {
    hide Good, Sane, Step, Enabled;
    assert ([e] + es)[1..] == es;
  }

  lemma DeletionStarts(k: State, c: Ctx, t: Tid, keep: bool)
    requires Good(k) && c !in k.calls && t in k.threads
    ensures Sane(k) && Enabled(k, DeleteFirst(c, t, keep))
    ensures var k' := Step(k, DeleteFirst(c, t, keep));
            Good(k') && Sane(k') && Dying(k', t) && k'.calls == k.calls[c := Deleting(t, OffList, keep)]
            && k'.threads == k.threads && k'.timers == k.timers && k'.board.wide == k.board.wide
  {
    hide Good, Sane, Dying, Taken;
    GoodSane(k);
    StepExact(k, DeleteFirst(c, t, keep));
    assert Good(Step(k, DeleteFirst(c, t, keep)));
    DyingBy(Step(k, DeleteFirst(c, t, keep)), c);
    DoomedBoard(k, c, t, keep);
  }

  lemma DoomedBoard(k: State, c: Ctx, t: Tid, keep: bool)
    requires Sane(k) && t in k.threads
    ensures Doomed(k, c, t, keep).board.wide == k.board.wide
  {
    hide Wired, NodeOf, Head, Off;
    OffReady(k.board, t);
  }

  /** The remaining sections of a deletion, in any state. */
  lemma DeletionEnds(k: State, c: Ctx)
    requires Sane(k) && Stands(k, c, OffList)
    ensures Enabled(k, DetachTimer(c))
    ensures var k1 := Step(k, DetachTimer(c));
            Sane(k1) && Enabled(k1, MarkClosed(c))
            && var k2 := Step(k1, MarkClosed(c));
               Sane(k2) && k2.board == k.board && StatIs(k2, k.calls[c].t, Closed) && k.calls[c].t in k2.closed
               && k2.threads == k.threads[k.calls[c].t := k.threads[k.calls[c].t].(stat := Closed)]
               && k2.calls == (if k.calls[c].keep then k.calls[c := k.calls[c].(stage := Marked)] else k.calls - {c})
  {
    var k1 := Step(k, DetachTimer(c));
    StepSane(k, DetachTimer(c));
    hide Sane;
    StepSane(k1, MarkClosed(c));
    CallKnown(k, c);
  }

  lemma TickWakes(k: State, t: Tid)
    requires Sane(k) && t in k.timers
    ensures t in k.threads
    ensures var k', h := Step(k, Timeout(t)), Head(Queue(k.threads[t].prio));
            Sane(k') && k'.calls == k.calls && k'.threads.Keys == k.threads.Keys
            && h in k'.board.links.prev && k'.board.links.prev[h] == NodeOf(t)
  {
    TimerKnown(k, t);
    StepSane(k, Timeout(t));
    WokenCalls(k, t);
    var p := k.threads[t].prio;
    HeadsApart(Queue(p), Queue(p), t);
    hide WellFormed, Off, Head, NodeOf;
    OffReady(k.board, t);
    PutIsLast(Off(k.board, t), t, p);
  }

  lemma PutIsLast(b: Board, t: Tid, p: nat)
    requires WellFormed(b) && p < Levels(b.wide) && NodeOf(t) in b.links.next
    ensures Head(Queue(p)) in Put(b, t, p).links.prev && Put(b, t, p).links.prev[Head(Queue(p))] == NodeOf(t)
  {
    hide Wired, Head, NodeOf;
    HeadsApart(Queue(p), Queue(p), t);
    assert HasHead(b, Queue(p));
  }

  /** The tick expires the timer of a sleeping thread between the first two sections of
      its deletion: from every good state with such a thread the run leads to a
      closed thread that is the last of a ready queue. */
  lemma TickDuringDelete(k: State, c: Ctx, t: Tid, keep: bool)
    requires Good(k) && StatIs(k, t, Suspend) && t in k.timers && c !in k.calls
    ensures var es := [DeleteFirst(c, t, keep), Timeout(t), DetachTimer(c), MarkClosed(c)];
            Runs(k, es) && !AllGood(k, es) && StatIs(Last(k, es), t, Closed)
            && var links, h := Last(k, es).board.links, Head(Queue(k.threads[t].prio));
               h in links.prev && links.prev[h] == NodeOf(t)
  {
    hide Good, Sane, Dying, Head, NodeOf, Doomed, Woken, Untimed, ClosedBy, AllGood, Runs, Last;
    DeletionStarts(k, c, t, keep);
    var k1 := Step(k, DeleteFirst(c, t, keep));
    TickWakes(k1, t);
    StepExact(k1, Timeout(t));
    var k2 := Step(k1, Timeout(t));
    DeletionEnds(k2, c);
    var k3 := Step(k2, DetachTimer(c));
    Chain4(k, DeleteFirst(c, t, keep), Timeout(t), DetachTimer(c), MarkClosed(c));
  }

  /** A run of four sections, one by one. */
  lemma Chain4(k: State, e1: Event, e2: Event, e3: Event, e4: Event)
    requires Sane(k) && Enabled(k, e1)
    requires Sane(Step(k, e1)) && Enabled(Step(k, e1), e2)
    requires Sane(Step(Step(k, e1), e2)) && Enabled(Step(Step(k, e1), e2), e3)
    requires Sane(Step(Step(Step(k, e1), e2), e3)) && Enabled(Step(Step(Step(k, e1), e2), e3), e4)
    ensures Runs(k, [e1, e2, e3, e4])
    ensures Last(k, [e1, e2, e3, e4]) == Step(Step(Step(Step(k, e1), e2), e3), e4)
    ensures AllGood(k, [e1, e2, e3, e4]) ==>
              Good(Step(k, e1)) && Good(Step(Step(k, e1), e2)) && Good(Step(Step(Step(k, e1), e2), e3))
              && Good(Step(Step(Step(Step(k, e1), e2), e3), e4))
  {
    hide Good, Sane, Step, Enabled, Runs, Last, AllGood;
    var k1 := Step(k, e1);
    var k2 := Step(k1, e2);
    var k3 := Step(k2, e3);
    assert [e4] + [] == [e4] && [e3] + [e4] == [e3, e4] && [e2] + [e3, e4] == [e2, e3, e4];
    assert [e1] + [e2, e3, e4] == [e1, e2, e3, e4];
    NoRun(Step(k3, e4));
    Then(k3, e4, []);
    Then(k2, e3, [e4]);
    Then(k1, e2, [e3, e4]);
    Then(k, e1, [e2, e3, e4]);
  }

  lemma NoRun(k: State)
    ensures Runs(k, []) && Last(k, []) == k && (AllGood(k, []) <==> Good(k))
  {
  }

  /** The second section of a resume makes a thread that was closed meanwhile READY, and
      that is no good state. */
  lemma ResumeOfClosed(k: State, c: Ctx)
    requires Sane(k) && Enabled(k, ResumeSecond(c)) && k.calls[c].t in k.closed
    requires k.calls[c].t in k.threads && StatIs(k, k.calls[c].t, Closed)
    ensures var t, k' := k.calls[c].t, Step(k, ResumeSecond(c));
            !(Good(k) && Good(k')) && t in k'.closed && StatIs(k', t, Ready)
  {
    hide Good, Sane, Dying, Inserted;
    if Good(k) { StepExact(k, ResumeSecond(c)); }
    InsertedReady(k, k.calls[c].t);
  }

  /** A deletion between the two sections of a resume: from every good state in the
      middle of a resume the run leads to a closed thread that is READY again. */
  lemma DeleteDuringResume(k: State, c: Ctx, d: Ctx, keep: bool)
    requires Good(k) && c in k.calls && k.calls[c].Resuming? && d !in k.calls
    ensures var t := k.calls[c].t;
            var es := [DeleteFirst(d, t, keep), DetachTimer(d), MarkClosed(d), ResumeSecond(c)];
            Runs(k, es) && !AllGood(k, es) && t in Last(k, es).closed && StatIs(Last(k, es), t, Ready)
  {
    hide Good, Sane, Dying, Head, NodeOf, Step, AllGood, Runs, Last;
    GoodSane(k);
    CallKnown(k, c);
    var t := k.calls[c].t;
    DeletionStarts(k, d, t, keep);
    var k1 := Step(k, DeleteFirst(d, t, keep));
    DeletionEnds(k1, d);
    var k2 := Step(k1, DetachTimer(d));
    var k3 := Step(k2, MarkClosed(d));
    Chain4(k, DeleteFirst(d, t, keep), DetachTimer(d), MarkClosed(d), ResumeSecond(c));
    ResumeOfClosed(k3, c);
  }

  lemma InsertedReady(k: State, t: Tid)
    requires Sane(k) && t in k.threads
    ensures StatIs(Inserted(k, t), t, Ready) && Inserted(k, t).closed == k.closed && Inserted(k, t).calls == k.calls
  {
    hide Put;
  }

  /** Two resumes of one thread, both past the test: once both have done their first
      sections, the second insertion ruins the lists. */
  lemma OverlappingResumes(k: State, c: Ctx, d: Ctx)
    requires Good(k) && c != d && c in k.calls && d in k.calls && k.calls[c].Tested? && k.calls[d] == k.calls[c]
    ensures var es := [ResumeFirst(c), ResumeFirst(d), ResumeSecond(c), ResumeSecond(d)];
            Runs(k, es) && !AllGood(k, es)
  {
    hide Good, Sane, Loosened, Inserted, AllGood, Runs, Last;
    GoodSane(k);
    CallKnown(k, c);
    var t := k.calls[c].t;
    StepSane(k, ResumeFirst(c));
    var k1 := Step(k, ResumeFirst(c));
    LoosenedCalls(k, t);
    StepSane(k1, ResumeFirst(d));
    var k2 := Step(k1, ResumeFirst(d));
    CallKnown(k1, d);
    LoosenedCalls(k1, t);
    CallKnown(k2, c);
    StepSane(k2, ResumeSecond(c));
    var k3 := Step(k2, ResumeSecond(c));
    InsertedReady(k2, t);
    Chain4(k, ResumeFirst(c), ResumeFirst(d), ResumeSecond(c), ResumeSecond(d));
    if Good(k3) {
      ReadyNotLone(k3, t);
      StepExact(k3, ResumeSecond(d));
    }
  }

  lemma LoosenedCalls(k: State, t: Tid)
    requires Sane(k) && t in k.threads
    ensures Loosened(k, t).calls == k.calls
  {
    hide Off;
  }

  lemma ReadyNotLone(k: State, t: Tid)
    requires Good(k) && StatIs(k, t, Ready)
    ensures Dying(k, t) || !Lone(k, t)
  {
    hide Sane, Dying, Lone;
    var l :| Inv(k, l);
    Known(k, l, t);
    LoneIff(k, l, t);
  }

  lemma {:induction false} Append(k: State, es: seq<Event>, fs: seq<Event>)
    requires Runs(k, es) && Runs(Last(k, es), fs)
    ensures Runs(k, es + fs) && Last(k, es + fs) == Last(Last(k, es), fs)
    ensures AllGood(k, es + fs) ==> AllGood(Last(k, es), fs)
    decreases |es|
  {
    if |es| == 0 {
      assert es + fs == fs;
    } else {
      hide Good, Sane, Step, Enabled;
      assert (es + fs)[1..] == es[1..] + fs && (es + fs)[0] == es[0];
      Append(Step(k, es[0]), es[1..], fs);
    }
  }

  /** A first thread, started. */
  lemma FirstStarted(k: State, t: Tid, prio: nat)
    requires Initial(k) && prio < Levels(k.board.wide)
    ensures Sane(k) && Enabled(k, Create(t, prio))
    ensures var k1 := Step(k, Create(t, prio));
            Sane(k1) && Enabled(k1, Startup(t))
            && (var k2 := Step(k1, Startup(t));
                Good(k2) && k2.threads == map[t := Thread(Suspend, prio, prio, false)]
                && k2.calls == map[] && k2.locks == 0)
  {
    hide Good, Inv, WellFormed, NodeOf, Head;
    InitialGood(k);
    GoodSane(k);
    var k1 := Step(k, Create(t, prio));
    Go(k, Create(t, prio));
    GoodSane(k1);
    Go(k1, Startup(t));
    assert map[][t := Thread(Init, prio, prio, false)] == map[t := Thread(Init, prio, prio, false)];
    assert k1.threads[t := Thread(Suspend, prio, prio, false)] == map[t := Thread(Suspend, prio, prio, false)];
  }

  /** From the start: two callers resume the first thread at once. */
  lemma OverlapReached(k: State, t: Tid, prio: nat)
    requires Initial(k) && prio < Levels(k.board.wide)
    ensures var es := [Create(t, prio), Startup(t), ResumeTest(1, t), ResumeTest(2, t)]
                      + [ResumeFirst(1), ResumeFirst(2), ResumeSecond(1), ResumeSecond(2)];
            Runs(k, es) && !AllGood(k, es)
  {
    hide Good, Sane, Initial, Created, AllGood, Runs, Last, Dying, Loosened, Inserted;
    FirstStarted(k, t, prio);
    var k2 := Step(Step(k, Create(t, prio)), Startup(t));
    GoodSane(k2);
    Go(k2, ResumeTest(1, t));
    var k3 := Step(k2, ResumeTest(1, t));
    GoodSane(k3);
    Go(k3, ResumeTest(2, t));
    Chain4(k, Create(t, prio), Startup(t), ResumeTest(1, t), ResumeTest(2, t));
    OverlappingResumes(Step(k3, ResumeTest(2, t)), 1, 2);
    Append(k, [Create(t, prio), Startup(t), ResumeTest(1, t), ResumeTest(2, t)],
           [ResumeFirst(1), ResumeFirst(2), ResumeSecond(1), ResumeSecond(2)]);
  }

  /** From the start: the first thread is deleted while it is resumed. */
  lemma DeleteReached(k: State, t: Tid, prio: nat)
    requires Initial(k) && prio < Levels(k.board.wide)
    ensures var es := [Create(t, prio), Startup(t), ResumeTest(1, t), ResumeFirst(1)]
                      + [DeleteFirst(2, t, false), DetachTimer(2), MarkClosed(2), ResumeSecond(1)];
            Runs(k, es) && !AllGood(k, es)
  {
    hide Good, Sane, Initial, Created, AllGood, Runs, Last, Dying, Loosened, Inserted;
    FirstStarted(k, t, prio);
    var k2 := Step(Step(k, Create(t, prio)), Startup(t));
    GoodSane(k2);
    Go(k2, ResumeTest(1, t));
    var k3 := Step(k2, ResumeTest(1, t));
    GoodSane(k3);
    Go(k3, ResumeFirst(1));
    LoosenedCalls(k3, t);
    Chain4(k, Create(t, prio), Startup(t), ResumeTest(1, t), ResumeFirst(1));
    DeleteDuringResume(Step(k3, ResumeFirst(1)), 1, 2, false);
    Append(k, [Create(t, prio), Startup(t), ResumeTest(1, t), ResumeFirst(1)],
           [DeleteFirst(2, t, false), DetachTimer(2), MarkClosed(2), ResumeSecond(1)]);
  }

  /** From the start: the first thread sleeps, and the tick comes while it is deleted. */
  lemma TickReached(k: State, t: Tid, prio: nat)
    requires Initial(k) && prio < Levels(k.board.wide)
    ensures var es := [Create(t, prio), Startup(t), Wake(t), Schedule] + ([Sleep]
                      + [DeleteFirst(1, t, false), Timeout(t), DetachTimer(1), MarkClosed(1)]);
            Runs(k, es) && !AllGood(k, es)
  {
    hide Good, Sane, Initial, Created, AllGood, Runs, Last, Dying, Woken, Lowest, Flags, Scheduled;
    FirstStarted(k, t, prio);
    var k2 := Step(Step(k, Create(t, prio)), Startup(t));
    GoodSane(k2);
    NotDying(k2, t);
    Go(k2, Wake(t));
    WokenAlone(k2, t);
    var k3 := Step(k2, Wake(t));
    GoodSane(k3);
    NotDying(k3, t);
    ScheduleEnabled(k3, t);
    Chain4(k, Create(t, prio), Startup(t), Wake(t), Schedule);
    SleepsThen(k3, t, prio);
    Append(k, [Create(t, prio), Startup(t), Wake(t), Schedule],
           [Sleep] + [DeleteFirst(1, t, false), Timeout(t), DetachTimer(1), MarkClosed(1)]);
  }

  lemma NotDying(k: State, t: Tid)
    requires k.calls == map[]
    ensures !Dying(k, t)
  {
  }

  lemma WokenAlone(k: State, t: Tid)
    requires Sane(k) && t in k.threads && k.threads.Keys == {t}
    ensures Woken(k, t).threads.Keys == {t} && StatIs(Woken(k, t), t, Ready) && Woken(k, t).calls == k.calls
    ensures Woken(k, t).locks == k.locks
  {
    hide Off, Put;
  }

  lemma SleepsThen(k: State, t: Tid, prio: nat)
    requires Good(k) && k.threads.Keys == {t} && StatIs(k, t, Ready) && k.calls == map[] && k.locks == 0
    requires Enabled(k, Schedule) && Sane(k)
    ensures var es := [Sleep] + [DeleteFirst(1, t, false), Timeout(t), DetachTimer(1), MarkClosed(1)];
            Runs(Step(k, Schedule), es) && !AllGood(Step(k, Schedule), es)
  {
    hide Sane, Inv, AllGood, Runs, Last, Dying, Suspended, Lowest, Flags, Rep, BitsOk;
    var k1 := Step(k, Schedule);
    Go(k, Schedule);
    GoodSane(k1);
    var l :| Inv(k, l);
    SchedulePicks(k, l);
    assert k1.threads == k.threads && k1.calls == k.calls;
    assert k1.current in k1.threads.Keys;
    NotDying(k, t);
    Known(k, l, t);
    Go(k1, Sleep);
    AsleepIs(k1, t);
    var k2 := Step(k1, Sleep);
    TickDuringDelete(k2, 1, t, false);
    Then(k1, Sleep, [DeleteFirst(1, t, false), Timeout(t), DetachTimer(1), MarkClosed(1)]);
  }

  lemma AsleepIs(k: State, t: Tid)
    requires Sane(k) && t in k.threads && (k.threads[t].timed ==> t in k.timers)
    ensures var k' := Started(Suspended(k, t), t); StatIs(k', t, Suspend) && t in k'.timers && k'.calls == k.calls
  {
    hide Taken;
  }
}

/** The kernel's thread lists as one object whose fields the sections update in place
    (thread.c, scheduler.c, and the list functions of rtservice.h). */
module Scheduler {
  import opened Basics
  import opened Rings
  import opened WaitList
  import opened ReadyBits
  import opened ThreadLists
  import opened Queues
  import opened Threads
  import opened ThreadCalls

  class Kernel {
    const wide: bool
    const objects: set<Obj>
    /** The next and prev fields of list heads and thread nodes. */
    var next: map<Node, Node>
    var prev: map<Node, Node>
    var threads: map<Tid, Thread>
    var timers: set<Tid>
    var group: nat
    var table: seq<nat>
    var current: Tid
    var locks: nat
    /** Where the callers stand, and which threads were closed. */
    ghost var calls: map<Ctx, Call>
    ghost var closed: set<Tid>

    ghost function View(): (k: State)
      reads this
    {
      State(Board(wide, objects, Links(next, prev), group, table), threads, timers, closed, calls, current, locks)
    }

    /** rt_system_scheduler_init */
    constructor (w: bool, objs: set<Obj>)
      ensures Initial(View()) && Good(View()) && wide == w && objects == objs
    {
      wide, objects := w, objs;
      var heads := (set p | 0 <= p < Levels(w) :: 6 * p + 1) + (set o | o in objs :: 6 * o + 3) + {5};
      next := map n | n in heads :: n;
      prev := map n | n in heads :: n;
      threads, timers := map[], {};
      group, table := 0, seq(32, _ => 0);
      current, locks := 0, 0;
      calls, closed := map[], {};
      new;
      assert forall x :: HasHead(View().board, x) ==> Head(x) in next;
      InitialGood(View());
    }

    // --------------------------------------------------------- list functions

    /** rt_list_remove: the node is alone then, and its thread in no list, whatever
        list it was in. */
    method ListRemove(t: Tid)
      requires WellFormed(View().board) && NodeOf(t) in next
      modifies `next, `prev
      ensures View() == old(View()).(board := Off(old(View()).board, t))
      ensures forall l :: Rep(old(View()).board.links, l) && t in l.place ==> Rep(View().board.links, Unlinked(l, t))
    {
      ghost var links := Links(next, prev);
      var n := NodeOf(t);
      hide Rep, NodeOf, Head, Unlinked;
      Follow(links, n);
      prev := prev[next[n] := prev[n]];
      next := next[prev[n] := next[n]];
      next := next[n := n];
      prev := prev[n := n];
      assert Links(next, prev) == Remove(links, n);
      hide Remove;
      forall l | Rep(links, l) && t in l.place ensures Rep(Links(next, prev), Unlinked(l, t)) {
        UnlinkRep(links, l, t);
      }
    }

    /** rt_list_insert_before: a lone node is then in front of node a of its list. */
    method ListInsertBefore(a: Node, t: Tid)
      requires WellFormed(View().board) && NodeOf(t) in next && a in next
      modifies `next, `prev
      ensures View() == old(View()).(board := Before(old(View()).board, a, t))
      ensures forall l, x, k: nat ::
                (Rep(old(View()).board.links, l) && At(l, t, Nowhere) && x in l.at && k <= |l.at[x]|
                 && a == NodeAt(l, x, k))
                ==> Rep(View().board.links, Linked(l, t, x, k))
    {
      ghost var links := Links(next, prev);
      var n := NodeOf(t);
      hide Rep, NodeOf, Head, Linked, NodeAt;
      Follow(links, a);
      next := next[prev[a] := n];
      prev := prev[n := prev[a]];
      prev := prev[a := n];
      next := next[n := a];
      assert Links(next, prev) == InsertBefore(links, a, n);
      hide InsertBefore;
      forall l, x, k: nat | Rep(links, l) && At(l, t, Nowhere) && x in l.at && k <= |l.at[x]| && a == NodeAt(l, x, k)
        ensures Rep(Links(next, prev), Linked(l, t, x, k))
      {
        LinkBeforeRep(links, l, t, x, k);
      }
    }

    /** rt_list_insert_after the head of the defunct list */
    method ListInsertAfter(x: Place, t: Tid)
      requires WellFormed(View().board) && NodeOf(t) in next && HasHead(View().board, x)
      modifies `next, `prev
      ensures View() == old(View()).(board := After(old(View()).board, Head(x), t))
      ensures forall l :: Rep(old(View()).board.links, l) && At(l, t, Nowhere) && x in l.at
                          ==> Rep(View().board.links, Linked(l, t, x, 0))
    {
      ghost var links := Links(next, prev);
      var n, h := NodeOf(t), Head(x);
      hide Rep, NodeOf, Head, Linked;
      Follow(links, h);
      prev := prev[next[h] := n];
      next := next[n := next[h]];
      next := next[h := n];
      prev := prev[n := h];
      assert Links(next, prev) == InsertAfter(links, h, n);
      hide InsertAfter;
      forall l | Rep(links, l) && At(l, t, Nowhere) && x in l.at ensures Rep(Links(next, prev), Linked(l, t, x, 0)) {
        ChainAt(x, l.at[x]);
        LinkAfterRep(links, l, t, x, 0);
      }
    }

    // ----------------------------------------------------- scheduler functions

    /** rt_schedule_insert_thread: a lone thread is then the last of its queue. */
    method InsertThread(t: Tid)
      requires Sane(View()) && t in threads
      modifies `next, `prev, `threads, `group, `table
      ensures View() == Inserted(old(View()), t)
      ensures forall l :: BoardOk(old(View()).board, l) && At(l, t, Nowhere)
                          ==> BoardOk(View().board, Queued(l, t, old(threads)[t].prio))
    {
      ghost var k := View();
      hide WellFormed, NodeOf, Before, BoardOk, Queued;
      var p := threads[t].prio;
      assert HasHead(k.board, Queue(p));
      HeadKnown(k.board, Queue(p));
      threads := threads[t := threads[t].(stat := Ready)];
      ListInsertBefore(Head(Queue(p)), t);
      if wide && p / 8 < |table| {
        table := table[p / 8 := SetBit(table[p / 8], p % 8)];
      }
      group := SetBit(group, if wide then p / 8 else p);
      forall l | BoardOk(k.board, l) && At(l, t, Nowhere) ensures BoardOk(View().board, Queued(l, t, p)) {
        PutKeeps(k.board, l, t, p);
      }
    }

    /** rt_schedule_remove_thread: the thread is then in no list, whatever list it was
        in, and the bit of its queue is cleared if nobody is left there. */
    method RemoveThread(t: Tid)
      requires Sane(View()) && t in threads
      modifies `next, `prev, `group, `table
      ensures View() == old(View()).(board := Taken(old(View()).board, t, old(threads)[t].prio))
      ensures forall l :: BoardOk(old(View()).board, l) && t in l.place
                          && (l.place[t].Queue? ==> l.place[t].p == old(threads)[t].prio)
                          ==> BoardOk(View().board, Unlinked(l, t))
    {
      ghost var k := View();
      hide WellFormed, NodeOf, Off, BoardOk, Unlinked, Head;
      var p := threads[t].prio;
      OffReady(k.board, t);
      ListRemove(t);
      assert HasHead(View().board, Queue(p));
      HeadKnown(View().board, Queue(p));
      if next[Head(Queue(p))] == Head(Queue(p)) {
        if wide {
          if p / 8 < |table| {
            table := table[p / 8 := ClearBit(table[p / 8], p % 8)];
            if table[p / 8] == 0 {
              group := ClearBit(group, p / 8);
            }
          }
        } else {
          group := ClearBit(group, p);
        }
      }
      forall l | BoardOk(k.board, l) && t in l.place && (l.place[t].Queue? ==> l.place[t].p == p)
        ensures BoardOk(View().board, Unlinked(l, t))
      {
        TakenKeeps(k.board, l, t, p);
      }
    }

    /** The place that rt_ipc_list_suspend finds in a wait list. */
    method FindPlace(o: Obj, flag: Flag, p: nat, ghost l: Lists) returns (a: Node)
      requires Rep(Links(next, prev), l) && l.place.Keys == threads.Keys && Waiting(o) in l.at
      ensures a == Target(View(), o, flag, p) == NodeAt(l, Waiting(o), Spot(l.at[Waiting(o)], threads, flag, p))
    {
      hide Rep, Head, NodeAt, Position, Urgency, Priority, Target;
      ghost var x := Waiting(o);
      ghost var q := l.at[x];
      TargetIs(View(), l, o, flag, p);
      var h := Head(Waiting(o));
      a := h;
      ghost var i := 0;
      if flag.Prio? {
        FirstAt(Links(next, prev), l, x);
        var n := next[h];
        NodeAtIs(l, x, 0);
        while n != h
          invariant 0 <= i <= |q| && n == NodeAt(l, x, i) && a == h
          invariant forall j :: 0 <= j < i ==> Priority(Urgency(threads), q[j]) <= p
          invariant i == |q| ==> n == h
          decreases |q| - i
        {
          NodeAtIs(l, x, i);
          NextAt(Links(next, prev), l, x, i);
          assert q[i] in l.place.Keys;
          UrgencyOf(threads, q[i]);
          if p < threads[n / 2].prio {
            a := n;
            break;
          }
          n := next[n];
          i := i + 1;
          NodeAtIs(l, x, i);
        }
        if n == h { LastAt(Links(next, prev), l, x, i); }
        PositionIs(q, Urgency(threads), p, i);
      }
      NodeAtIs(l, x, |q|);
    }

    // ------------------------------------------------------------ the sections

    /** rt_thread_init */
    method CreateThread(t: Tid, prio: nat)
      requires Good(View()) && Enabled(View(), Create(t, prio))
      modifies this
      ensures View() == Step(old(View()), Create(t, prio)) && Good(View())
    {
      hide Good, Sane;
      GoodSane(View());
      StepExact(View(), Create(t, prio));
      next := next[NodeOf(t) := NodeOf(t)];
      prev := prev[NodeOf(t) := NodeOf(t)];
      threads := threads[t := Thread(Init, prio, prio, false)];
    }

    /** rt_thread_startup up to the call of rt_thread_resume */
    method StartThread(t: Tid)
      requires Good(View()) && Enabled(View(), Startup(t))
      modifies this
      ensures View() == Step(old(View()), Startup(t)) && Good(View())
    {
      hide Good, Sane;
      GoodSane(View());
      StepExact(View(), Startup(t));
      threads := threads[t := threads[t].(stat := Suspend, prio := threads[t].init)];
    }

    /** The test of rt_thread_resume */
    method ResumeTested(ghost c: Ctx, t: Tid) returns (ok: bool)
      requires Good(View()) && t in threads && c !in calls
      modifies `calls
      ensures ok <==> StatIs(old(View()), t, Suspend)
      ensures Good(View()) && (!ok ==> View() == old(View()))
      ensures ok ==> Enabled(old(View()), ResumeTest(c, t)) && View() == Step(old(View()), ResumeTest(c, t))
    {
      hide Good, Sane;
      GoodSane(View());
      ok := threads[t].stat == Suspend;
      if ok {
        StepExact(View(), ResumeTest(c, t));
        calls := calls[c := Tested(t)];
      }
    }

    /** The first section of rt_thread_resume */
    method ResumeBegin(ghost c: Ctx, t: Tid)
      requires Good(View()) && Enabled(View(), ResumeFirst(c)) && calls[c].t == t
      modifies this
      ensures View() == Step(old(View()), ResumeFirst(c))
      ensures Good(View()) <==> Lawful(old(View()), ResumeFirst(c))
    {
      hide Good, WellFormed, Off;
      ghost var k := View();
      GoodSane(k);
      CallKnown(k, c);
      StepExact(k, ResumeFirst(c));
      ListRemove(t);
      timers := timers - {t};
      threads := threads[t := threads[t].(timed := false)];
      calls := calls[c := Resuming(t)];
    }

    /** and the second */
    method ResumeEnd(ghost c: Ctx, t: Tid)
      requires Good(View()) && Enabled(View(), ResumeSecond(c)) && calls[c].t == t
      modifies this
      ensures View() == Step(old(View()), ResumeSecond(c))
      ensures Good(View()) <==> Lawful(old(View()), ResumeSecond(c))
    {
      hide Good, Sane, Inserted;
      GoodSane(View());
      CallKnown(View(), c);
      StepExact(View(), ResumeSecond(c));
      InsertedReady(View(), t);
      InsertThread(t);
      calls := calls - {c};
    }

    /** The test of rt_thread_suspend */
    method SuspendTested(ghost c: Ctx, t: Tid) returns (ok: bool)
      requires Good(View()) && t in threads && c !in calls
      modifies `calls
      ensures ok <==> StatIs(old(View()), t, Ready)
      ensures Good(View()) && (!ok ==> View() == old(View()))
      ensures ok ==> Enabled(old(View()), SuspendTest(c, t)) && View() == Step(old(View()), SuspendTest(c, t))
    {
      hide Good, Sane;
      GoodSane(View());
      ok := threads[t].stat == Ready;
      if ok {
        StepExact(View(), SuspendTest(c, t));
        calls := calls[c := Suspending(t)];
      }
    }

    /** rt_thread_suspend after its test */
    method SuspendThread(ghost c: Ctx, t: Tid)
      requires Good(View()) && Enabled(View(), SuspendSecond(c)) && calls[c].t == t
      modifies this
      ensures View() == Step(old(View()), SuspendSecond(c))
      ensures Good(View()) <==> Lawful(old(View()), SuspendSecond(c))
    {
      hide Good, Sane, Taken;
      GoodSane(View());
      CallKnown(View(), c);
      StepExact(View(), SuspendSecond(c));
      RemoveThread(t);
      threads := threads[t := threads[t].(stat := Suspend)];
      calls := calls - {c};
    }

    /** rt_thread_resume with interrupts off */
    method WakeThread(t: Tid)
      requires Good(View()) && Enabled(View(), Wake(t))
      modifies this
      ensures View() == Step(old(View()), Wake(t)) && (Good(View()) <==> Lawful(old(View()), Wake(t)))
    {
      hide Good, Sane;
      GoodSane(View());
      StepExact(View(), Wake(t));
      Relink(t);
    }

    /** The expiry of a thread's timer: rt_timer_check and rt_thread_timeout */
    method TimeoutThread(t: Tid)
      requires Good(View()) && Enabled(View(), Timeout(t))
      modifies this
      ensures View() == Step(old(View()), Timeout(t)) && (Good(View()) <==> Lawful(old(View()), Timeout(t)))
    {
      hide Good, Sane;
      GoodSane(View());
      TimerKnown(View(), t);
      StepExact(View(), Timeout(t));
      Relink(t);
    }

    /** From whatever list to the ready queue, the timer stopped. */
    method Relink(t: Tid)
      requires Sane(View()) && t in threads
      modifies this
      ensures View() == Woken(old(View()), t)
    {
      hide WellFormed, Off, Put, NodeOf;
      ghost var k := View();
      WokenSane(k, t);
      ListRemove(t);
      timers := timers - {t};
      threads := threads[t := threads[t].(timed := false)];
      InsertThread(t);
    }

    /** rt_thread_suspend of a ready thread with interrupts off */
    method SuspendNow(t: Tid)
      requires Sane(View()) && t in threads
      modifies this
      ensures View() == Threads.Suspended(old(View()), t)
    {
      hide Sane, Taken;
      SaneStat(View(), t);
      threads := threads[t := threads[t].(stat := Suspend)];
      RemoveThread(t);
    }

    /** The suspension of the running thread on an IPC object */
    method BlockOn(o: Obj, flag: Flag, timed: bool)
      requires Good(View()) && Enabled(View(), Block(o, flag, timed))
      modifies this
      ensures View() == Step(old(View()), Block(o, flag, timed)) && Good(View())
      ensures current == old(current) && (current in timers <==> timed)
    {
      hide Good, Inv, Sane, Threads.Suspended, Target, Before, BoardOk, Spot, Unlinked;
      ghost var k := View();
      GoodSane(k);
      StepExact(k, Block(o, flag, timed));
      TimerRuns(k, Block(o, flag, timed));
      var t := current;
      SuspendedSane(k, t);
      SuspendedParts(k, t);
      var p := threads[t].prio;
      SuspendNow(t);
      ghost var l := SuspendedLists(k, t, o);
      var a := FindPlace(o, flag, p, l);
      SaneTarget(View(), o, flag, p, t);
      ListInsertBefore(a, t);
      if timed && !threads[t].timed {
        timers := timers + {t};
        threads := threads[t := threads[t].(timed := true)];
      }
    }

    /** rt_thread_sleep up to the call of rt_schedule */
    method SleepThread()
      requires Good(View()) && Enabled(View(), Sleep)
      modifies this
      ensures View() == Step(old(View()), Sleep) && Good(View())
      ensures current == old(current) && current in timers
    {
      hide Good, Sane, Threads.Suspended;
      ghost var k := View();
      GoodSane(k);
      StepExact(k, Sleep);
      TimerRuns(k, Sleep);
      var t := current;
      SuspendedParts(k, t);
      SuspendNow(t);
      if !threads[t].timed {
        timers := timers + {t};
        threads := threads[t := threads[t].(timed := true)];
      }
    }

    /** rt_thread_yield up to the call of rt_schedule */
    method YieldThread()
      requires Good(View()) && Enabled(View(), Yield)
      modifies this
      ensures View() == Step(old(View()), Yield) && Good(View())
    {
      hide Good, WellFormed, Off, Before, NodeOf, Head;
      ghost var k := View();
      GoodSane(k);
      StepExact(k, Yield);
      var t := current;
      var p := threads[t].prio;
      NodeKnown(k.board, NodeOf(t));
      if next[NodeOf(t)] != prev[NodeOf(t)] {
        OffReady(k.board, t);
        ListRemove(t);
        assert HasHead(View().board, Queue(p));
        HeadKnown(View().board, Queue(p));
        ListInsertBefore(Head(Queue(p)), t);
      }
    }

    /** rt_thread_control with RT_THREAD_CTRL_CHANGE_PRIORITY */
    method ChangePriority(t: Tid, p: nat)
      requires Good(View()) && Enabled(View(), SetPriority(t, p))
      modifies this
      ensures View() == Step(old(View()), SetPriority(t, p))
      ensures Good(View()) <==> Lawful(old(View()), SetPriority(t, p))
    {
      hide Good, Sane, WellFormed, Taken, Put, NodeOf;
      ghost var k := View();
      GoodSane(k);
      StepExact(k, SetPriority(t, p));
      TakenShape(k, t);
      if threads[t].stat == Ready {
        RemoveThread(t);
        threads := threads[t := threads[t].(prio := p)];
        SanePriority(k, View(), t, p);
        InsertThread(t);
      } else {
        threads := threads[t := threads[t].(prio := p)];
      }
    }

    /** rt_thread_exit up to the call of rt_schedule */
    method ExitThread(keep: bool)
      requires Good(View()) && Enabled(View(), Exit(keep))
      modifies this
      ensures View() == Step(old(View()), Exit(keep)) && Good(View())
    {
      hide Good, Sane, WellFormed, Taken, After, NodeOf, Dying;
      ghost var k := View();
      GoodSane(k);
      StepExact(k, Exit(keep));
      var t := current;
      TakenShape(k, t);
      RemoveThread(t);
      threads := threads[t := threads[t].(stat := Closed)];
      timers := timers - {t};
      closed := closed + {t};
      if keep {
        ListInsertAfter(Defunct, t);
      }
    }

    /** The first section of rt_thread_delete and rt_thread_detach */
    method DeleteBegin(ghost c: Ctx, t: Tid, keep: bool)
      requires Good(View()) && Enabled(View(), DeleteFirst(c, t, keep))
      modifies this
      ensures View() == Step(old(View()), DeleteFirst(c, t, keep)) && Good(View())
    {
      hide Good, Sane, Taken;
      GoodSane(View());
      StepExact(View(), DeleteFirst(c, t, keep));
      RemoveThread(t);
      calls := calls[c := Deleting(t, OffList, keep)];
    }

    /** the second: rt_timer_detach */
    method DetachTimerOf(ghost c: Ctx, t: Tid)
      requires Good(View()) && Enabled(View(), DetachTimer(c)) && calls[c].t == t
      modifies this
      ensures View() == Step(old(View()), DetachTimer(c)) && Good(View())
    {
      hide Good, Sane;
      GoodSane(View());
      StepExact(View(), DetachTimer(c));
      timers := timers - {t};
      calls := calls[c := calls[c].(stage := OffTimers)];
    }

    /** the third: the status */
    method CloseThread(ghost c: Ctx, t: Tid)
      requires Good(View()) && Enabled(View(), MarkClosed(c)) && calls[c].t == t
      modifies this
      ensures View() == Step(old(View()), MarkClosed(c)) && Good(View())
    {
      hide Good, Sane;
      GoodSane(View());
      CallKnown(View(), c);
      StepExact(View(), MarkClosed(c));
      threads := threads[t := threads[t].(stat := Closed)];
      closed := closed + {t};
      calls := if calls[c].keep then calls[c := calls[c].(stage := Marked)] else calls - {c};
    }

    /** and the fourth: onto the defunct list */
    method BuryThread(ghost c: Ctx, t: Tid)
      requires Good(View()) && Enabled(View(), LinkDefunct(c)) && calls[c].t == t
      modifies this
      ensures View() == Step(old(View()), LinkDefunct(c))
      ensures Good(View()) <==> Lawful(old(View()), LinkDefunct(c))
    {
      hide Good, WellFormed, After, NodeOf;
      GoodSane(View());
      CallKnown(View(), c);
      StepExact(View(), LinkDefunct(c));
      ListInsertAfter(Defunct, t);
      calls := calls - {c};
    }

    /** What the idle thread does with the defunct list. */
    method ReclaimThread() returns (t: Tid)
      requires Good(View()) && Enabled(View(), Reclaim)
      modifies this
      ensures View() == Step(old(View()), Reclaim) && Good(View())
      ensures StatIs(View(), t, Closed) && Lone(View(), t)
    {
      hide Good, Inv, WellFormed, Remove, NodeOf, Head, Lone;
      ghost var k := View();
      GoodSane(k);
      StepExact(k, Reclaim);
      assert HasHead(k.board, Defunct);
      HeadKnown(k.board, Defunct);
      ghost var l := GoodLists(k);
      DefunctFirst(k, l);
      t := next[Head(Defunct)] / 2;
      ListRemove(t);
      ReclaimedLone(k, t);
    }

    /** rt_schedule: the first thread of the most urgent queue becomes current. */
    method Reschedule()
      requires Good(View()) && Enabled(View(), Schedule)
      modifies `current
      ensures View() == Step(old(View()), Schedule) && Good(View())
      ensures locks == 0 ==> Running(View())
    {
      hide Good, Sane, Inv, Lowest, Flags, BitsOk, Rep, Head, Running;
      ghost var k := View();
      GoodSane(k);
      StepExact(k, Schedule);
      ghost var l := GoodLists(k);
      KnownBoard(k, l);
      FlagsAreBusy(k.board, l);
      if locks == 0 {
        SchedulePicks(k, l);
        ghost var busy := Busy(l, wide);
        assert busy[Lowest(busy)];
        var p := HighestReady(wide, busy, group, table);
        assert HasHead(k.board, Queue(p));
        ListEmptyIff(k.board.links, l, Queue(p));
        var to := next[Head(Queue(p))] / 2;
        if to != current {
          current := to;
        }
      }
    }
  }

  lemma GoodLists(k: State) returns (l: Lists)
    requires Good(k)
    ensures Inv(k, l)
  {
    hide Sane, Inv;
    l :| Inv(k, l);
  }

  lemma NodeKnown(b: Board, n: Node)
    requires WellFormed(b) && n in b.links.next
    ensures n in b.links.prev
  {
    assert n in b.links.prev.Keys;
  }

  /** The first thread of the defunct list is closed. */
  lemma DefunctFirst(k: State, l: Lists)
    requires Sane(k) && Inv(k, l) && !IsEmpty(k.board.links, Head(Defunct))
    ensures Head(Defunct) in k.board.links.next
    ensures var n := k.board.links.next[Head(Defunct)];
            NodeOf(n / 2) == n && StatIs(k, n / 2, Closed) && n in k.board.links.next
  {
    hide WellFormed, Head, Dying, Rep, BitsOk;
    KnownBoard(k, l);
    assert HasHead(k.board, Defunct);
    ListEmptyIff(k.board.links, l, Defunct);
    FirstAt(k.board.links, l, Defunct);
    NextAt(k.board.links, l, Defunct, 0);
    var t := l.at[Defunct][0];
    assert t in l.place.Keys;
    Known(k, l, t);
  }

  lemma ReclaimedLone(k: State, t: Tid)
    requires Sane(k) && NodeOf(t) in k.board.links.next
    ensures Lone(k.(board := Off(k.board, t)), t)
  {
    hide Wired, NodeOf, Bypass;
    NodeKnown(k.board, NodeOf(t));
  }

  /** Lists for the state in the middle of a suspension. */
  lemma SuspendedLists(k: State, t: Tid, o: Obj) returns (l: Lists)
    requires Good(k) && t in k.threads && o in k.board.objects
    ensures Sane(k) && Rep(Threads.Suspended(k, t).board.links, l)
            && l.place.Keys == Threads.Suspended(k, t).threads.Keys && Waiting(o) in l.at
  {
    hide Sane, Inv, Rep, BitsOk, Taken, Unlinked;
    var l0 :| Inv(k, l0);
    GoodSane(k);
    SuspendedBoard(k, l0, t);
    TakenShape(k, t);
    KnownBoard(k, l0);
    l := Unlinked(l0, t);
    assert HasHead(Threads.Suspended(k, t).board, Waiting(o));
    assert t in l0.place.Keys;
  }

  lemma TakenShape(k: State, t: Tid)
    requires Sane(k) && t in k.threads
    ensures WellFormed(k.board) && NodeOf(t) in k.board.links.next && k.threads[t].prio < Levels(k.board.wide)
    ensures var b := Taken(k.board, t, k.threads[t].prio);
            Kept(k.board, b) && WellFormed(b) && NodeOf(t) in b.links.next
  {
    hide WellFormed, NodeOf, Taken;
    TakenReady(k.board, t, k.threads[t].prio);
    assert NodeOf(t) in k.board.links.next.Keys;
  }

  lemma SaneStat(k: State, t: Tid)
    requires Sane(k) && t in k.threads
    ensures Sane(SetThread(k, t, k.threads[t].(stat := Suspend)))
  {
    hide WellFormed, NodeOf;
    SaneChange(k, SetThread(k, t, k.threads[t].(stat := Suspend)), t);
  }

  lemma SanePriority(k: State, k': State, t: Tid, p: nat)
    requires Sane(k) && t in k.threads && p < Levels(k.board.wide) && Kept(k.board, k'.board)
    requires k' == k.(board := k'.board, threads := k.threads[t := k.threads[t].(prio := p)])
    ensures Sane(k')
  {
    hide WellFormed, NodeOf;
    SaneChange(k, k', t);
  }

  lemma SuspendedParts(k: State, t: Tid)
    requires Sane(k) && t in k.threads
    ensures var k' := Threads.Suspended(k, t);
            k'.threads == k.threads[t := k.threads[t].(stat := Suspend)] && k'.board.objects == k.board.objects
  {
    hide Sane, Taken;
    TakenShape(k, t);
  }

  lemma SaneTarget(k: State, o: Obj, flag: Flag, p: nat, t: Tid)
    requires Sane(k) && o in k.board.objects && t in k.threads
    ensures WellFormed(k.board) && Target(k, o, flag, p) in k.board.links.next && NodeOf(t) in k.board.links.next
  {
    hide WellFormed, NodeOf, Target;
    TargetKnown(k, o, flag, p);
  }

  lemma NodeAtIs(l: Lists, x: Place, i: nat)
    requires x in l.at && i <= |l.at[x]|
    ensures NodeAt(l, x, i) == if i < |l.at[x]| then NodeOf(l.at[x][i]) else Head(x)
  {
  }

  /** The walk is back at the head only behind the last member. */
  lemma LastAt(links: Links, l: Lists, x: Place, i: nat)
    requires Rep(links, l) && x in l.at && i <= |l.at[x]| && NodeAt(l, x, i) == Head(x)
    ensures i == |l.at[x]|
  {
    if i < |l.at[x]| { NextAt(links, l, x, i); }
  }

  lemma HeadKnown(b: Board, x: Place)
    requires WellFormed(b) && HasHead(b, x)
    ensures Head(x) in b.links.next
  {
  }
}

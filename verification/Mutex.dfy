/** Mutexes with priority inheritance (ipc.c), one mutex whose waiters are queued by
    priority. A smaller priority number is more urgent. Sections of different
    threads and timeouts interleave freely. */
module Mutex {
  import opened Basics
  import opened WaitList

  datatype Wait = NoWait | Ticks | Forever

  /** `base` is the priority of each thread without inheritance, `current` the one it
      runs at; `blocked` maps the waiting threads to whether their wait is timed. */
  datatype State = State(value: nat, owner: Option<Tid>, original: nat, hold: nat, waiters: seq<Tid>,
                         base: map<Tid, nat>, current: map<Tid, nat>, blocked: map<Tid, bool>,
                         tickets: Tickets, clock: nat)

  datatype Event = Take(t: Tid, wait: Wait) | Release(t: Tid) | Expire(t: Tid)

  datatype Result = Done | Waits | TimedOut | NotOwner

  const NO_PRIORITY: nat := 0xff

  predicate Enabled(s: State, e: Event) {
    match e
    case Take(t, _) => t in s.base && t in s.current && t !in s.blocked && s.hold < 255
    case Release(t) => t in s.base && t in s.current && t !in s.blocked
    case Expire(t) => t in s.blocked && s.blocked[t]
  }

  /** The part of rt_mutex_take for a thread that has to wait: the owner inherits its
      priority if that is more urgent. */
  function Waiting(s: State, t: Tid, timed: bool): State
    requires t in s.current
  {
    var boosted :=
      if s.owner.Some? && s.owner.value in s.current && s.current[t] < s.current[s.owner.value]
      then s.current[s.owner.value := s.current[t]] else s.current;
    var tickets := s.tickets[t := Ticket(s.current[t], s.clock)];
    s.(current := boosted, tickets := tickets, clock := s.clock + 1,
       waiters := Suspended(s.waiters, tickets, Prio, t), blocked := s.blocked[t := timed])
  }

  function TakeStep(s: State, t: Tid, wait: Wait): (State, Result)
    requires t in s.current
  {
    if s.owner == Some(t) then (s.(hold := s.hold + 1), Done)
    else if s.value > 0 then
      (s.(value := s.value - 1, owner := Some(t), original := s.current[t], hold := s.hold + 1), Done)
    else if wait.NoWait? then (s, TimedOut)
    else (Waiting(s, t, wait.Ticks?), Waits)
  }

  /** The last release: the owner gets its own priority back and the first waiter
      becomes the owner. */
  function HandOff(s: State, t: Tid): State {
    var current := if t in s.current && s.current[t] != s.original then s.current[t := s.original] else s.current;
    if |s.waiters| > 0 then
      var w := s.waiters[0];
      s.(current := current, owner := Some(w), original := if w in current then current[w] else 0,
         hold := 1, waiters := s.waiters[1..], blocked := s.blocked - {w})
    else s.(current := current, value := s.value + 1, owner := None, original := NO_PRIORITY, hold := 0)
  }

  function ReleaseStep(s: State, t: Tid): (State, Result) {
    if s.owner != Some(t) then (s, NotOwner)
    else if s.hold > 1 then (s.(hold := s.hold - 1), Done)
    else (HandOff(s, t), Done)
  }

  function Step(s: State, e: Event): (State, Result)
    requires Enabled(s, e)
  {
    match e
    case Take(t, wait) => TakeStep(s, t, wait)
    case Release(t) => ReleaseStep(s, t)
    case Expire(t) => (s.(waiters := Removed(s.waiters, t), blocked := s.blocked - {t}), TimedOut)
  }

  // --------------------------------------------------------------- invariant

  ghost predicate Known(s: State) {
    s.base.Keys == s.current.Keys && s.blocked.Keys <= s.base.Keys && (s.owner.Some? ==> s.owner.value in s.base)
  }

  /** Free, unowned and not held are the same thing. */
  predicate Counted(s: State) {
    (s.value == 1 <==> s.owner.None?) && (s.owner.None? <==> s.hold == 0) && s.value <= 1
  }

  /** Exactly the blocked threads are listed, none of them the owner, and only while
      there is an owner. */
  ghost predicate Listed(s: State) {
    Distinct(s.waiters) && (forall t :: t in s.waiters <==> t in s.blocked)
    && (s.waiters != [] ==> s.owner.Some?) && (s.owner.Some? ==> s.owner.value !in s.waiters)
  }

  /** Only the owner's priority may differ from its base, and its base is saved. */
  ghost predicate Restored(s: State) {
    Known(s)
    && (forall t :: t in s.base && s.owner != Some(t) ==> s.current[t] == s.base[t])
    && (s.owner.Some? ==> s.original == s.base[s.owner.value] && s.current[s.owner.value] <= s.original)
  }

  /** The owner runs at a priority at least as urgent as that of every waiter. */
  ghost predicate Inherits(s: State) {
    Known(s)
    && forall t :: t in s.waiters && s.owner.Some? && t in s.current ==> s.current[s.owner.value] <= s.current[t]
  }

  /** Waiters are queued by priority, first come first served among equals. */
  ghost predicate Queued(s: State) {
    InOrder(s.waiters, s.tickets, Prio) && CameBefore(s.waiters, s.tickets, s.clock)
    && forall t :: t in s.waiters ==> t in s.base && Priority(s.tickets, t) == s.base[t]
  }

  ghost predicate Inv(s: State) {
    Known(s) && Counted(s) && Listed(s) && Restored(s) && Inherits(s) && Queued(s)
  }

  ghost predicate Initial(s: State) {
    s.value == 1 && s.owner == None && s.original == NO_PRIORITY && s.hold == 0 && s.waiters == []
    && s.blocked == map[] && s.current == s.base
  }

  // ------------------------------------------------------------- every step

  lemma WaitListed(s: State, t: Tid, timed: bool)
    requires Listed(s) && Known(s) && t in s.base && t in s.current && t !in s.blocked && s.owner.Some?
             && s.owner != Some(t)
    ensures Known(Waiting(s, t, timed)) && Listed(Waiting(s, t, timed)) && t !in s.waiters
    ensures forall x :: x in Waiting(s, t, timed).waiters <==> x in s.waiters || x == t
  {
    hide Suspended;
    SuspendedMembers(s.waiters, Waiting(s, t, timed).tickets, Prio, t);
  }

  lemma WaitPriorities(s: State, t: Tid, timed: bool)
    requires Restored(s) && Inherits(s) && t in s.base && t in s.current && s.owner.Some? && s.owner != Some(t)
    requires forall x :: x in Waiting(s, t, timed).waiters <==> x in s.waiters || x == t
    requires s.owner.value !in s.waiters
    ensures Restored(Waiting(s, t, timed)) && Inherits(Waiting(s, t, timed))
  {
    hide Suspended;
  }

  lemma WaitKeeps(s: State, t: Tid, timed: bool)
    requires Inv(s) && t in s.base && t in s.current && t !in s.blocked && s.owner.Some? && s.owner != Some(t)
    ensures Inv(Waiting(s, t, timed))
  {
    hide Restored, Inherits, Queued, Suspended;
    WaitListed(s, t, timed);
    WaitPriorities(s, t, timed);
    BaseOf(s, t);
    WaitQueued(s, t, timed);
  }

  lemma BaseOf(s: State, t: Tid)
    requires Restored(s) && t in s.base && s.owner != Some(t)
    ensures t in s.current && s.current[t] == s.base[t]
  {
  }

  lemma WaitQueued(s: State, t: Tid, timed: bool)
    requires Queued(s) && Distinct(s.waiters) && t in s.base && t in s.current && t !in s.waiters
             && s.current[t] == s.base[t]
    ensures Queued(Waiting(s, t, timed))
  {
    hide Suspended, InOrder;
    var s' := Waiting(s, t, timed);
    var l := s.waiters;
    NewTicket(l, s.tickets, Prio, t, s'.tickets[t]);
    forall i | 0 <= i < |l| ensures Arrival(s'.tickets, l[i]) < s.clock {
      assert l[i] in l && l[i] != t;
      assert Arrival(s'.tickets, l[i]) == Arrival(s.tickets, l[i]);
    }
    SuspendedInOrder(l, s'.tickets, Prio, t);
    SuspendedMembers(l, s'.tickets, Prio, t);
  }

  lemma FirstIsMostUrgent(s: State, t: Tid)
    requires Inv(s) && |s.waiters| > 0 && t in s.waiters
    ensures s.waiters[0] in s.base && t in s.base && s.base[s.waiters[0]] <= s.base[t]
  {
    var i :| 0 <= i < |s.waiters| && s.waiters[i] == t;
    assert s.waiters[0] in s.waiters;
    if i > 0 { assert Precedes(s.tickets, Prio, s.waiters[0], s.waiters[i]); }
  }

  /** The list without its first waiter. */
  lemma Rest(s: State)
    requires Listed(s) && Queued(s) && |s.waiters| > 0
    ensures Distinct(s.waiters[1..]) && (forall x :: x in s.waiters[1..] <==> x in s.waiters && x != s.waiters[0])
    ensures InOrder(s.waiters[1..], s.tickets, Prio) && s.waiters[0] in s.waiters
  {
    var w := s.waiters[0];
    RemovedMembers(s.waiters, w);
    RemovedInOrder(s.waiters, s.tickets, Prio, w);
    assert Removed(s.waiters, w) == s.waiters[1..];
  }

  lemma HandOffPriorities(s: State, t: Tid)
    requires Inv(s) && s.owner == Some(t) && |s.waiters| > 0
    requires forall x :: x in s.waiters[1..] <==> x in s.waiters && x != s.waiters[0]
    ensures Restored(HandOff(s, t)) && Inherits(HandOff(s, t))
  {
    hide InOrder, CameBefore, Distinct;
    var s', w := HandOff(s, t), s.waiters[0];
    assert w in s.waiters;
    forall u | u in s'.waiters ensures u in s'.current && s'.current[w] <= s'.current[u] {
      assert u in s.waiters && u != w && u != t;
      FirstIsMostUrgent(s, u);
    }
  }

  lemma HandOffKeeps(s: State, t: Tid)
    requires Inv(s) && s.owner == Some(t)
    ensures Inv(HandOff(s, t))
  {
    if |s.waiters| > 0 {
      hide InOrder, Restored, Inherits;
      Rest(s);
      HandOffPriorities(s, t);
    }
  }

  /** A hand-off keeps priority inheritance exactly if the waiter that gets the mutex
      is the most urgent one. Queueing by priority makes sure of that; a mutex whose
      waiters queue first come first served does not. */
  lemma HandOffInheritsIff(s: State, t: Tid)
    requires Known(s) && Listed(s) && Restored(s) && s.owner == Some(t) && |s.waiters| > 0
    ensures s.waiters[0] in s.base
    ensures Inherits(HandOff(s, t)) <==>
            forall u :: u in s.waiters[1..] && u in s.base ==> s.base[s.waiters[0]] <= s.base[u]
  {
    var s', w := HandOff(s, t), s.waiters[0];
    assert w in s.waiters && w in s.blocked.Keys;
    forall u | u in s.waiters[1..] ensures u in s.base && u in s'.current && s'.current[u] == s.base[u] {
      assert u in s.waiters && u in s.blocked.Keys;
    }
  }

  lemma ExpireKeeps(s: State, t: Tid)
    requires Inv(s) && Enabled(s, Expire(t))
    ensures Inv(Step(s, Expire(t)).0)
  {
    hide Removed, InOrder;
    RemovedMembers(s.waiters, t);
    RemovedInOrder(s.waiters, s.tickets, Prio, t);
  }

  /** Every section keeps mutual exclusion, the order of the waiters and priority
      inheritance. */
  lemma StepKeeps(s: State, e: Event)
    requires Inv(s) && Enabled(s, e)
    ensures Inv(Step(s, e).0)
  {
    hide InOrder, CameBefore, Waiting, HandOff, Distinct;
    match e
    case Take(t, wait) =>
      if s.owner != Some(t) && s.value == 0 && !wait.NoWait? {
        WaitKeeps(s, t, wait.Ticks?);
      }
    case Release(t) =>
      if s.owner == Some(t) && s.hold <= 1 {
        HandOffKeeps(s, t);
      }
    case Expire(t) => ExpireKeeps(s, t);
  }

  // -------------------------------------------------------------- whole runs

  predicate Runs(s: State, es: seq<Event>)
    decreases |es|
  {
    |es| == 0 || (Enabled(s, es[0]) && Runs(Step(s, es[0]).0, es[1..]))
  }

  function Last(s: State, es: seq<Event>): State
    requires Runs(s, es)
    decreases |es|
  {
    if |es| == 0 then s else Last(Step(s, es[0]).0, es[1..])
  }

  lemma {:induction false} RunKeeps(s: State, es: seq<Event>)
    requires Inv(s) && Runs(s, es)
    ensures Inv(Last(s, es))
    decreases |es|
  {
    if |es| > 0 {
      hide Inv, Step, Enabled;
      StepKeeps(s, es[0]);
      RunKeeps(Step(s, es[0]).0, es[1..]);
    }
  }

  /** In every reachable state: while anyone waits there is an owner, which runs at
      least as urgently as every waiter and does not wait itself; the first waiter is
      the most urgent; everyone else runs at its own priority; and the owner's own
      priority is what its last release restores. */
  lemma PriorityInheritance(s: State, es: seq<Event>, t: Tid)
    requires Initial(s) && Runs(s, es)
    ensures var e := Last(s, es);
            Counted(e)
            && (t in e.waiters ==> e.owner.Some? && e.owner.value != t && t in e.current && e.owner.value in e.current
                                   && e.current[e.owner.value] <= e.current[t])
            && (t in e.base && e.owner != Some(t) ==> t in e.current && e.current[t] == e.base[t])
            && (e.owner == Some(t) ==> t in e.base && e.original == e.base[t])
            && InOrder(e.waiters, e.tickets, Prio)
            && (t in e.waiters ==> e.waiters[0] in e.base && t in e.base && e.base[e.waiters[0]] <= e.base[t])
  {
    RunKeeps(s, es);
    var e := Last(s, es);
    if t in e.waiters { FirstIsMostUrgent(e, t); }
  }

  // ------------------------------------------------------- who is inside, and how often

  /** What a section gives thread t: a take that is granted at once, a waiting take that is
      granted (its wait ends, and not because it ran out), a release that is accepted. */
  function Gain(s: State, e: Event, t: Tid): int
    requires Enabled(s, e)
  {
    var (s', r) := Step(s, e);
    (if e.Take? && e.t == t && r.Done? then 1 else 0)
    + (if t in s.blocked && t !in s'.blocked && e != Expire(t) then 1 else 0)
    - (if e == Release(t) && r.Done? then 1 else 0)
  }

  /** The takes granted to t in a run, less the releases accepted. */
  function Balance(s: State, es: seq<Event>, t: Tid): int
    requires Runs(s, es)
    decreases |es|
  {
    if |es| == 0 then 0 else Gain(s, es[0], t) + Balance(Step(s, es[0]).0, es[1..], t)
  }

  /** How often t is inside by the mutex's own account. */
  function Inside(s: State, t: Tid): nat {
    if s.owner == Some(t) then s.hold else 0
  }

  lemma GainIs(s: State, e: Event, t: Tid)
    requires Inv(s) && Enabled(s, e)
    ensures Gain(s, e, t) == Inside(Step(s, e).0, t) - Inside(s, t)
  {
    hide InOrder, CameBefore, Restored, Inherits, Queued, Suspended, Removed;
    if |s.waiters| > 0 { assert s.waiters[0] in s.waiters; }
  }

  lemma {:induction false} BalanceFrom(s: State, es: seq<Event>, t: Tid)
    requires Inv(s) && Runs(s, es)
    ensures Balance(s, es, t) == Inside(Last(s, es), t) - Inside(s, t)
    decreases |es|
  {
    if |es| > 0 {
      hide Inv, Step, Enabled, Gain;
      StepKeeps(s, es[0]);
      GainIs(s, es[0], t);
      BalanceFrom(Step(s, es[0]).0, es[1..], t);
    }
  }

  /** Exclusion over whole runs, counted by what the callers are told: a thread that has
      been granted more takes than it has released is the owner, `hold` is the difference,
      and nobody else has. */
  lemma HeldByOne(s: State, es: seq<Event>, t: Tid, u: Tid)
    requires Initial(s) && Runs(s, es)
    ensures var e := Last(s, es);
            Balance(s, es, t) >= 0
            && (Balance(s, es, t) > 0 <==> e.owner == Some(t))
            && (Balance(s, es, t) > 0 ==> e.hold == Balance(s, es, t))
            && (Balance(s, es, t) > 0 && Balance(s, es, u) > 0 ==> t == u)
  {
    BalanceFrom(s, es, t);
    BalanceFrom(s, es, u);
    RunKeeps(s, es);
  }

  /** The answer to a section where `free` says whether nobody else is inside, and `mine`
      whether the caller is. */
  predicate Answer(m: State, e: Event, free: bool, mine: bool)
    requires Enabled(m, e)
  {
    var (s', r) := Step(m, e);
    if e.Take? then
      (r.Done? <==> free)
      && (!free && e.wait.NoWait? ==> r.TimedOut? && s' == m)
      && (!free && !e.wait.NoWait? ==> r.Waits? && e.t in s'.blocked && s'.blocked[e.t] == e.wait.Ticks?)
    else if e.Release? then
      if mine then r.Done? else r.NotOwner? && s' == m
    else
      r.TimedOut? && e.t !in s'.blocked && !mine
  }

  lemma StepAnswers(m: State, e: Event)
    requires Inv(m) && Enabled(m, e)
    ensures Answer(m, e, m.owner.None? || m.owner == Some(e.t), m.owner == Some(e.t))
  {
    hide Restored, Inherits, Queued, Suspended, Removed, HandOff, Distinct;
    if e.Expire? { assert e.t in m.waiters; }
  }

  /** What the callers are told: a take is granted exactly if nobody else is inside; else
      it is refused, or waits with its time running if it has one. A release is accepted
      exactly if the caller is inside. */
  lemma Answers(s: State, es: seq<Event>, e: Event, free: bool)
    requires Initial(s) && Runs(s, es) && Enabled(Last(s, es), e)
    requires free <==> forall u :: u != e.t ==> Balance(s, es, u) == 0
    ensures Answer(Last(s, es), e, free, Balance(s, es, e.t) > 0)
  {
    RunKeeps(s, es);
    var m := Last(s, es);
    forall u ensures Balance(s, es, u) == Inside(m, u) { BalanceFrom(s, es, u); }
    StepAnswers(m, e);
    assert Counted(m);
    hide Balance, Runs, Last, Initial, Inv, Answer, Enabled;
    if m.owner.Some? && m.owner.value != e.t { assert Balance(s, es, m.owner.value) > 0; }
  }

  // --------------------------------------------------------------- the object

  class MutexObject {
    var value: nat
    var owner: Option<Tid>
    var original: nat
    var hold: nat
    var waiters: seq<Tid>
    /** The current priorities of the threads, and which of them wait here. */
    var current: map<Tid, nat>
    var blocked: map<Tid, bool>
    var tickets: Tickets
    var clock: nat
    ghost var base: map<Tid, nat>

    ghost function View(): State
      reads this
    {
      State(value, owner, original, hold, waiters, base, current, blocked, tickets, clock)
    }

    /** rt_mutex_init */
    constructor (priorities: map<Tid, nat>)
      ensures Initial(View()) && base == priorities
    {
      value, owner, original, hold := 1, None, NO_PRIORITY, 0;
      waiters, current, blocked, tickets, clock := [], priorities, map[], map[], 0;
      base := priorities;
    }

    /** rt_mutex_take up to where it enables interrupts */
    method TakeSection(t: Tid, wait: Wait) returns (r: Result)
      requires Inv(View()) && Enabled(View(), Take(t, wait))
      modifies this
      ensures Inv(View()) && (View(), r) == Step(old(View()), Take(t, wait))
    {
      hide Inv, Waiting;
      StepKeeps(View(), Take(t, wait));
      if owner == Some(t) {
        hold := hold + 1;
        return Done;
      }
      if value > 0 {
        value := value - 1;
        owner := Some(t);
        original := current[t];
        hold := hold + 1;
        return Done;
      }
      if wait.NoWait? {
        return TimedOut;
      }
      WaitFor(t, wait.Ticks?);
      r := Waits;
    }

    /** The owner inherits the priority of t, and t joins the waiters. */
    method WaitFor(t: Tid, timed: bool)
      requires t in current
      modifies `tickets, `current, `clock, `waiters, `blocked
      ensures View() == Waiting(old(View()), t, timed)
    {
      hide Suspended;
      tickets := tickets[t := Ticket(current[t], clock)];
      if owner.Some? && owner.value in current && current[t] < current[owner.value] {
        current := current[owner.value := current[t]];
      }
      clock := clock + 1;
      waiters := Suspend(waiters, tickets, Prio, t);
      blocked := blocked[t := timed];
    }

    /** rt_mutex_release */
    method ReleaseSection(t: Tid) returns (r: Result)
      requires Inv(View()) && Enabled(View(), Release(t))
      modifies this
      ensures Inv(View()) && (View(), r) == Step(old(View()), Release(t))
    {
      hide Inv;
      StepKeeps(View(), Release(t));
      Held(View());
      if owner != Some(t) {
        return NotOwner;
      }
      hold := hold - 1;
      if hold == 0 {
        if original != current[t] {
          current := current[t := original];
        }
        if |waiters| > 0 {
          var w := waiters[0];
          owner := Some(w);
          original := if w in current then current[w] else 0;
          hold := hold + 1;
          waiters := waiters[1..];
          blocked := blocked - {w};
        } else {
          value := value + 1;
          owner := None;
          original := NO_PRIORITY;
        }
      }
      r := Done;
    }

    /** rt_thread_timeout of a waiter */
    method TimeoutSection(t: Tid)
      requires Inv(View()) && Enabled(View(), Expire(t))
      modifies `waiters, `blocked
      ensures Inv(View()) && (View(), TimedOut) == Step(old(View()), Expire(t))
    {
      hide Inv;
      StepKeeps(View(), Expire(t));
      waiters := Removed(waiters, t);
      blocked := blocked - {t};
    }
  }

  lemma Held(s: State)
    requires Inv(s)
    ensures s.owner.Some? ==> s.hold > 0 && s.owner.value in s.current
  {
    assert s.owner.Some? ==> s.owner.value in s.base.Keys;
  }
}

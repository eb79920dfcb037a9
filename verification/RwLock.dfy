/** Reader-writer locks on a mutex and two condition variables (pthread_rwlock.c),
    after pthread_rwlock_rdlock, pthread_rwlock_wrlock and pthread_rwlock_unlock of
    IEEE Std 1003.1-2004. A section is what a call does while it holds the mutex; a
    wait on a condition variable ends a section, and may end at any time with success
    (also spuriously) or with an error. */
module RwLock {

  /** One lock request, from the call that makes it to the unlock that ends it. */
  type Request = nat

  datatype Kind = Read | Write

  /** Blocking, try and timed calls; a timed call differs from a blocking one only in
      when its waits end. */
  datatype Form = Blocks | Try

  datatype Phase = Waits(kind: Kind) | Holds(kind: Kind)

  type Phases = map<Request, Phase>

  datatype State = State(refcount: int, nwaitreaders: int, nwaitwriters: int, phase: Phases)

  datatype Event = Lock(r: Request, kind: Kind, form: Form) | Resume(r: Request, ok: bool) | Unlock(r: Request)

  /** What a section reports: the lock was got, the caller waits, or an error. An
      unlock says whom it wakes. */
  datatype Answer = Got | Waiting | Busy | Failed | WakesWriter | WakesReaders | WakesNobody

  predicate Enabled(s: State, e: Event) {
    match e
    case Lock(r, _, _) => r !in s.phase
    case Resume(r, _) => r in s.phase && s.phase[r].Waits?
    case Unlock(r) => r in s.phase && s.phase[r].Holds?
  }

  /** The condition of the wait loops. */
  predicate MustWait(s: State, kind: Kind) {
    match kind
    case Read => s.refcount < 0 || s.nwaitwriters > 0
    case Write => s.refcount != 0
  }

  function CountWait(s: State, kind: Kind, d: int): State {
    match kind
    case Read => s.(nwaitreaders := s.nwaitreaders + d)
    case Write => s.(nwaitwriters := s.nwaitwriters + d)
  }

  function RequestStep(s: State, r: Request, kind: Kind, form: Form): (State, Answer) {
    if MustWait(s, kind) then
      if form.Try? then (s, Busy)
      else (CountWait(s, kind, 1).(phase := s.phase[r := Waits(kind)]), Waiting)
    else
      (s.(refcount := if kind.Read? then s.refcount + 1 else -1, phase := s.phase[r := Holds(kind)]), Got)
  }

  function UnlockStep(s: State, r: Request): (State, Answer) {
    var count := if s.refcount > 0 then s.refcount - 1 else if s.refcount == -1 then 0 else s.refcount;
    (s.(refcount := count, phase := s.phase - {r}),
     if s.nwaitwriters > 0 then (if count == 0 then WakesWriter else WakesNobody)
     else if s.nwaitreaders > 0 then WakesReaders
     else WakesNobody)
  }

  function Step(s: State, e: Event): (State, Answer)
    requires Enabled(s, e)
  {
    match e
    case Lock(r, kind, form) => RequestStep(s, r, kind, form)
    case Resume(r, ok) =>
      var kind := s.phase[r].kind;
      var s1 := CountWait(s, kind, -1).(phase := s.phase - {r});
      if ok then RequestStep(s1, r, kind, Blocks) else (s1, Failed)
    case Unlock(r) => UnlockStep(s, r)
  }

  // --------------------------------------------------------------- invariant

  /** The requests in this phase. */
  ghost function In(phase: Phases, p: Phase): set<Request> {
    set r | r in phase && phase[r] == p
  }

  /** -1 exactly while one writer and no reader holds the lock, else the number of
      readers that hold it; the counters are the numbers of waiting requests. */
  ghost predicate Inv(s: State) {
    (if s.refcount == -1 then |In(s.phase, Holds(Write))| == 1 && |In(s.phase, Holds(Read))| == 0
     else |In(s.phase, Holds(Write))| == 0 && s.refcount == |In(s.phase, Holds(Read))|)
    && s.nwaitreaders == |In(s.phase, Waits(Read))| && s.nwaitwriters == |In(s.phase, Waits(Write))|
  }

  lemma Enters(phase: Phases, r: Request, p: Phase, q: Phase)
    requires r !in phase
    ensures |In(phase[r := p], q)| == |In(phase, q)| + if p == q then 1 else 0
  {
    if p == q {
      assert In(phase[r := p], q) == In(phase, q) + {r};
    } else {
      assert In(phase[r := p], q) == In(phase, q);
    }
  }

  lemma Leaves(phase: Phases, r: Request, q: Phase)
    requires r in phase
    ensures |In(phase - {r}, q)| == |In(phase, q)| - if phase[r] == q then 1 else 0
  {
    assert In(phase - {r}, q) == In(phase, q) - {r};
    assert r in In(phase, q) <==> phase[r] == q;
  }

  lemma RequestKeeps(s: State, r: Request, kind: Kind, form: Form)
    requires Inv(s) && r !in s.phase
    ensures Inv(RequestStep(s, r, kind, form).0)
  {
    var p := if MustWait(s, kind) then Waits(kind) else Holds(kind);
    Enters(s.phase, r, p, Holds(Read));
    Enters(s.phase, r, p, Holds(Write));
    Enters(s.phase, r, p, Waits(Read));
    Enters(s.phase, r, p, Waits(Write));
    hide In;
  }

  lemma LeaveCounts(s: State, r: Request)
    requires r in s.phase
    ensures forall q: Phase ::
              |In(s.phase - {r}, q)| == |In(s.phase, q)| - if s.phase[r] == q then 1 else 0
  {
    forall q: Phase ensures |In(s.phase - {r}, q)| == |In(s.phase, q)| - if s.phase[r] == q then 1 else 0 {
      Leaves(s.phase, r, q);
    }
  }

  lemma HeldOnce(s: State, r: Request)
    requires Inv(s) && r in s.phase && s.phase[r] == Holds(Write)
    ensures s.refcount == -1
  {
    assert r in In(s.phase, Holds(Write));
  }

  lemma ReaderCounts(s: State, r: Request)
    requires Inv(s) && r in s.phase && s.phase[r] == Holds(Read)
    ensures s.refcount > 0
  {
    assert r in In(s.phase, Holds(Read));
  }

  /** Every section keeps the counters exact. */
  lemma StepKeeps(s: State, e: Event)
    requires Inv(s) && Enabled(s, e)
    ensures Inv(Step(s, e).0)
  {
    hide In;
    match e
    case Lock(r, kind, form) => RequestKeeps(s, r, kind, form);
    case Resume(r, ok) =>
      LeaveCounts(s, r);
      var kind := s.phase[r].kind;
      var s1 := CountWait(s, kind, -1).(phase := s.phase - {r});
      assert Inv(s1);
      if ok { RequestKeeps(s1, r, kind, Blocks); }
    case Unlock(r) =>
      LeaveCounts(s, r);
      if s.phase[r].kind.Write? { HeldOnce(s, r); } else { ReaderCounts(s, r); }
  }

  /** Nothing keeps a request of this kind out: a reader is kept out by a writer that holds
      the lock or waits for it, a writer by anybody who holds it. */
  ghost predicate Free(phase: Phases, kind: Kind) {
    forall x :: x in phase ==> if kind.Read? then phase[x].kind.Read? else phase[x].Waits?
  }

  ghost predicate Someone(phase: Phases, p: Phase) {
    exists x :: x in phase && phase[x] == p
  }

  /** A request that tests the lock is granted exactly if nothing keeps it out; else a try
      is answered Busy, and the others wait. */
  ghost predicate Admitted(phase: Phases, r: Request, kind: Kind, form: Form, phase': Phases, a: Answer) {
    if Free(phase, kind) then a.Got? && phase' == phase[r := Holds(kind)]
    else if form.Try? then a.Busy? && phase' == phase
    else a.Waiting? && phase' == phase[r := Waits(kind)]
  }

  /** What a section answers, by where the requests stand. */
  ghost predicate Answered(phase: Phases, e: Event, phase': Phases, a: Answer) {
    match e
    case Lock(r, kind, form) => Admitted(phase, r, kind, form, phase', a)
    case Resume(r, ok) =>
      r in phase
      && if ok then Admitted(phase - {r}, r, phase[r].kind, Blocks, phase', a)
         else a.Failed? && phase' == phase - {r}
    case Unlock(r) =>
      phase' == phase - {r}
      && (a.WakesWriter? <==> Someone(phase', Waits(Write)) && Free(phase', Write))
      && (a.WakesReaders? <==> !Someone(phase', Waits(Write)) && Someone(phase', Waits(Read)))
      && (a.WakesWriter? || a.WakesReaders? || a.WakesNobody?)
  }

  lemma SomeoneCounted(phase: Phases, p: Phase)
    ensures Someone(phase, p) <==> |In(phase, p)| > 0
  {
    if Someone(phase, p) {
      var x :| x in phase && phase[x] == p;
      assert x in In(phase, p);
    }
    if |In(phase, p)| > 0 {
      var x :| x in In(phase, p);
    }
  }

  /** The tests on the counters are tests on where the requests stand. */
  lemma FreeIff(s: State, kind: Kind)
    requires Inv(s)
    ensures Free(s.phase, kind) <==> !MustWait(s, kind)
  {
    hide In;
    SomeoneCounted(s.phase, Holds(Write));
    SomeoneCounted(s.phase, Holds(Read));
    SomeoneCounted(s.phase, Waits(Write));
    if !Free(s.phase, kind) {
      var x :| x in s.phase && !(if kind.Read? then s.phase[x].kind.Read? else s.phase[x].Waits?);
      assert s.phase[x] in {Holds(Read), Holds(Write), Waits(Write)} && Someone(s.phase, s.phase[x]);
    }
  }

  lemma Leaving(s: State, r: Request)
    requires Inv(s) && r in s.phase && s.phase[r].Waits?
    ensures Inv(CountWait(s, s.phase[r].kind, -1).(phase := s.phase - {r}))
  {
    LeaveCounts(s, r);
    hide In;
  }

  lemma StepAnswers(s: State, e: Event)
    requires Inv(s) && Enabled(s, e)
    ensures var (s', a) := Step(s, e); Answered(s.phase, e, s'.phase, a)
  {
    StepKeeps(s, e);
    hide In, Inv;
    match e
    case Lock(r, kind, form) => FreeIff(s, kind);
    case Resume(r, ok) =>
      Leaving(s, r);
      FreeIff(CountWait(s, s.phase[r].kind, -1).(phase := s.phase - {r}), s.phase[r].kind);
    case Unlock(r) => UnlockAnswers(s, r);
  }

  lemma UnlockAnswers(s: State, r: Request)
    requires Inv(s) && Enabled(s, Unlock(r)) && Inv(UnlockStep(s, r).0)
    ensures var (s', a) := UnlockStep(s, r); Answered(s.phase, Unlock(r), s'.phase, a)
  {
    hide In;
    var s' := UnlockStep(s, r).0;
    FreeIff(s', Write);
    SomeoneCounted(s'.phase, Waits(Write));
    SomeoneCounted(s'.phase, Waits(Read));
  }

  // -------------------------------------------------------------- whole runs

  predicate Runs(s: State, es: seq<Event>)
    decreases |es|
  {
    |es| == 0 || (Enabled(s, es[0]) && Runs(Step(s, es[0]).0, es[1..]))
  }

  function Last(s: State, es: seq<Event>): State
    requires Runs(s, es)
    decreases |es|
  {
    if |es| == 0 then s else Last(Step(s, es[0]).0, es[1..])
  }

  lemma {:induction false} RunKeeps(s: State, es: seq<Event>)
    requires Inv(s) && Runs(s, es)
    ensures Inv(Last(s, es))
    decreases |es|
  {
    if |es| > 0 {
      hide Inv, Step, Enabled;
      StepKeeps(s, es[0]);
      RunKeeps(Step(s, es[0]).0, es[1..]);
    }
  }

  const INITIAL: State := State(0, 0, 0, map[])

  lemma TwoMembers(a: set<Request>, x: Request, y: Request)
    requires x in a && y in a && |a| == 1
    ensures x == y
  {
    var b := a - {x};
    assert a == b + {x} && |b| == 0;
    assert y in b ==> b != {};
  }

  /** Exclusion: in every run a writer that holds the lock holds it alone. */
  lemma Exclusion(es: seq<Event>, w: Request, r: Request)
    requires Runs(INITIAL, es)
    requires w in Last(INITIAL, es).phase && Last(INITIAL, es).phase[w] == Holds(Write)
    requires r in Last(INITIAL, es).phase && Last(INITIAL, es).phase[r].Holds?
    ensures r == w && Last(INITIAL, es).refcount == -1
  {
    RunKeeps(INITIAL, es);
    var s := Last(INITIAL, es);
    HeldOnce(s, w);
    assert w in In(s.phase, Holds(Write));
    if s.phase[r] == Holds(Read) {
      ReaderCounts(s, r);
    } else {
      assert r in In(s.phase, Holds(Write));
      TwoMembers(In(s.phase, Holds(Write)), w, r);
    }
  }

  // ------------------------------------------------------------ who is woken

  /** `awake`: the waiting requests whose wait has been ended by a signal or a broadcast
      and that have not held the mutex since. */
  datatype Scene = Scene(s: State, awake: set<Request>)

  predicate WaitsFor(s: State, r: Request, kind: Kind) {
    r in s.phase && s.phase[r] == Waits(kind)
  }

  /** The signal of an unlock goes to a waiting writer that is still asleep, if any is. */
  ghost predicate Picks(c: Scene, e: Event, pick: Request)
    requires Enabled(c.s, e)
  {
    e.Unlock? && Step(c.s, e).1.WakesWriter? ==>
      WaitsFor(c.s, pick, Write) && (pick in c.awake ==> forall r :: WaitsFor(c.s, r, Write) ==> r in c.awake)
  }

  ghost function Next(c: Scene, e: Event, pick: Request): Scene
    requires Enabled(c.s, e)
  {
    var (s', a) := Step(c.s, e);
    match e
    case Lock(_, _, _) => Scene(s', c.awake)
    case Resume(r, _) => Scene(s', c.awake - {r})
    case Unlock(_) =>
      Scene(s', match a
                case WakesWriter => c.awake + {pick}
                case WakesReaders => c.awake + In(s'.phase, Waits(Read))
                case _ => c.awake)
  }

  /** Nobody sleeps for nothing: while the lock is free and writers wait, one of them is
      awake; while no writer holds it or waits, every waiting reader is awake. */
  ghost predicate NobodyAsleep(c: Scene) {
    (forall r :: r in c.awake ==> r in c.s.phase && c.s.phase[r].Waits?)
    && (c.s.refcount == 0 && c.s.nwaitwriters > 0 ==> exists r :: r in c.awake && WaitsFor(c.s, r, Write))
    && (c.s.refcount >= 0 && c.s.nwaitwriters == 0 ==> forall r :: WaitsFor(c.s, r, Read) ==> r in c.awake)
  }

  /** The error return of a waiting writer leaves somebody asleep: the last one waiting
      while readers sleep that may go on, or the only one awake while others sleep. */
  ghost predicate LeavesAsleep(c: Scene, r: Request) {
    WaitsFor(c.s, r, Write)
    && ((c.s.refcount >= 0 && c.s.nwaitwriters == 1 && exists x :: WaitsFor(c.s, x, Read) && x !in c.awake)
        || (c.s.refcount == 0 && c.s.nwaitwriters > 1
            && forall x :: WaitsFor(c.s, x, Write) && x in c.awake ==> x == r))
  }

  lemma ReadersCounted(s: State, r: Request)
    requires Inv(s) && WaitsFor(s, r, Read)
    ensures s.nwaitreaders > 0
  {
    assert r in In(s.phase, Waits(Read));
  }

  lemma LockAwake(c: Scene, r: Request, kind: Kind, form: Form)
    requires Inv(c.s) && NobodyAsleep(c) && r !in c.s.phase
    ensures NobodyAsleep(Next(c, Lock(r, kind, form), r))
  {
    hide Inv, In;
    var s' := Step(c.s, Lock(r, kind, form)).0;
    forall x, k | x != r ensures WaitsFor(s', x, k) <==> WaitsFor(c.s, x, k) { }
    CountsNat(c.s);
  }

  lemma CountsNat(s: State)
    requires Inv(s)
    ensures s.nwaitwriters >= 0 && s.nwaitreaders >= 0
  {
  }

  lemma UnlockAwake(c: Scene, r: Request, pick: Request)
    requires Inv(c.s) && NobodyAsleep(c) && Enabled(c.s, Unlock(r)) && Picks(c, Unlock(r), pick)
    ensures NobodyAsleep(Next(c, Unlock(r), pick))
  {
    hide Inv;
    var s' := Step(c.s, Unlock(r)).0;
    forall x, k ensures WaitsFor(s', x, k) <==> WaitsFor(c.s, x, k) { }
    CountsNat(c.s);
    if s'.nwaitwriters == 0 {
      forall x | WaitsFor(s', x, Read) ensures x in Next(c, Unlock(r), pick).awake { ReadersCounted(c.s, x); }
    }
  }

  lemma ResumeAwake(c: Scene, r: Request, ok: bool)
    requires Inv(c.s) && NobodyAsleep(c) && Enabled(c.s, Resume(r, ok)) && (ok || c.s.phase[r].kind.Read?)
    ensures NobodyAsleep(Next(c, Resume(r, ok), r))
  {
    hide Inv, In;
    var c' := Next(c, Resume(r, ok), r);
    forall x, k | x != r ensures WaitsFor(c'.s, x, k) <==> WaitsFor(c.s, x, k) { }
    CountsNat(c.s);
    WaiterCounted(c.s, r);
    if c'.s.refcount == 0 && c'.s.nwaitwriters > 0 {
      var x :| x in c.awake && WaitsFor(c.s, x, Write);
      assert x != r && x in c'.awake && WaitsFor(c'.s, x, Write);
    }
  }

  lemma WaiterCounted(s: State, r: Request)
    requires Inv(s) && r in s.phase && s.phase[r].Waits?
    ensures if s.phase[r].kind.Read? then s.nwaitreaders > 0 else s.nwaitwriters > 0
  {
    assert r in In(s.phase, s.phase[r]);
  }

  /** The error return of a waiting writer. */
  lemma FailedWriterIff(c: Scene, r: Request)
    requires Inv(c.s) && NobodyAsleep(c) && WaitsFor(c.s, r, Write)
    ensures NobodyAsleep(Next(c, Resume(r, false), r)) <==> !LeavesAsleep(c, r)
  {
    hide In;
    var c' := Next(c, Resume(r, false), r);
    forall x, k ensures WaitsFor(c'.s, x, k) <==> WaitsFor(c.s, x, k) && x != r { }
    CountsNat(c.s);
    hide Inv;
    if x :| x in c.awake && WaitsFor(c.s, x, Write) && x != r { assert x in c'.awake && WaitsFor(c'.s, x, Write); }
    if x :| x in c'.awake && WaitsFor(c'.s, x, Write) { assert x in c.awake && WaitsFor(c.s, x, Write) && x != r; }
    if x :| WaitsFor(c.s, x, Read) && x !in c.awake { assert WaitsFor(c'.s, x, Read) && x !in c'.awake; }
  }

  /** Every section keeps it that nobody sleeps for nothing, but for the error return of a
      waiting writer in just those cases. */
  lemma AwakeExact(c: Scene, e: Event, pick: Request)
    requires Inv(c.s) && NobodyAsleep(c) && Enabled(c.s, e) && Picks(c, e, pick)
    ensures NobodyAsleep(Next(c, e, pick)) <==> !(e.Resume? && !e.ok && LeavesAsleep(c, e.r))
  {
    hide Inv, NobodyAsleep, LeavesAsleep, Step, In;
    match e {
      case Lock(r, kind, form) =>
        LockAwake(c, r, kind, form);
        assert Next(c, e, pick) == Next(c, e, r);
      case Unlock(r) => UnlockAwake(c, r, pick);
      case Resume(r, ok) =>
        assert Next(c, e, pick) == Next(c, e, r);
        if ok || c.s.phase[r].kind.Read? {
          ResumeAwake(c, r, ok);
          if c.s.phase[r].kind.Read? { ReaderLeaves(c, r); }
        } else {
          FailedWriterIff(c, r);
        }
    }
  }

  // ------------------------------------------------------------- whole runs

  /** A section, with the writer its signal goes to, if it sends one. */
  datatype Move = Move(e: Event, pick: Request)

  ghost predicate Plays(c: Scene, ms: seq<Move>)
    decreases |ms|
  {
    |ms| == 0
    || (Enabled(c.s, ms[0].e) && Picks(c, ms[0].e, ms[0].pick) && Plays(Next(c, ms[0].e, ms[0].pick), ms[1..]))
  }

  ghost function After(c: Scene, ms: seq<Move>): Scene
    requires Plays(c, ms)
    decreases |ms|
  {
    if |ms| == 0 then c else After(Next(c, ms[0].e, ms[0].pick), ms[1..])
  }

  /** At no point of the run does anybody sleep for nothing. */
  ghost predicate NeverAsleep(c: Scene, ms: seq<Move>)
    requires Plays(c, ms)
    decreases |ms|
  {
    NobodyAsleep(c) && (|ms| == 0 || NeverAsleep(Next(c, ms[0].e, ms[0].pick), ms[1..]))
  }

  /** No waiting writer gives up in one of the cases that leave somebody asleep. */
  ghost predicate NoneLeft(c: Scene, ms: seq<Move>)
    requires Plays(c, ms)
    decreases |ms|
  {
    |ms| == 0
    || (var e := ms[0].e;
        !(e.Resume? && !e.ok && LeavesAsleep(c, e.r)) && NoneLeft(Next(c, e, ms[0].pick), ms[1..]))
  }

  lemma {:induction false} AwakeFrom(c: Scene, ms: seq<Move>)
    requires Inv(c.s) && NobodyAsleep(c) && Plays(c, ms)
    ensures NeverAsleep(c, ms) <==> NoneLeft(c, ms)
    decreases |ms|
  {
    if |ms| > 0 {
      hide Inv, NobodyAsleep, LeavesAsleep, Step, Picks, Enabled;
      var e, c' := ms[0].e, Next(c, ms[0].e, ms[0].pick);
      AwakeExact(c, e, ms[0].pick);
      if NobodyAsleep(c') {
        StepKeeps(c.s, e);
        assert c'.s == Step(c.s, e).0;
        AwakeFrom(c', ms[1..]);
      } else {
        assert !NeverAsleep(c', ms[1..]);
      }
    }
  }

  const START: Scene := Scene(INITIAL, {})

  /** In a run from the start nobody ever sleeps for nothing exactly if no waiting writer
      gives up in one of those cases. */
  lemma AwakeRuns(ms: seq<Move>)
    requires Plays(START, ms)
    ensures NeverAsleep(START, ms) <==> NoneLeft(START, ms)
  {
    AwakeFrom(START, ms);
  }

  /** Such a run: a reader holds the lock, a writer and behind it a second reader wait, and
      the writer's wait runs out. The second reader sleeps on, though nothing keeps it from
      sharing the lock. */
  lemma ReaderLeftAsleep()
    ensures var ms := [Move(Lock(1, Read, Blocks), 0), Move(Lock(2, Write, Blocks), 0),
                       Move(Lock(3, Read, Blocks), 0), Move(Resume(2, false), 0)];
            Plays(START, ms) && !NoneLeft(START, ms)
            && var c := After(START, ms); WaitsFor(c.s, 3, Read) && 3 !in c.awake && !MustWait(c.s, Read)
  {
    var c1 := Next(START, Lock(1, Read, Blocks), 0);
    var c2 := Next(c1, Lock(2, Write, Blocks), 0);
    var c3 := Next(c2, Lock(3, Read, Blocks), 0);
    assert c3.s == State(1, 1, 1, map[1 := Holds(Read), 2 := Waits(Write), 3 := Waits(Read)]);
    assert WaitsFor(c3.s, 3, Read) && 3 !in c3.awake;
  }

  lemma ReaderLeaves(c: Scene, r: Request)
    requires r in c.s.phase && c.s.phase[r] == Waits(Read)
    ensures !LeavesAsleep(c, r)
  {
  }

  // ---------------------------------------------------------------- the object

  class RwLockObject {
    var refcount: int
    var nwaitreaders: int
    var nwaitwriters: int
    /** Where the requests stand. */
    ghost var phase: Phases

    ghost function View(): State
      reads this
    {
      State(refcount, nwaitreaders, nwaitwriters, phase)
    }

    /** pthread_rwlock_init */
    constructor ()
      ensures View() == INITIAL && Inv(View())
    {
      refcount, nwaitreaders, nwaitwriters := 0, 0, 0;
      phase := map[];
    }

    /** The body of rdlock, tryrdlock and timedrdlock from the test of the loop on. */
    method ReadSection(r: Request, form: Form) returns (a: Answer)
      requires Inv(View()) && r !in phase
      modifies this
      ensures Inv(View()) && (View(), a) == RequestStep(old(View()), r, Read, form)
      ensures Admitted(old(phase), r, Read, form, phase, a)
    {
      hide Inv, Free;
      RequestKeeps(View(), r, Read, form);
      FreeIff(View(), Read);
      if refcount < 0 || nwaitwriters > 0 {
        if form.Try? {
          return Busy;
        }
        nwaitreaders := nwaitreaders + 1;
        phase := phase[r := Waits(Read)];
        return Waiting;
      }
      refcount := refcount + 1;
      phase := phase[r := Holds(Read)];
      a := Got;
    }

    /** The same of wrlock, trywrlock and timedwrlock. */
    method WriteSection(r: Request, form: Form) returns (a: Answer)
      requires Inv(View()) && r !in phase
      modifies this
      ensures Inv(View()) && (View(), a) == RequestStep(old(View()), r, Write, form)
      ensures Admitted(old(phase), r, Write, form, phase, a)
    {
      hide Inv, Free;
      RequestKeeps(View(), r, Write, form);
      FreeIff(View(), Write);
      if refcount != 0 {
        if form.Try? {
          return Busy;
        }
        nwaitwriters := nwaitwriters + 1;
        phase := phase[r := Waits(Write)];
        return Waiting;
      }
      refcount := -1;
      phase := phase[r := Holds(Write)];
      a := Got;
    }

    /** pthread_cond_wait or pthread_cond_timedwait returns. */
    method Woken(r: Request, kind: Kind, ok: bool) returns (a: Answer)
      requires Inv(View()) && r in phase && phase[r] == Waits(kind)
      modifies this
      ensures Inv(View()) && (View(), a) == Step(old(View()), Resume(r, ok))
      ensures Answered(old(phase), Resume(r, ok), phase, a)
    {
      hide Inv, Answered;
      StepAnswers(View(), Resume(r, ok));
      WokenCounted(View(), r);
      if kind.Read? {
        nwaitreaders := nwaitreaders - 1;
      } else {
        nwaitwriters := nwaitwriters - 1;
      }
      phase := phase - {r};
      if !ok {
        return Failed;
      }
      if kind.Read? {
        a := ReadSection(r, Blocks);
      } else {
        a := WriteSection(r, Blocks);
      }
    }

    /** pthread_rwlock_unlock */
    method UnlockSection(r: Request) returns (a: Answer)
      requires Inv(View()) && r in phase && phase[r].Holds?
      modifies this
      ensures Inv(View()) && (View(), a) == Step(old(View()), Unlock(r))
      ensures Answered(old(phase), Unlock(r), phase, a)
    {
      hide Inv, Answered;
      StepAnswers(View(), Unlock(r));
      StepKeeps(View(), Unlock(r));
      if refcount > 0 {
        refcount := refcount - 1;
      } else if refcount == -1 {
        refcount := 0;
      }
      phase := phase - {r};
      a := WakesNobody;
      if nwaitwriters > 0 {
        if refcount == 0 {
          a := WakesWriter;
        }
      } else if nwaitreaders > 0 {
        a := WakesReaders;
      }
    }
  }

  lemma WokenCounted(s: State, r: Request)
    requires Inv(s) && r in s.phase && s.phase[r].Waits?
    ensures Inv(CountWait(s, s.phase[r].kind, -1).(phase := s.phase - {r}))
  {
    StepKeeps(s, Resume(r, false));
  }
}

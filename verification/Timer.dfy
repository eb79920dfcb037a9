/** Hard timers (timer.c, clock.c). The tick counter wraps at 2^32; `now` counts the
    ticks without wrapping and `due` is the tick, so counted, at which a running
    timer is to fire. Interrupts are off while a timer's callback runs, so a callback
    is a list of operations on timers done at one instant. */
module Timer {
  import opened Basics

  type Id = nat

  const WRAP: int := 0x1_0000_0000
  const HALF: int := 0x7fff_ffff      // RT_TICK_MAX / 2

  function Tick(x: int): (r: nat)
    ensures r < WRAP
  {
    x % WRAP
  }

  /** flag bits: `active` is RT_TIMER_FLAG_ACTIVATED. */
  datatype Clock = Clock(init: nat, periodic: bool, active: bool, timeout: nat)

  datatype Op = Start(id: Id) | Stop(id: Id) | SetTime(id: Id, n: nat) | SetPeriodic(id: Id, on: bool)

  type Timers = map<Id, Clock>

  type Scripts = map<Id, seq<Op>>

  /** `scripts` says what each timer's callback does. */
  datatype State = State(now: nat, timers: Timers, list: seq<Id>, due: map<Id, nat>, scripts: Scripts)

  // --------------------------------------------------------------- operations

  /** (a - b) < RT_TICK_MAX / 2 in 32-bit unsigned arithmetic. */
  predicate NotBefore(a: nat, b: nat) {
    Tick(a - b) < HALF
  }

  function TimeoutOf(timers: Timers, id: Id): nat {
    if id in timers then timers[id].timeout else 0
  }

  /** Where rt_timer_start puts a timer with this timeout. */
  function Spot(list: seq<Id>, timers: Timers, timeout: nat): (k: nat)
    ensures k <= |list| && (k < |list| ==> NotBefore(TimeoutOf(timers, list[k]), timeout))
    ensures forall i :: 0 <= i < k ==> !NotBefore(TimeoutOf(timers, list[i]), timeout)
  {
    if |list| == 0 || NotBefore(TimeoutOf(timers, list[0]), timeout) then 0
    else
      var k := Spot(list[1..], timers, timeout);
      assert forall i :: 0 <= i < k ==> list[1..][i] == list[i + 1];
      k + 1
  }

  /** The timer flagged and put into the list, due at tick d. */
  function Placed(s: State, id: Id, d: nat): State
    requires id in s.timers
  {
    s.(timers := s.timers[id := s.timers[id].(active := true, timeout := Tick(d))],
       list := InsertAt(s.list, Spot(s.list, s.timers, Tick(d)), id), due := s.due[id := d])
  }

  function Started(s: State, id: Id): State
    requires id in s.timers
  {
    Placed(s, id, s.now + s.timers[id].init)
  }

  function Do(s: State, op: Op): State {
    if op.id !in s.timers then s
    else
      var c := s.timers[op.id];
      match op
      case Start(id) => if c.active then s else Started(s, id)
      case Stop(id) =>
        if !c.active then s
        else s.(timers := s.timers[id := c.(active := false)], list := Removed(s.list, id))
      case SetTime(id, n) => s.(timers := s.timers[id := c.(init := n)])
      case SetPeriodic(id, on) => s.(timers := s.timers[id := c.(periodic := on)])
  }

  function DoAll(s: State, ops: seq<Op>): State
    decreases |ops|
  {
    if |ops| == 0 then s else DoAll(Do(s, ops[0]), ops[1..])
  }

  // ---------------------------------------------------------------- invariant

  /** The timer runs and its wrapped timeout stands for a due tick in the window that
      32 bits can tell apart. */
  ghost predicate Pending(s: State, id: Id, lo: int) {
    id in s.timers && id in s.due && s.timers[id].active && s.timers[id].timeout == Tick(s.due[id])
    && lo <= s.due[id] < s.now + HALF
  }

  ghost predicate Sorted(l: seq<Id>, due: map<Id, nat>) {
    forall i, j :: 0 <= i < j < |l| && l[i] in due && l[j] in due ==> due[l[i]] <= due[l[j]]
  }

  predicate OpOk(s: State, op: Op) {
    op.id in s.timers && (op.SetTime? ==> 1 <= op.n < HALF)
  }

  ghost predicate OpsOk(s: State, ops: seq<Op>) {
    forall k :: 0 <= k < |ops| ==> OpOk(s, ops[k])
  }

  /** What becomes of the timer whose own callback runs: it is off the list but still
      flagged, until the callback stops it; only then can it be started again. */
  datatype Own = Firing | Stopped | Restarted

  function OwnStep(own: Own, op: Op, id: Id): Own {
    match op
    case Start(x) => if x == id && own.Stopped? then Restarted else own
    case Stop(x) => if x == id then Stopped else own
    case _ => own
  }

  function OwnAfter(own: Own, ops: seq<Op>, id: Id): Own
    decreases |ops|
  {
    if |ops| == 0 then own else OwnAfter(OwnStep(own, ops[0], id), ops[1..], id)
  }

  /** The callback does not leave its own timer started again. */
  predicate Lawful(ops: seq<Op>, id: Id) {
    !OwnAfter(Firing, ops, id).Restarted?
  }

  function ScriptOf(s: State, id: Id): seq<Op> {
    if id in s.scripts then s.scripts[id] else []
  }

  ghost predicate ScriptsOk(s: State) {
    forall id :: id in s.timers ==> OpsOk(s, ScriptOf(s, id)) && Lawful(ScriptOf(s, id), id)
  }

  ghost predicate InitOk(s: State, id: Id) {
    id in s.timers && 1 <= s.timers[id].init < HALF
  }

  /** `cur` is the timer whose callback runs and that is flagged but not listed. Every
      listed timer is due at `lo` or later. */
  ghost predicate Inv(s: State, cur: set<Id>, lo: int) {
    Distinct(s.list) && Sorted(s.list, s.due)
    && (forall id :: id in s.timers ==> InitOk(s, id))
    && (forall id :: id in s.list <==> id in s.timers && s.timers[id].active && id !in cur)
    && (forall id :: id in s.list ==> Pending(s, id, lo))
  }

  // ----------------------------------------------------------- wrapping ticks

  lemma TickWindow(x: nat, y: nat)
    requires -0x8000_0000 < x - y < HALF
    ensures Tick(Tick(x) - Tick(y)) < HALF <==> x >= y
  {
    var a, b := x / WRAP, y / WRAP;
    var d := x - y;
    assert Tick(x) - Tick(y) == d - (a - b) * WRAP;
  }

  // ------------------------------------------------------------ list surgery

  lemma {:induction false} RemoveSorted(l: seq<Id>, id: Id, due: map<Id, nat>)
    requires Sorted(l, due)
    ensures Sorted(Removed(l, id), due) && forall x :: x in Removed(l, id) ==> x in l
  {
    if |l| > 0 {
      var r := l[1..];
      assert Sorted(r, due) by {
        forall i, j | 0 <= i < j < |r| && r[i] in due && r[j] in due ensures due[r[i]] <= due[r[j]] {
          assert r[i] == l[i + 1] && r[j] == l[j + 1];
        }
      }
      if l[0] != id {
        RemoveSorted(r, id, due);
        ConsSorted(l[0], Removed(r, id), due, l);
      }
    }
  }

  lemma ConsSorted(x: Id, r: seq<Id>, due: map<Id, nat>, l: seq<Id>)
    requires |l| > 0 && l[0] == x && Sorted(l, due) && Sorted(r, due) && forall y :: y in r ==> y in l[1..]
    ensures Sorted([x] + r, due)
  {
    var q := [x] + r;
    forall i, j | 0 <= i < j < |q| && q[i] in due && q[j] in due ensures due[q[i]] <= due[q[j]] {
      assert q[j] == r[j - 1];
      if i == 0 {
        assert q[j] in l[1..];
        var k :| 0 <= k < |l[1..]| && l[1..][k] == q[j];
        assert l[k + 1] == q[j];
      } else {
        assert q[i] == r[i - 1];
      }
    }
  }

  lemma InsertSorted(l: seq<Id>, k: nat, id: Id, due: map<Id, nat>, d: nat)
    requires Sorted(l, due) && id !in l && k <= |l| && forall x :: x in l ==> x in due
    requires forall i :: 0 <= i < k ==> due[l[i]] <= d
    requires k < |l| ==> d <= due[l[k]]
    ensures Sorted(InsertAt(l, k, id), due[id := d])
  {
    var q, due' := InsertAt(l, k, id), due[id := d];
    assert forall i :: 0 <= i < |q| ==> q[i] == if i < k then l[i] else if i == k then id else l[i - 1];
    forall i, j | 0 <= i < j < |q| ensures due'[q[i]] <= due'[q[j]] {
      if i == k {
        assert l[k] in l && l[j - 1] in l;
        assert due[l[k]] <= due[l[j - 1]];
      } else if j == k {
        assert l[i] in l;
      } else {
        var a, b := if i < k then i else i - 1, if j < k then j else j - 1;
        assert l[a] in l && l[b] in l;
      }
    }
  }

  // -------------------------------------------------------- each operation

  lemma SpotIsByDue(s: State, cur: set<Id>, lo: int, d: nat)
    requires Inv(s, cur, lo) && s.now - 1 <= lo && s.now <= d < s.now + HALF
    ensures var k := Spot(s.list, s.timers, Tick(d));
            (forall x :: x in s.list ==> x in s.due)
            && (forall i :: 0 <= i < k ==> s.due[s.list[i]] <= d) && (k < |s.list| ==> d <= s.due[s.list[k]])
  {
    hide Sorted, Distinct;
    forall i | 0 <= i < |s.list|
      ensures s.list[i] in s.due
              && (NotBefore(TimeoutOf(s.timers, s.list[i]), Tick(d)) <==> s.due[s.list[i]] >= d)
    {
      var x := s.list[i];
      assert x in s.list;
      assert Pending(s, x, lo);
      TickWindow(s.due[x], d);
    }
  }

  lemma PlacedKeeps(s: State, id: Id, d: nat, cur: set<Id>, lo: int)
    requires Inv(s, cur, lo) && s.now - 1 <= lo <= d && s.now <= d < s.now + HALF
    requires id in s.timers && !s.timers[id].active && id !in cur
    ensures Inv(Placed(s, id, d), cur, lo)
  {
    hide Sorted, Distinct, Spot, InsertAt, Pending;
    var k := Spot(s.list, s.timers, Tick(d));
    SpotIsByDue(s, cur, lo, d);
    assert k <= |s.list|;
    InsertAtMembers(s.list, k, id);
    InsertSorted(s.list, k, id, s.due, d);
    PlacedPending(s, id, d, cur, lo, InsertAt(s.list, k, id));
  }

  lemma PlacedPending(s: State, id: Id, d: nat, cur: set<Id>, lo: int, l: seq<Id>)
    requires Inv(s, cur, lo) && lo <= d < s.now + HALF && id in s.timers
    requires l == Placed(s, id, d).list && forall x :: x in l <==> x in s.list || x == id
    ensures var s' := Placed(s, id, d);
            (forall x :: x in l ==> Pending(s', x, lo)) && (forall x :: x in s'.timers ==> InitOk(s', x))
  {
    hide Sorted, Distinct, Spot, InsertAt;
    var s' := Placed(s, id, d);
    assert InitOk(s, id);
    forall x | x in l ensures Pending(s', x, lo) {
      if x != id { assert Pending(s, x, lo); }
    }
    forall x | x in s'.timers ensures InitOk(s', x) { assert InitOk(s, x); }
  }

  lemma StartedKeeps(s: State, id: Id, cur: set<Id>, lo: int)
    requires Inv(s, cur, lo) && s.now - 1 <= lo <= s.now + 1
    requires id in s.timers && !s.timers[id].active && id !in cur
    ensures Inv(Started(s, id), cur, lo)
  {
    hide Inv, Placed;
    StartInit(s, id, cur, lo);
    PlacedKeeps(s, id, s.now + s.timers[id].init, cur, lo);
  }

  lemma StartInit(s: State, id: Id, cur: set<Id>, lo: int)
    requires Inv(s, cur, lo) && id in s.timers
    ensures 1 <= s.timers[id].init < HALF
  {
    hide Sorted, Distinct, Pending;
    assert InitOk(s, id);
  }

  /** A clock changed in what the list does not depend on. */
  lemma ClockKeeps(s: State, id: Id, c: Clock, cur: set<Id>, lo: int)
    requires Inv(s, cur, lo) && id in s.timers
    requires c.active == s.timers[id].active && c.timeout == s.timers[id].timeout && 1 <= c.init < HALF
    ensures Inv(s.(timers := s.timers[id := c]), cur, lo)
  {
    hide Sorted, Distinct;
    var s' := s.(timers := s.timers[id := c]);
    forall x | x in s'.list ensures Pending(s', x, lo) { assert Pending(s, x, lo); }
    forall x | x in s'.timers ensures InitOk(s', x) { assert InitOk(s, x); }
  }

  /** A timer taken off the list and unflagged. */
  lemma OffKeeps(s: State, id: Id, cur: set<Id>, lo: int)
    requires Inv(s, cur, lo) && id in s.timers
    ensures Inv(s.(timers := s.timers[id := s.timers[id].(active := false)], list := Removed(s.list, id)),
                cur - {id}, lo)
  {
    hide Sorted, Distinct, Removed;
    RemovedMembers(s.list, id);
    RemoveSorted(s.list, id, s.due);
    var s' := s.(timers := s.timers[id := s.timers[id].(active := false)], list := Removed(s.list, id));
    forall x | x in s'.list ensures Pending(s', x, lo) { assert Pending(s, x, lo); }
    forall x | x in s'.timers ensures InitOk(s', x) { assert InitOk(s, x); }
  }

  /** A callback that stops its own timer takes it out of `cur`. */
  function CurAfter(cur: set<Id>, op: Op): set<Id> {
    if op.Stop? then cur - {op.id} else cur
  }

  ghost predicate CurOk(s: State, cur: set<Id>) {
    forall id :: id in cur ==> id in s.timers && s.timers[id].active && id !in s.list
  }

  lemma DoKeeps(s: State, op: Op, cur: set<Id>, lo: int)
    requires Inv(s, cur, lo) && CurOk(s, cur) && s.now - 1 <= lo <= s.now + 1 && OpOk(s, op)
    ensures Inv(Do(s, op), CurAfter(cur, op), lo) && CurOk(Do(s, op), CurAfter(cur, op))
  {
    hide Distinct, Sorted, Spot, InsertAt, Pending, InitOk;
    var c := s.timers[op.id];
    match op
    case Start(id) => if !c.active { StartedKeeps(s, id, cur, lo); }
    case Stop(id) =>
      if c.active {
        OffKeeps(s, id, cur, lo);
      } else {
        assert id !in cur;
        assert cur - {id} == cur;
      }
    case SetTime(id, n) => ClockKeeps(s, id, c.(init := n), cur, lo);
    case SetPeriodic(id, on) => Kept(s, id); ClockKeeps(s, id, c.(periodic := on), cur, lo);
  }

  lemma Kept(s: State, id: Id)
    requires id in s.timers && forall x :: x in s.timers ==> InitOk(s, x)
    ensures 1 <= s.timers[id].init < HALF
  {
    assert InitOk(s, id);
  }

  /** The timers due by now: the measure of rt_timer_check. */
  ghost function DueSet(s: State): set<Id> {
    set id | id in s.list && id in s.due && s.due[id] <= s.now
  }

  lemma DoFrame(s: State, op: Op)
    requires OpOk(s, op) && Distinct(s.list) && InitOk(s, op.id)
    ensures var s' := Do(s, op);
            s'.now == s.now && s'.scripts == s.scripts && s'.timers.Keys == s.timers.Keys && DueSet(s') <= DueSet(s)
  {
    match op
    case Start(id) =>
      if !s.timers[id].active {
        var s' := Started(s, id);
        forall x | x in DueSet(s') ensures x in DueSet(s) {
          assert x != id;
          assert x in s.list;
        }
      }
    case Stop(id) => RemovedMembers(s.list, id);
    case _ =>
  }

  ghost function CurOf(own: Own, id: Id): set<Id> {
    if own.Firing? then {id} else {}
  }

  /** The state in the midst of the callback of timer id. */
  ghost predicate Calling(s: State, id: Id, own: Own) {
    Inv(s, CurOf(own, id), s.now) && CurOk(s, CurOf(own, id)) && id in s.timers
    && (own.Stopped? <==> !s.timers[id].active)
  }

  lemma CallStep(s: State, op: Op, id: Id, own: Own)
    requires Calling(s, id, own) && OpOk(s, op)
    ensures var s' := Do(s, op);
            Calling(s', id, OwnStep(own, op, id))
            && s'.now == s.now && s'.scripts == s.scripts && s'.timers.Keys == s.timers.Keys && DueSet(s') <= DueSet(s)
  {
    hide Distinct, Sorted, Spot, InsertAt, Pending, DueSet;
    assert InitOk(s, op.id);
    hide InitOk;
    DoKeeps(s, op, CurOf(own, id), s.now);
    DoFrame(s, op);
    assert op.id == id || CurAfter(CurOf(own, id), op) == CurOf(own, id);
  }

  lemma {:induction false} DoAllKeeps(s: State, ops: seq<Op>, id: Id, own: Own)
    requires Calling(s, id, own) && OpsOk(s, ops)
    ensures var s' := DoAll(s, ops);
            Calling(s', id, OwnAfter(own, ops, id))
            && s'.now == s.now && s'.scripts == s.scripts && s'.timers.Keys == s.timers.Keys && DueSet(s') <= DueSet(s)
    decreases |ops|
  {
    hide Calling, DueSet, Do;
    if |ops| > 0 {
      assert OpOk(s, ops[0]);
      CallStep(s, ops[0], id, own);
      var s1 := Do(s, ops[0]);
      forall k | 0 <= k < |ops[1..]| ensures OpOk(s1, ops[1..][k]) { assert OpOk(s, ops[k + 1]); }
      DoAllKeeps(s1, ops[1..], id, OwnStep(own, ops[0], id));
    }
  }

  // ------------------------------------------------------- rt_timer_check

  datatype Fire = Fire(id: Id, at: nat)

  /** What rt_timer_check does after the callback: a periodic timer that is still
      flagged starts again, any other is unflagged. */
  function Finish(s: State, id: Id): State
    requires id in s.timers
  {
    var c := s.timers[id];
    var s1 := s.(timers := s.timers[id := c.(active := false)]);
    if c.periodic && c.active then Started(s1, id) else s1
  }

  lemma {:induction false} RemoveAbsent(l: seq<Id>, id: Id)
    requires id !in l
    ensures Removed(l, id) == l
  {
    if |l| > 0 {
      assert forall x :: x in l[1..] ==> x in l;
      RemoveAbsent(l[1..], id);
    }
  }

  lemma FinishKeeps(s: State, id: Id, own: Own)
    requires Calling(s, id, own) && !own.Restarted?
    ensures var s' := Finish(s, id);
            Inv(s', {}, s.now) && s'.now == s.now && s'.scripts == s.scripts && s'.timers.Keys == s.timers.Keys
            && DueSet(s') <= DueSet(s)
  {
    hide Distinct, Sorted, Spot, InsertAt, Pending, Removed;
    var s1 := s.(timers := s.timers[id := s.timers[id].(active := false)]);
    assert id !in s.list;
    RemoveAbsent(s.list, id);
    OffKeeps(s, id, CurOf(own, id), s.now);
    assert CurOf(own, id) - {id} == {};
    assert DueSet(s1) == DueSet(s);
    if s.timers[id].periodic && s.timers[id].active {
      StartedKeeps(s1, id, {}, s.now);
      assert InitOk(s1, id);
      DoFrame(s1, Start(id));
    }
  }

  /** Between two checks every listed timer is due later than now. */
  ghost predicate Quiet(s: State) {
    Inv(s, {}, s.now + 1) && ScriptsOk(s)
  }

  ghost predicate Ready(s: State) {
    Inv(s, {}, s.now) && ScriptsOk(s)
  }

  predicate HeadDue(s: State) {
    |s.list| > 0 && NotBefore(Tick(s.now), TimeoutOf(s.timers, s.list[0]))
  }

  function Unlisted(s: State): State
    requires |s.list| > 0
  {
    s.(list := s.list[1..])
  }

  /** The 32-bit test on the head of the list says whether it is due. */
  lemma HeadDueIff(s: State)
    requires Inv(s, {}, s.now) && |s.list| > 0
    ensures s.list[0] in s.due && s.list[0] in s.timers && (HeadDue(s) <==> s.due[s.list[0]] == s.now)
  {
    hide Distinct, Sorted;
    var x := s.list[0];
    assert x in s.list;
    assert Pending(s, x, s.now);
    TickWindow(s.now, s.due[x]);
  }

  lemma UnlistedCalling(s: State)
    requires Inv(s, {}, s.now) && |s.list| > 0
    ensures s.list[0] in s.timers && Calling(Unlisted(s), s.list[0], Firing)
    ensures DueSet(Unlisted(s)) == DueSet(s) - {s.list[0]}
  {
    var id, s1 := s.list[0], Unlisted(s);
    assert id in s.list;
    RemovedMembers(s.list, id);
    RemoveSorted(s.list, id, s.due);
    assert Removed(s.list, id) == s1.list;
    hide Distinct, Sorted, Removed;
    forall x | x in s1.list ensures Pending(s1, x, s.now) { assert Pending(s, x, s.now); }
    forall x | x in s1.timers ensures InitOk(s1, x) { assert InitOk(s, x); }
  }

  lemma ScriptsFrame(s: State, s': State)
    requires ScriptsOk(s) && s'.scripts == s.scripts && s'.timers.Keys == s.timers.Keys
    ensures ScriptsOk(s')
  {
    forall id | id in s'.timers ensures OpsOk(s', ScriptOf(s', id)) && Lawful(ScriptOf(s', id), id) {
      assert id in s.timers.Keys;
      forall k | 0 <= k < |ScriptOf(s, id)| ensures OpOk(s', ScriptOf(s, id)[k]) {
        assert OpOk(s, ScriptOf(s, id)[k]);
        assert ScriptOf(s, id)[k].id in s.timers.Keys;
      }
    }
  }

  /** The state after the head of the list has fired. */
  function Fired(s: State): State
    requires |s.list| > 0
  {
    var s1 := DoAll(Unlisted(s), ScriptOf(s, s.list[0]));
    if s.list[0] in s1.timers then Finish(s1, s.list[0]) else s1
  }

  lemma FiredKeeps(s: State)
    requires Ready(s) && HeadDue(s)
    ensures Ready(Fired(s)) && Fired(s).now == s.now && DueSet(Fired(s)) < DueSet(s)
    ensures s.list[0] in DueSet(s) && s.list[0] !in DueSet(Fired(s))
  {
    hide Inv, Calling, DoAll, Finish, DueSet;
    var id := s.list[0];
    var ops := ScriptOf(s, id);
    HeadDueIff(s);
    UnlistedCalling(s);
    var u := Unlisted(s);
    assert OpsOk(u, ops) by { ScriptsFrame(s, u); }
    DoAllKeeps(u, ops, id, Firing);
    var s1 := DoAll(u, ops);
    assert id in s1.timers.Keys;
    FinishKeeps(s1, id, OwnAfter(Firing, ops, id));
    ScriptsFrame(s, Fired(s));
    InDueSet(s);
  }

  lemma InDueSet(s: State)
    requires |s.list| > 0 && s.list[0] in s.due && s.due[s.list[0]] == s.now
    ensures s.list[0] in DueSet(s)
  {
  }

  /** rt_timer_check: it ends because callbacks only add timers due later. */
  ghost function Check(s: State): (State, seq<Fire>)
    requires Ready(s)
    decreases DueSet(s)
  {
    if HeadDue(s) then
      FiredKeeps(s);
      var (s', log) := Check(Fired(s));
      (s', [Fire(s.list[0], s.now)] + log)
    else (s, [])
  }

  lemma {:induction false} CheckKeeps(s: State)
    requires Ready(s)
    ensures Quiet(Check(s).0) && Check(s).0.now == s.now
    decreases DueSet(s)
  {
    hide Inv, ScriptsOk, Fired, DueSet;
    if HeadDue(s) {
      FiredKeeps(s);
      CheckKeeps(Fired(s));
    } else {
      NoneDue(s);
    }
  }

  lemma NoneDue(s: State)
    requires Inv(s, {}, s.now) && !HeadDue(s)
    ensures Inv(s, {}, s.now + 1)
  {
    if |s.list| > 0 {
      HeadDueIff(s);
      assert s.list[0] in s.list;
      assert Pending(s, s.list[0], s.now);
      forall x | x in s.list ensures Pending(s, x, s.now + 1) {
        assert Pending(s, x, s.now);
        var k :| 0 <= k < |s.list| && s.list[k] == x;
        assert k > 0 ==> s.due[s.list[0]] <= s.due[s.list[k]];
      }
    }
  }

  /** A callback that stops and restarts its own timer always breaks the list: the
      timer is inserted while it is listed, or ends up listed and not flagged. The list is
      a sequence here, so such an insertion shows as a second occurrence; in a ring of
      links it leaves no list at all, as ThreadLists.InsertBeforeRuins shows. */
  lemma RestartBreaks(s: State, lo: int)
    requires Inv(s, {}, s.now) && |s.list| > 0 && OpsOk(s, ScriptOf(s, s.list[0]))
    requires !Lawful(ScriptOf(s, s.list[0]), s.list[0])
    ensures !Inv(Fired(s), {}, lo)
  {
    hide DoAll, Pending, InitOk, Sorted, Spot, DueSet;
    var id := s.list[0];
    UnlistedCalling(s);
    var u := Unlisted(s);
    forall k | 0 <= k < |ScriptOf(s, id)| ensures OpOk(u, ScriptOf(s, id)[k]) { assert OpOk(s, ScriptOf(s, id)[k]); }
    DoAllKeeps(u, ScriptOf(s, id), id, Firing);
    var s1 := DoAll(u, ScriptOf(s, id));
    assert id in s1.timers.Keys;
    assert id in s1.list;
    var c := s1.timers[id];
    if c.periodic {
      var t := s1.(timers := s1.timers[id := c.(active := false)]);
      ListedTwice(t, id);
    }
  }

  /** Such a callback: stop, then start. Starting alone does nothing. */
  lemma RestartExample(id: Id)
    ensures !Lawful([Stop(id), Start(id)], id) && Lawful([Start(id)], id) && Lawful([Stop(id)], id)
  {
    var ops := [Stop(id), Start(id)];
    assert ops[1..] == [Start(id)] && ops[1..][1..] == [];
    assert [Start(id)][1..] == [] && [Stop(id)][1..] == [];
    assert OwnAfter(Stopped, [Start(id)], id) == Restarted;
  }

  lemma ListedTwice(s: State, id: Id)
    requires id in s.timers && id in s.list
    ensures !Distinct(Started(s, id).list)
  {
    var d := s.now + s.timers[id].init;
    var k := Spot(s.list, s.timers, Tick(d));
    var q := InsertAt(s.list, k, id);
    var i :| 0 <= i < |s.list| && s.list[i] == id;
    var j := if i < k then i else i + 1;
    assert q[k] == id && q[j] == id;
  }

  // -------------------------------------------------------- one timer's life

  predicate Runs(s: State, id: Id, d: nat) {
    id in s.timers && id in s.list && id in s.due && s.due[id] == d
  }

  predicate Rests(s: State, id: Id) {
    id in s.timers && !s.timers[id].active && id !in s.list
  }

  /** No operation and no callback names timer id. */
  ghost predicate Alone(ops: seq<Op>, id: Id) {
    forall k :: 0 <= k < |ops| ==> ops[k].id != id
  }

  ghost predicate Untouched(s: State, id: Id) {
    forall x :: x in s.scripts ==> Alone(s.scripts[x], id)
  }

  /** Timer id is the same in both states. */
  ghost predicate SameTimer(s: State, s': State, id: Id) {
    (id in s.timers <==> id in s'.timers) && (id in s.timers ==> s'.timers[id] == s.timers[id])
    && (id in s.due <==> id in s'.due) && (id in s.due ==> s'.due[id] == s.due[id])
    && (id in s.list <==> id in s'.list) && s'.scripts == s.scripts && s'.now == s.now
  }

  lemma {:induction false} RemoveOther(l: seq<Id>, x: Id, id: Id)
    requires x != id
    ensures id in Removed(l, x) <==> id in l
  {
    if |l| > 0 {
      assert id in l <==> l[0] == id || id in l[1..];
      RemoveOther(l[1..], x, id);
    }
  }

  lemma InsertOther(l: seq<Id>, k: nat, x: Id, id: Id)
    requires x != id && k <= |l|
    ensures id in InsertAt(l, k, x) <==> id in l
  {
    assert l == l[..k] + l[k..];
  }

  lemma StartedOther(s: State, x: Id, id: Id)
    requires x != id && x in s.timers
    ensures SameTimer(s, Started(s, x), id)
  {
    var d := s.now + s.timers[x].init;
    InsertOther(s.list, Spot(s.list, s.timers, Tick(d)), x, id);
  }

  lemma DoOther(s: State, op: Op, id: Id)
    requires op.id != id
    ensures SameTimer(s, Do(s, op), id)
  {
    hide Started, Removed;
    if op.id in s.timers {
      RemoveOther(s.list, op.id, id);
      StartedOther(s, op.id, id);
    }
  }

  lemma {:induction false} DoAllOther(s: State, ops: seq<Op>, id: Id)
    requires Alone(ops, id)
    ensures SameTimer(s, DoAll(s, ops), id)
    decreases |ops|
  {
    if |ops| > 0 {
      hide Do;
      DoOther(s, ops[0], id);
      assert Alone(ops[1..], id) by {
        forall k | 0 <= k < |ops[1..]| ensures ops[1..][k].id != id { assert ops[k + 1].id != id; }
      }
      DoAllOther(Do(s, ops[0]), ops[1..], id);
    }
  }

  /** Another timer fires. */
  lemma FiredOther(s: State, id: Id)
    requires Inv(s, {}, s.now) && |s.list| > 0 && s.list[0] != id && Untouched(s, id)
    ensures SameTimer(s, Fired(s), id)
  {
    hide DoAll, Started, Inv;
    var h := s.list[0];
    var u := Unlisted(s);
    assert s.list == [h] + u.list;
    assert Alone(ScriptOf(s, h), id);
    DoAllOther(u, ScriptOf(s, h), id);
    var s1 := DoAll(u, ScriptOf(s, h));
    if h in s1.timers {
      StartedOther(s1.(timers := s1.timers[h := s1.timers[h].(active := false)]), h, id);
    }
  }

  /** The timer itself fires: it starts again if periodic, and rests if not. */
  lemma FiredSelf(s: State)
    requires Inv(s, {}, s.now) && |s.list| > 0 && Untouched(s, s.list[0])
    ensures var id, s' := s.list[0], Fired(s);
            id in s.timers && s'.scripts == s.scripts && s'.now == s.now
            && (if s.timers[id].periodic
                then Runs(s', id, s.now + s.timers[id].init)
                     && s'.timers[id].init == s.timers[id].init && s'.timers[id].periodic
                else Rests(s', id))
  {
    hide DoAll, Sorted, Spot;
    var id := s.list[0];
    assert id in s.list;
    assert Pending(s, id, s.now);
    var u := Unlisted(s);
    UnlistedCalling(s);
    assert Alone(ScriptOf(s, id), id);
    DoAllOther(u, ScriptOf(s, id), id);
    var s1 := DoAll(u, ScriptOf(s, id));
    if s1.timers[id].periodic {
      var t := s1.(timers := s1.timers[id := s1.timers[id].(active := false)]);
      InsertHas(t.list, Spot(t.list, t.timers, Tick(t.now + t.timers[id].init)), id);
    }
  }

  lemma InsertHas(l: seq<Id>, k: nat, id: Id)
    requires k <= |l|
    ensures id in InsertAt(l, k, id)
  {
    assert InsertAt(l, k, id)[k] == id;
  }

  function FiresAt(log: seq<Fire>, id: Id): seq<nat> {
    if |log| == 0 then [] else If(log[0].id == id, log[0].at) + FiresAt(log[1..], id)
  }

  function If(c: bool, at: nat): seq<nat> {
    if c then [at] else []
  }

  lemma FiresCons(f: Fire, log: seq<Fire>, id: Id)
    ensures FiresAt([f] + log, id) == If(f.id == id, f.at) + FiresAt(log, id)
  {
    assert ([f] + log)[1..] == log;
  }

  lemma {:induction false} FiresSplit(a: seq<Fire>, b: seq<Fire>, id: Id)
    ensures FiresAt(a + b, id) == FiresAt(a, id) + FiresAt(b, id)
  {
    if |a| == 0 {
      assert a + b == b;
    } else {
      FiresSplitOn(a, b, id);
    }
  }

  lemma {:induction false} FiresSplitOn(a: seq<Fire>, b: seq<Fire>, id: Id)
    requires |a| > 0
    ensures FiresAt(a + b, id) == FiresAt(a, id) + FiresAt(b, id)
    decreases a, b, id, 0
  {
    hide FiresAt, If;
    FiresSplit(a[1..], b, id);
    FiresCons(a[0], a[1..] + b, id);
    FiresCons(a[0], a[1..], id);
    assert a + b == [a[0]] + (a[1..] + b) && a == [a[0]] + a[1..];
  }

  lemma {:induction false} CheckRests(s: State, id: Id)
    requires Ready(s) && Rests(s, id) && Untouched(s, id)
    ensures var (s', log) := Check(s); Rests(s', id) && FiresAt(log, id) == [] && s'.scripts == s.scripts
    decreases DueSet(s)
  {
    hide Fired, Inv, ScriptsOk;
    if HeadDue(s) {
      assert s.list[0] in s.list;
      FiredKeeps(s);
      FiredOther(s, id);
      CheckRests(Fired(s), id);
      FiresSplit([Fire(s.list[0], s.now)], Check(Fired(s)).1, id);
    }
  }

  /** A timer due later than now survives the check unchanged. */
  lemma {:induction false} CheckWaits(s: State, id: Id, d: nat)
    requires Ready(s) && Runs(s, id, d) && d > s.now && Untouched(s, id)
    ensures var (s', log) := Check(s);
            Runs(s', id, d) && s'.timers[id] == s.timers[id] && FiresAt(log, id) == [] && s'.scripts == s.scripts
    decreases DueSet(s)
  {
    hide Fired, Inv, ScriptsOk;
    if HeadDue(s) {
      HeadDueIff(s);
      FiredKeeps(s);
      FiredOther(s, id);
      CheckWaits(Fired(s), id, d);
      FiresSplit([Fire(s.list[0], s.now)], Check(Fired(s)).1, id);
    }
  }

  /** A timer due now fires in the check, once. */
  lemma {:induction false} CheckFires(s: State, id: Id)
    requires Ready(s) && Runs(s, id, s.now) && Untouched(s, id)
    ensures var (s', log) := Check(s);
            FiresAt(log, id) == [s.now] && s'.scripts == s.scripts
            && (if s.timers[id].periodic
                then Runs(s', id, s.now + s.timers[id].init)
                     && s'.timers[id].init == s.timers[id].init && s'.timers[id].periodic
                else Rests(s', id))
    decreases DueSet(s)
  {
    hide Fired, Inv, ScriptsOk;
    DueIsHead(s, id);
    FiredKeeps(s);
    var s1 := Fired(s);
    FiresSplit([Fire(s.list[0], s.now)], Check(s1).1, id);
    if s.list[0] == id {
      FiredSelf(s);
      InitOf(s, id);
      if s.timers[id].periodic {
        CheckWaits(s1, id, s.now + s.timers[id].init);
      } else {
        CheckRests(s1, id);
      }
    } else {
      FiredOther(s, id);
      CheckFires(s1, id);
    }
  }

  lemma InitOf(s: State, id: Id)
    requires Inv(s, {}, s.now) && id in s.timers
    ensures 1 <= s.timers[id].init
  {
    assert InitOk(s, id);
  }

  lemma DueIsHead(s: State, id: Id)
    requires Inv(s, {}, s.now) && Runs(s, id, s.now)
    ensures HeadDue(s)
  {
    if !HeadDue(s) {
      NoneDue(s);
      DueFrom(s, id, s.now + 1);
    }
  }

  lemma DueFrom(s: State, id: Id, lo: int)
    requires Inv(s, {}, lo) && id in s.list
    ensures id in s.due && s.due[id] >= lo
  {
    assert Pending(s, id, lo);
  }

  // ------------------------------------------------------------- whole runs

  datatype Event = Call(op: Op) | Increase

  predicate Allowed(s: State, e: Event) {
    e.Call? ==> OpOk(s, e.op)
  }

  /** One call by a thread, or rt_tick_increase. */
  ghost function Step(s: State, e: Event): (State, seq<Fire>)
    requires Quiet(s) && Allowed(s, e)
  {
    match e
    case Call(op) => (Do(s, op), [])
    case Increase => TickReady(s); Check(s.(now := s.now + 1))
  }

  lemma TickReady(s: State)
    requires Quiet(s)
    ensures Ready(s.(now := s.now + 1))
  {
    hide Distinct, Sorted;
    var s' := s.(now := s.now + 1);
    forall x | x in s'.list ensures Pending(s', x, s'.now) { assert Pending(s, x, s.now + 1); }
    forall x | x in s'.timers ensures InitOk(s', x) { assert InitOk(s, x); }
    ScriptsFrame(s, s');
  }

  lemma StepKeeps(s: State, e: Event)
    requires Quiet(s) && Allowed(s, e)
    ensures Quiet(Step(s, e).0)
    ensures Step(s, e).0.now == s.now + (if e.Increase? then 1 else 0)
  {
    match e
    case Call(op) =>
      CallKeeps(s, op);
    case Increase =>
      TickReady(s);
      CheckKeeps(s.(now := s.now + 1));
  }

  lemma CallKeeps(s: State, op: Op)
    requires Quiet(s) && OpOk(s, op)
    ensures Quiet(Do(s, op)) && Do(s, op).now == s.now && Do(s, op).scripts == s.scripts
  {
    hide Distinct, Sorted, Do, Pending;
    assert CurOk(s, {});
    DoKeeps(s, op, {}, s.now + 1);
    assert CurAfter({}, op) == {};
    assert InitOk(s, op.id);
    DoFrame(s, op);
    ScriptsFrame(s, Do(s, op));
  }

  ghost predicate Possible(s: State, es: seq<Event>)
    decreases |es|
  {
    Quiet(s) && (|es| == 0 || (Allowed(s, es[0]) && Possible(Step(s, es[0]).0, es[1..])))
  }

  /** Where a run ends and which timers fired in it. */
  ghost function Run(s: State, es: seq<Event>): (State, seq<Fire>)
    requires Possible(s, es)
    decreases |es|
  {
    if |es| == 0 then (s, [])
    else
      var (s1, log1) := Step(s, es[0]);
      var (s2, log2) := Run(s1, es[1..]);
      (s2, log1 + log2)
  }

  ghost predicate LeftAlone(es: seq<Event>, id: Id) {
    forall k :: 0 <= k < |es| ==> es[k].Call? ==> es[k].op.id != id
  }

  /** The ticks from d on at which a timer of this period (0 for a one-shot timer)
      fires up to tick `now`. */
  function Expected(d: nat, period: nat, now: nat): seq<nat>
    decreases now + 1 - d
  {
    if d > now then [] else if period == 0 then [d] else [d] + Expected(d + period, period, now)
  }

  function Period(s: State, id: Id): nat
    requires id in s.timers
  {
    if s.timers[id].periodic then s.timers[id].init else 0
  }

  lemma {:induction false} TimePasses(s: State, es: seq<Event>)
    requires Possible(s, es)
    ensures Run(s, es).0.now >= s.now
    decreases |es|
  {
    hide Step, Quiet;
    if |es| > 0 {
      StepKeeps(s, es[0]);
      TimePasses(Step(s, es[0]).0, es[1..]);
    }
  }

  lemma RestOf(es: seq<Event>, id: Id)
    requires LeftAlone(es, id) && |es| > 0
    ensures LeftAlone(es[1..], id) && (es[0].Call? ==> es[0].op.id != id)
  {
    forall k | 0 <= k < |es[1..]| && es[1..][k].Call? ensures es[1..][k].op.id != id { assert es[k + 1] == es[1..][k]; }
  }

  lemma StepRests(s: State, e: Event, id: Id)
    requires Quiet(s) && Allowed(s, e) && Rests(s, id) && Untouched(s, id) && (e.Call? ==> e.op.id != id)
    ensures var (s', log) := Step(s, e); Rests(s', id) && FiresAt(log, id) == [] && Untouched(s', id)
  {
    hide Do, Inv, ScriptsOk;
    match e
    case Call(op) => DoOther(s, op, id);
    case Increase =>
      TickReady(s);
      CheckRests(s.(now := s.now + 1), id);
  }

  /** Timer id, due at d, when the time is now s'.now. */
  ghost predicate Follows(s: State, s': State, log: seq<Fire>, id: Id, d: nat)
    requires id in s.timers
  {
    Untouched(s', id) && id in s'.timers
    && if s'.now == d then
         FiresAt(log, id) == [d]
         && (if s.timers[id].periodic then Runs(s', id, d + s.timers[id].init) && Period(s', id) == Period(s, id)
             else Rests(s', id))
       else Runs(s', id, d) && FiresAt(log, id) == [] && Period(s', id) == Period(s, id)
  }

  lemma TickRuns(s: State, id: Id, d: nat)
    requires Quiet(s) && Runs(s, id, d) && Untouched(s, id)
    ensures Follows(s, Step(s, Increase).0, Step(s, Increase).1, id, d)
  {
    hide Inv, ScriptsOk, Check, FiresAt;
    StillToCome(s, id, d);
    var t := s.(now := s.now + 1);
    TickReady(s);
    CheckKeeps(t);
    if d == t.now { CheckFires(t, id); } else { CheckWaits(t, id, d); }
  }

  lemma StepRuns(s: State, e: Event, id: Id, d: nat)
    requires Quiet(s) && Allowed(s, e) && Runs(s, id, d) && Untouched(s, id) && (e.Call? ==> e.op.id != id)
    ensures d > s.now && Follows(s, Step(s, e).0, Step(s, e).1, id, d)
  {
    hide Do, Quiet, Check;
    StillToCome(s, id, d);
    match e
    case Call(op) => DoOther(s, op, id);
    case Increase => TickRuns(s, id, d);
  }

  lemma StillToCome(s: State, id: Id, d: nat)
    requires Quiet(s) && Runs(s, id, d)
    ensures d > s.now
  {
    assert Pending(s, id, s.now + 1);
  }

  /** A timer at rest never fires until it is started. */
  lemma {:induction false} RestsSilent(s: State, es: seq<Event>, id: Id)
    requires Possible(s, es) && Rests(s, id) && Untouched(s, id) && LeftAlone(es, id)
    ensures FiresAt(Run(s, es).1, id) == []
    decreases |es|
  {
    hide Step, Quiet;
    if |es| > 0 {
      StepRests(s, es[0], id);
      RestOf(es, id);
      var (s1, log1) := Step(s, es[0]);
      RestsSilent(s1, es[1..], id);
      FiresSplit(log1, Run(s1, es[1..]).1, id);
    }
  }

  /** A run that begins with an event. */
  lemma RunCons(s: State, es: seq<Event>)
    requires Possible(s, es) && |es| > 0
    ensures Quiet(s) && Allowed(s, es[0])
    ensures var (s1, log1) := Step(s, es[0]);
            Possible(s1, es[1..]) && Run(s, es) == (Run(s1, es[1..]).0, log1 + Run(s1, es[1..]).1)
  {
    hide Step, Quiet;
  }

  /** A running timer fires exactly when it is due and then every period: never
      early, never late, never twice, however often the 32-bit tick wraps. */
  lemma {:induction false} RunsExact(s: State, es: seq<Event>, id: Id, d: nat)
    requires Possible(s, es) && Runs(s, id, d) && Untouched(s, id) && LeftAlone(es, id)
    ensures FiresAt(Run(s, es).1, id) == Expected(d, Period(s, id), Run(s, es).0.now)
    decreases |es|
  {
    if |es| == 0 {
      StillToCome(s, id, d);
    } else {
      RunsExactOn(s, es, id, d);
    }
  }

  lemma {:induction false} RunsExactOn(s: State, es: seq<Event>, id: Id, d: nat)
    requires Possible(s, es) && Runs(s, id, d) && Untouched(s, id) && LeftAlone(es, id) && |es| > 0
    ensures FiresAt(Run(s, es).1, id) == Expected(d, Period(s, id), Run(s, es).0.now)
    decreases |es|, 0
  {
    hide Step, Quiet, Runs, Rests, Possible, Run, Untouched, LeftAlone, FiresAt, Expected;
    RunCons(s, es);
    RunningKnown(s, id, d);
    RestOf(es, id);
    StepRuns(s, es[0], id, d);
    var (s1, log1) := Step(s, es[0]);
    var (s2, log2) := Run(s1, es[1..]);
    FiresSplit(log1, log2, id);
    TimePasses(s1, es[1..]);
    InitBound(s, id);
    ExpectedFirst(d, Period(s, id), s2.now);
    if s1.now != d {
      RunsExact(s1, es[1..], id, d);
    } else if s.timers[id].periodic {
      RunsExact(s1, es[1..], id, d + s.timers[id].init);
    } else {
      RestsSilent(s1, es[1..], id);
    }
  }

  lemma RunningKnown(s: State, id: Id, d: nat)
    requires Runs(s, id, d)
    ensures id in s.timers
  {
  }

  lemma ExpectedFirst(d: nat, period: nat, now: nat)
    ensures d <= now ==> Expected(d, period, now) == [d] + if period == 0 then [] else Expected(d + period, period, now)
  {
  }

  /** rt_timer_start: from there on the timer fires at t + init_tick, and then, if
      periodic, every init_tick ticks. */
  lemma StartedExact(s: State, es: seq<Event>, id: Id)
    requires Quiet(s) && Rests(s, id) && Untouched(s, id) && LeftAlone(es, id)
    requires Possible(Do(s, Start(id)), es)
    ensures var (s', log) := Run(Do(s, Start(id)), es);
            FiresAt(log, id) == Expected(s.now + s.timers[id].init, Period(s, id), s'.now)
  {
    hide Spot, InsertAt, Quiet, Possible, Run, FiresAt, Expected;
    StartedRuns(s, id);
    RunsExact(Started(s, id), es, id, s.now + s.timers[id].init);
  }

  lemma StartedRuns(s: State, id: Id)
    requires id in s.timers
    ensures Runs(Started(s, id), id, s.now + s.timers[id].init)
  {
    InsertHas(s.list, Spot(s.list, s.timers, Tick(s.now + s.timers[id].init)), id);
  }

  /** rt_timer_control on a timer. */
  function Controlled(s: State, id: Id, n: nat, on: bool): State {
    Do(Do(s, SetTime(id, n)), SetPeriodic(id, on))
  }

  lemma ControlledKeeps(s: State, id: Id, n: nat, on: bool)
    requires Quiet(s) && id in s.timers && 1 <= n < HALF
    ensures Quiet(Controlled(s, id, n, on))
  {
    hide Do, Quiet;
    CallKeeps(s, SetTime(id, n));
    assert id in Do(s, SetTime(id, n)).timers by { ControlledIs(s, id, n); }
    CallKeeps(Do(s, SetTime(id, n)), SetPeriodic(id, on));
  }

  lemma ControlledIs(s: State, id: Id, n: nat)
    requires id in s.timers
    ensures id in Do(s, SetTime(id, n)).timers
  {
  }

  /** A timer at rest that is set to n ticks, to one shot or periodic, and started fires
      n ticks later and, if periodic, every n ticks. */
  lemma SetExact(s: State, es: seq<Event>, id: Id, n: nat, on: bool)
    requires Quiet(s) && Rests(s, id) && Untouched(s, id) && LeftAlone(es, id) && 1 <= n < HALF
    requires Possible(Do(Controlled(s, id, n, on), Start(id)), es)
    ensures var (s', log) := Run(Do(Controlled(s, id, n, on), Start(id)), es);
            FiresAt(log, id) == Expected(s.now + n, if on then n else 0, s'.now)
  {
    hide Possible, Run, FiresAt, Expected, Quiet;
    ControlledKeeps(s, id, n, on);
    StartedExact(Controlled(s, id, n, on), es, id);
  }

  /** Set while it runs, it fires at the tick it was due at and by its new setting from
      there on. */
  lemma SetRunning(s: State, es: seq<Event>, id: Id, d: nat, n: nat, on: bool)
    requires Quiet(s) && Runs(s, id, d) && Untouched(s, id) && LeftAlone(es, id) && 1 <= n < HALF
    requires Possible(Controlled(s, id, n, on), es)
    ensures var (s', log) := Run(Controlled(s, id, n, on), es);
            FiresAt(log, id) == Expected(d, if on then n else 0, s'.now)
  {
    hide Possible, Run, FiresAt, Expected, Quiet;
    RunsExact(Controlled(s, id, n, on), es, id, d);
  }

  /** rt_timer_start reads the tick before it disables interrupts. If ticks pass in
      between, the timer still fires at the tick it read plus init_tick, provided that
      this tick has not passed when the timer is put into the list. */
  lemma LateStartExact(s: State, es: seq<Event>, id: Id, read: nat)
    requires Quiet(s) && Rests(s, id) && Untouched(s, id) && LeftAlone(es, id)
    requires read <= s.now < read + s.timers[id].init
    requires Possible(Placed(s, id, read + s.timers[id].init), es)
    ensures Quiet(Placed(s, id, read + s.timers[id].init))
    ensures var (s', log) := Run(Placed(s, id, read + s.timers[id].init), es);
            FiresAt(log, id) == Expected(read + s.timers[id].init, Period(s, id), s'.now)
  {
    hide Spot, InsertAt, Possible, Run, FiresAt, Expected, Inv;
    var d := read + s.timers[id].init;
    InitBound(s, id);
    PlacedKeeps(s, id, d, {}, s.now + 1);
    ScriptsFrame(s, Placed(s, id, d));
    InsertHas(s.list, Spot(s.list, s.timers, Tick(d)), id);
    RunsExact(Placed(s, id, d), es, id, d);
  }

  /** The next tick after timer id was put into the list with a tick that has passed. */
  function LateTick(s: State, id: Id, d: nat): State
    requires id in s.timers
  {
    Placed(s, id, d).(now := s.now + 1)
  }

  /** If that tick has passed already, the timer stands first in the list exactly if the
      first other timer is due less than half the tick range after it. */
  lemma LateStartFirstIff(s: State, id: Id, d: nat)
    requires Quiet(s) && id in s.timers && id !in s.list && d <= s.now < d + HALF
    ensures var l := LateTick(s, id, d).list;
            |l| > 0 && (l[0] == id <==> s.list == [] || (s.list[0] in s.due && s.due[s.list[0]] < d + HALF))
  {
    var k := Spot(s.list, s.timers, Tick(d));
    assert |InsertAt(s.list, k, id)| == |s.list| + 1;
    if s.list != [] {
      var x := s.list[0];
      assert x in s.list;
      assert Pending(s, x, s.now + 1);
      LateWindow(s.due[x], d);
      assert InsertAt(s.list, k, id)[0] == if k == 0 then id else x;
    }
  }

  lemma LateWindow(x: nat, y: nat)
    requires 0 <= x - y < 2 * HALF
    ensures NotBefore(Tick(x), Tick(y)) <==> x - y < HALF
  {
    var a, b := x / WRAP, y / WRAP;
    assert Tick(x) - Tick(y) == (x - y) - (a - b) * WRAP;
  }

  /** Then it fires at the next tick, once, and goes on from there. */
  lemma LateStartFires(s: State, id: Id, d: nat)
    requires Quiet(s) && Rests(s, id) && Untouched(s, id) && d <= s.now && s.now + 1 < d + HALF
    requires s.list == [] || (s.list[0] in s.due && s.due[s.list[0]] < d + HALF)
    ensures var p := LateTick(s, id, d);
            HeadDue(p) && p.list[0] == id && Ready(Fired(p)) && FiresAt(Check(Fired(p)).1, id) == []
            && if s.timers[id].periodic then Runs(Fired(p), id, p.now + s.timers[id].init) else Rests(Fired(p), id)
  {
    var p := LateTick(s, id, d);
    LateStartFirstIff(s, id, d);
    LateWindow(p.now, d);
    LateCalling(s, id, d);
    LateFired(s, id, d);
    hide Inv, ScriptsOk, Fired, FiresAt;
    if s.timers[id].periodic {
      LateInit(s, id);
      CheckWaits(Fired(p), id, p.now + s.timers[id].init);
    } else {
      CheckRests(Fired(p), id);
    }
  }

  lemma LateInit(s: State, id: Id)
    requires Quiet(s) && id in s.timers
    ensures s.timers[id].init >= 1
  {
    hide Distinct, Sorted, Pending, ScriptsOk;
    assert InitOk(s, id);
  }

  lemma LateCalling(s: State, id: Id, d: nat)
    requires Quiet(s) && Rests(s, id) && |LateTick(s, id, d).list| > 0 && LateTick(s, id, d).list[0] == id
    ensures var u := Unlisted(LateTick(s, id, d)); u.list == s.list && Calling(u, id, Firing)
  {
    hide LateTick, Unlisted, Inv, ScriptsOk;
    LateUnlisted(s, id, d);
    LateInv(s, Unlisted(LateTick(s, id, d)), id, d);
  }

  lemma LateUnlisted(s: State, id: Id, d: nat)
    requires id in s.timers && id !in s.list && |LateTick(s, id, d).list| > 0 && LateTick(s, id, d).list[0] == id
    ensures Unlisted(LateTick(s, id, d))
            == s.(now := s.now + 1, timers := s.timers[id := s.timers[id].(active := true, timeout := Tick(d))],
                  due := s.due[id := d])
  {
    var k := Spot(s.list, s.timers, Tick(d));
    InsertFirst(s.list, k, id);
    assert k == 0;
  }

  lemma InsertFirst(l: seq<Id>, k: nat, id: Id)
    requires k <= |l|
    ensures |InsertAt(l, k, id)| > 0 && if k == 0 then InsertAt(l, k, id) == [id] + l else InsertAt(l, k, id)[0] in l
  {
    if k > 0 { assert InsertAt(l, k, id)[0] == l[0]; }
  }

  lemma LateInv(s: State, u: State, id: Id, d: nat)
    requires Quiet(s) && Rests(s, id)
    requires u == s.(now := s.now + 1, timers := s.timers[id := s.timers[id].(active := true, timeout := Tick(d))],
                     due := s.due[id := d])
    ensures Inv(u, {id}, u.now) && CurOk(u, {id})
  {
    hide Distinct, Sorted, ScriptsOk, Tick;
    forall x | x in u.list ensures Pending(u, x, u.now) { assert Pending(s, x, s.now + 1); }
    forall x | x in u.timers ensures InitOk(u, x) { assert x in s.timers && InitOk(s, x); }
    SortedFrame(s.list, s.due, u.due, id);
  }

  lemma SortedFrame(l: seq<Id>, due: map<Id, nat>, due': map<Id, nat>, id: Id)
    requires Sorted(l, due) && id !in l
             && forall x :: x in l ==> (x in due' <==> x in due) && (x in due ==> due'[x] == due[x])
    ensures Sorted(l, due')
  {
    forall i, j | 0 <= i < j < |l| && l[i] in due' && l[j] in due' ensures due'[l[i]] <= due'[l[j]] {
      assert l[i] in l && l[j] in l;
    }
  }

  lemma LateFired(s: State, id: Id, d: nat)
    requires Quiet(s) && Rests(s, id) && Untouched(s, id) && |LateTick(s, id, d).list| > 0
    requires LateTick(s, id, d).list[0] == id && Calling(Unlisted(LateTick(s, id, d)), id, Firing)
    ensures var p := LateTick(s, id, d);
            Ready(Fired(p)) && Fired(p).now == p.now && Untouched(Fired(p), id)
            && if s.timers[id].periodic then Runs(Fired(p), id, p.now + s.timers[id].init) else Rests(Fired(p), id)
  {
    hide Inv, DoAll, DueSet, Spot, Sorted, Distinct, Finish;
    var p := LateTick(s, id, d);
    var u, ops := Unlisted(p), ScriptOf(p, id);
    ScriptsFrame(s, u);
    assert OpsOk(u, ops);
    DoAllKeeps(u, ops, id, Firing);
    assert Alone(ops, id);
    DoAllOther(u, ops, id);
    var s1 := DoAll(u, ops);
    FinishKeeps(s1, id, OwnAfter(Firing, ops, id));
    ScriptsFrame(s, Fired(p));
    FiringUnlisted(s1, id, OwnAfter(Firing, ops, id));
    FinishSelf(s1, id);
  }

  lemma FinishSelf(s: State, id: Id)
    requires id in s.timers && s.timers[id].active && id !in s.list
    ensures var s' := Finish(s, id);
            if s.timers[id].periodic then Runs(s', id, s.now + s.timers[id].init) else Rests(s', id)
  {
    hide Spot, InsertAt;
    var t := s.(timers := s.timers[id := s.timers[id].(active := false)]);
    InsertHas(t.list, Spot(t.list, t.timers, Tick(t.now + t.timers[id].init)), id);
  }

  lemma FiringUnlisted(s: State, id: Id, own: Own)
    requires Calling(s, id, own) && !own.Restarted?
    ensures id !in s.list
  {
    hide Distinct, Sorted, Pending, InitOk;
  }

  lemma InitBound(s: State, id: Id)
    requires Quiet(s) && id in s.timers
    ensures 1 <= s.timers[id].init < HALF
  {
    assert InitOk(s, id);
  }

  /** rt_timer_stop: the timer stays silent. */
  lemma StoppedSilent(s: State, es: seq<Event>, id: Id)
    requires Quiet(s) && id in s.timers && Untouched(s, id) && LeftAlone(es, id)
    requires Possible(Do(s, Stop(id)), es)
    ensures FiresAt(Run(Do(s, Stop(id)), es).1, id) == []
  {
    RemovedMembers(s.list, id);
    RestsSilent(Do(s, Stop(id)), es, id);
  }

  // ---------------------------------------------------------- the timer list

  class HardTimers {
    /** rt_tick */
    var tick: nat
    var timers: Timers
    /** rt_timer_list */
    var list: seq<Id>
    var scripts: Scripts
    ghost var now: nat
    ghost var due: map<Id, nat>

    ghost function View(): State
      reads this
    {
      State(now, timers, list, due, scripts)
    }

    ghost predicate Valid()
      reads this
    {
      tick == Tick(now)
    }

    constructor (ts: Timers, callbacks: Scripts)
      ensures Valid() && View() == State(0, ts, [], map[], callbacks) && tick == 0
    {
      tick, timers, list, scripts := 0, ts, [], callbacks;
      now, due := 0, map[];
    }

    /** rt_timer_start */
    method StartTimer(id: Id) returns (ok: bool)
      requires Valid() && id in timers
      modifies `timers, `list, `due
      ensures Valid() && View() == Do(old(View()), Start(id)) && ok == !old(timers[id].active)
    {
      hide Spot, InsertAt, NotBefore, Tick;
      if timers[id].active {
        return false;
      }
      var timeout := Tick(tick + timers[id].init);
      SumTick(now, timers[id].init);
      var n := 0;
      while n < |list|
        invariant 0 <= n <= |list|
        invariant forall i :: 0 <= i < n ==> !NotBefore(TimeoutOf(timers, list[i]), timeout)
      {
        if NotBefore(TimeoutOf(timers, list[n]), timeout) {
          break;
        }
        n := n + 1;
      }
      SpotIs(list, timers, timeout, n);
      list := InsertAt(list, n, id);
      due := due[id := now + timers[id].init];
      timers := timers[id := timers[id].(active := true, timeout := timeout)];
      ok := true;
    }

    /** rt_timer_stop */
    method StopTimer(id: Id) returns (ok: bool)
      requires Valid() && id in timers
      modifies `timers, `list
      ensures Valid() && View() == Do(old(View()), Stop(id)) && ok == old(timers[id].active)
    {
      if !timers[id].active {
        return false;
      }
      list := Removed(list, id);
      timers := timers[id := timers[id].(active := false)];
      ok := true;
    }

    /** rt_timer_control, and the calls above: what a callback can do. */
    method Perform(op: Op)
      requires Valid() && op.id in timers
      modifies `timers, `list, `due
      ensures Valid() && View() == Do(old(View()), op)
    {
      match op
      case Start(id) => var ok := StartTimer(id);
      case Stop(id) => var ok := StopTimer(id);
      case SetTime(id, n) => timers := timers[id := timers[id].(init := n)];
      case SetPeriodic(id, on) => timers := timers[id := timers[id].(periodic := on)];
    }

    /** The callback of timer id. */
    method Callback(id: Id, ghost own: Own)
      requires Valid() && Calling(View(), id, own) && OpsOk(View(), ScriptOf(View(), id))
      modifies `timers, `list, `due
      ensures Valid() && View() == DoAll(old(View()), ScriptOf(old(View()), id))
    {
      hide Do, Calling, DueSet;
      var ops := if id in scripts then scripts[id] else [];
      var k := 0;
      ghost var o := own;
      while k < |ops|
        invariant 0 <= k <= |ops| && Valid()
        invariant Calling(View(), id, o) && OpsOk(View(), ops[k..])
        invariant DoAll(old(View()), ops) == DoAll(View(), ops[k..])
      {
        assert ops[k..][0] == ops[k] && ops[k..][1..] == ops[k + 1..];
        assert OpOk(View(), ops[k]);
        CallStep(View(), ops[k], id, o);
        RestOk(View(), Do(View(), ops[k]), ops[k..]);
        o := OwnStep(o, ops[k], id);
        Perform(ops[k]);
        k := k + 1;
      }
    }

    /** The head of the list fires. */
    method FireHead()
      requires Valid() && Ready(View()) && HeadDue(View())
      modifies `timers, `list, `due
      ensures Valid() && View() == Fired(old(View()))
    {
      hide Ready, DueSet, Do, Calling, DoAll, Inv;
      ghost var s := View();
      var t := list[0];
      list := list[1..];
      FireParts(s);
      Callback(t, Firing);
      var again := timers[t].periodic && timers[t].active;
      timers := timers[t := timers[t].(active := false)];
      if again {
        StartIs(View(), t);
        var ok := StartTimer(t);
      }
    }

    /** rt_timer_check; the log of the timers fired is part of the model only. */
    method CheckTimers() returns (ghost log: seq<Fire>)
      requires Valid() && Ready(View())
      modifies `timers, `list, `due
      ensures Valid() && (View(), log) == Check(old(View()))
    {
      hide Ready, Fired, DueSet, Do, Calling;
      log := [];
      while |list| > 0
        invariant Valid() && Ready(View())
        invariant Check(old(View())).0 == Check(View()).0
        invariant Check(old(View())).1 == log + Check(View()).1
        decreases DueSet(View())
      {
        ghost var s := View();
        HeadKnown(s);
        if NotBefore(tick, timers[list[0]].timeout) {
          FiredKeeps(s);
          log := log + [Fire(list[0], now)];
          FireHead();
          assert Check(s).1 == [Fire(s.list[0], s.now)] + Check(View()).1;
        } else {
          break;
        }
      }
      assert !HeadDue(View());
      assert Check(View()) == (View(), []);
      assert log + [] == log;
    }

    /** rt_tick_increase, without the time slice. */
    method TickIncrease() returns (ghost log: seq<Fire>)
      requires Valid() && Quiet(View())
      modifies this
      ensures Valid() && (View(), log) == Step(old(View()), Increase)
      ensures tick == if old(tick) == 0xffff_ffff then 0 else old(tick) + 1
    {
      hide Ready, Quiet, Check;
      TickReady(View());
      SumTick(now, 1);
      tick := Tick(tick + 1);
      now := now + 1;
      assert View() == old(View()).(now := old(now) + 1);
      log := CheckTimers();
    }
  }

  lemma SumTick(x: nat, y: nat)
    ensures Tick(Tick(x) + y) == Tick(x + y)
  {
  }

  lemma SpotIs(list: seq<Id>, timers: Timers, timeout: nat, n: nat)
    requires n <= |list| && (n < |list| ==> NotBefore(TimeoutOf(timers, list[n]), timeout))
    requires forall i :: 0 <= i < n ==> !NotBefore(TimeoutOf(timers, list[i]), timeout)
    ensures Spot(list, timers, timeout) == n
  {
    var k := Spot(list, timers, timeout);
    assert !(k < n);
    assert !(n < k);
  }

  lemma RestOk(s: State, s': State, ops: seq<Op>)
    requires OpsOk(s, ops) && |ops| > 0 && s'.timers.Keys == s.timers.Keys
    ensures OpsOk(s', ops[1..])
  {
    forall k | 0 <= k < |ops[1..]| ensures OpOk(s', ops[1..][k]) {
      assert OpOk(s, ops[k + 1]);
      assert ops[k + 1].id in s.timers.Keys;
    }
  }

  lemma HeadKnown(s: State)
    requires Ready(s) && |s.list| > 0
    ensures s.list[0] in s.timers
  {
    assert s.list[0] in s.list;
  }

  lemma FireParts(s: State)
    requires Ready(s) && HeadDue(s)
    ensures var id, u := s.list[0], Unlisted(s);
            id in s.timers && Calling(u, id, Firing) && OpsOk(u, ScriptOf(u, id))
            && id in DoAll(u, ScriptOf(s, id)).timers
  {
    hide DoAll, Inv, Calling, DueSet;
    var id, u := s.list[0], Unlisted(s);
    UnlistedCalling(s);
    ScriptsFrame(s, u);
    DoAllKeeps(u, ScriptOf(s, id), id, Firing);
    assert id in DoAll(u, ScriptOf(s, id)).timers.Keys;
  }

  lemma StartIs(s: State, id: Id)
    requires id in s.timers && !s.timers[id].active
    ensures Do(s, Start(id)) == Started(s, id)
  {
  }
}

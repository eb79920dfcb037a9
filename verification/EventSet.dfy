/** Event sets (ipc.c, rt_event_send and rt_event_recv): 32 flags, and threads that
    wait for all or for any of some flags. A word of flags is the set of the numbers
    of its set bits, so that & | and & ~ are intersection, union and difference. */
module EventSet {
  import opened Basics
  import opened WaitList

  type Flags = set<nat>

  /** RT_EVENT_FLAG_AND, RT_EVENT_FLAG_OR, RT_EVENT_FLAG_CLEAR */
  datatype Mode = Mode(all: bool, any: bool, clear: bool)

  /** What a thread waits for: event_set and event_info. */
  datatype Wish = Wish(want: Flags, mode: Mode)

  datatype Receipt = Receipt(ok: bool, received: Flags, left: Flags)

  predicate Satisfied(flags: Flags, w: Wish) {
    if w.mode.all then flags * w.want == w.want
    else if w.mode.any then flags * w.want != {}
    else false
  }

  /** The immediate outcome of rt_event_recv. */
  function Receive(flags: Flags, w: Wish): Receipt {
    if Satisfied(flags, w)
    then Receipt(true, flags * w.want, if w.mode.clear then flags - w.want else flags)
    else Receipt(false, {}, flags)
  }

  /** One turn of the loop in rt_event_send: the bits the thread is given are kept in
      its event_set, and those are what CLEAR clears. */
  function Offer(flags: Flags, w: Wish): Receipt {
    if w.mode.all then
      if w.want * flags == w.want then Receipt(true, w.want, if w.mode.clear then flags - w.want else flags)
      else Receipt(false, {}, flags)
    else if w.mode.any then
      if w.want * flags != {} then
        var got := w.want * flags;
        Receipt(true, got, if w.mode.clear then flags - got else flags)
      else Receipt(false, {}, flags)
    else Receipt(false, {}, flags)
  }

  /** Handing over in the loop gives a waiter what its own immediate receive would
      have given it, and leaves the same set. */
  lemma OfferIsReceive(flags: Flags, w: Wish)
    ensures Offer(flags, w) == Receive(flags, w)
  {
    assert w.want * flags == flags * w.want;
    assert flags - w.want * flags == flags - w.want;
  }

  // ---------------------------------------------------------------- bit by bit

  /** All of the bits wanted are set, or at least one of them. */
  ghost predicate Meets(flags: Flags, w: Wish) {
    if w.mode.all then forall b :: b in w.want ==> b in flags
    else w.mode.any && exists b :: b in w.want && b in flags
  }

  /** What a receive answers and keeps: the bits wanted that are set are received, and
      CLEAR takes just those away. */
  ghost predicate Answered(flags: Flags, w: Wish, r: Receipt) {
    (r.ok <==> Meets(flags, w))
    && (forall b :: b in r.received <==> r.ok && b in w.want && b in flags)
    && (forall b :: b in r.left <==> b in flags && !(r.ok && w.mode.clear && b in w.want))
  }

  lemma SatisfiedIff(flags: Flags, w: Wish)
    ensures Satisfied(flags, w) <==> Meets(flags, w)
  {
    if w.mode.all {
      assert flags * w.want == w.want <==> forall b :: b in w.want ==> b in flags * w.want;
    } else {
      assert forall b :: b in flags * w.want <==> b in w.want && b in flags;
      if flags * w.want != {} {
        var b :| b in flags * w.want;
        assert b in w.want && b in flags;
      }
    }
  }

  lemma ReceiveAnswers(flags: Flags, w: Wish)
    ensures Answered(flags, w, Receive(flags, w))
  {
    SatisfiedIff(flags, w);
  }

  // --------------------------------------------------------------------- send

  type Wishes = map<Tid, Wish>

  function WishOf(wishes: Wishes, t: Tid): Wish {
    if t in wishes then wishes[t] else Wish({}, Mode(false, false, false))
  }

  /** What a send left: the set, the threads still waiting, and what the others got. */
  datatype Outcome = Outcome(left: Flags, waiting: seq<Tid>, given: map<Tid, Flags>)

  /** Immediate receives by the waiters, one after the other in list order. */
  function ReceiveAll(flags: Flags, l: seq<Tid>, wishes: Wishes): Outcome
    decreases |l|
  {
    if |l| == 0 then Outcome(flags, [], map[])
    else
      var r := Receive(flags, WishOf(wishes, l[0]));
      var o := ReceiveAll(r.left, l[1..], wishes);
      if r.ok then o.(given := o.given[l[0] := r.received]) else o.(waiting := [l[0]] + o.waiting)
  }

  /** Receiving never sets a flag. */
  lemma LeftWithin(flags: Flags, w: Wish)
    ensures Receive(flags, w).left <= flags
  {
  }

  /** A wish that more flags do not satisfy is not satisfied by fewer. */
  lemma Monotone(a: Flags, b: Flags, w: Wish)
    requires a <= b && !Satisfied(b, w)
    ensures !Satisfied(a, w)
  {
    if a * w.want == w.want { assert b * w.want == w.want; }
    if b * w.want == {} { assert forall x :: x in a * w.want ==> x in b * w.want; }
  }

  ghost predicate Unsatisfied(flags: Flags, l: seq<Tid>, wishes: Wishes) {
    forall t :: t in l ==> !Satisfied(flags, WishOf(wishes, t))
  }

  /** After the last hand-over nobody is left waiting whose wish the set satisfies. */
  lemma {:induction false} NobodyForgotten(flags: Flags, l: seq<Tid>, wishes: Wishes)
    decreases |l|
    ensures var o := ReceiveAll(flags, l, wishes);
            o.left <= flags && Unsatisfied(o.left, o.waiting, wishes) && forall t :: t in o.waiting ==> t in l
  {
    hide Satisfied, Receive;
    if |l| > 0 {
      var w := WishOf(wishes, l[0]);
      var r := Receive(flags, w);
      var o := ReceiveAll(r.left, l[1..], wishes);
      NobodyForgotten(r.left, l[1..], wishes);
      LeftWithin(flags, w);
      Refused(flags, w);
      if !r.ok { Monotone(o.left, flags, w); }
    }
  }

  lemma Refused(flags: Flags, w: Wish)
    ensures !Receive(flags, w).ok <==> !Satisfied(flags, w)
  {
  }

  /** Everyone in the list either still waits or was given something, in order. */
  lemma {:induction false} NobodyLost(flags: Flags, l: seq<Tid>, wishes: Wishes)
    decreases |l|
    requires forall i, j :: 0 <= i < j < |l| ==> l[i] != l[j]
    ensures var o := ReceiveAll(flags, l, wishes);
            (forall t :: t in l <==> t in o.waiting || t in o.given) && (forall t :: t in o.waiting ==> t !in o.given)
            && (forall i, j :: 0 <= i < j < |o.waiting| ==> o.waiting[i] != o.waiting[j])
  {
    hide Receive, Satisfied;
    if |l| > 0 {
      var r := Receive(flags, WishOf(wishes, l[0]));
      var rest := l[1..];
      assert forall i, j :: 0 <= i < j < |rest| ==> rest[i] != rest[j];
      assert l[0] !in rest by { forall i | 0 <= i < |rest| ensures rest[i] != l[0] { assert l[0] != l[i + 1]; } }
      NobodyLost(r.left, rest, wishes);
      assert forall t :: t in l <==> t == l[0] || t in rest;
    }
  }

  lemma {:induction false} GivenListed(flags: Flags, l: seq<Tid>, wishes: Wishes)
    ensures forall t :: t in ReceiveAll(flags, l, wishes).given ==> t in l
    decreases |l|
  {
    if |l| > 0 {
      var r := Receive(flags, WishOf(wishes, l[0]));
      GivenListed(r.left, l[1..], wishes);
      hide Receive;
    }
  }

  /** What a thread served by a send was given: the bits it wanted that were there, all of
      them or at least one. */
  ghost predicate Served(flags: Flags, w: Wish, got: Flags) {
    got <= w.want && got <= flags && if w.mode.all then got == w.want else w.mode.any && got != {}
  }

  /** Some thread served cleared this bit. */
  ghost predicate Cleared(o: Outcome, wishes: Wishes, b: nat) {
    exists t :: t in o.given && b in o.given[t] && WishOf(wishes, t).mode.clear
  }

  /** A send serves threads with what they want, and takes away from the set just what
      those with CLEAR were given. */
  lemma {:induction false} SendServes(flags: Flags, l: seq<Tid>, wishes: Wishes)
    requires forall i, j :: 0 <= i < j < |l| ==> l[i] != l[j]
    ensures var o := ReceiveAll(flags, l, wishes);
            (forall t :: t in o.given ==> Served(flags, WishOf(wishes, t), o.given[t]))
            && (forall b :: b in o.left <==> b in flags && !Cleared(o, wishes, b))
    decreases |l|
  {
    var o := ReceiveAll(flags, l, wishes);
    if |l| == 0 {
      assert forall b :: !Cleared(o, wishes, b);
    } else {
      var x, w, rest := l[0], WishOf(wishes, l[0]), l[1..];
      var r := Receive(flags, w);
      assert forall i, j :: 0 <= i < j < |rest| ==> rest[i] != rest[j];
      assert x !in rest by { forall i | 0 <= i < |rest| ensures rest[i] != x { assert l[0] != l[i + 1]; } }
      SendServes(r.left, rest, wishes);
      GivenListed(r.left, rest, wishes);
      ReceiveAnswers(flags, w);
      ServedOne(flags, w);
      hide ReceiveAll, Receive;
      var o' := ReceiveAll(r.left, rest, wishes);
      assert o == if r.ok then o'.(given := o'.given[x := r.received]) else o'.(waiting := [x] + o'.waiting) by {
        ReceiveFirst(flags, l, wishes);
      }
      forall b ensures Cleared(o, wishes, b) <==> Cleared(o', wishes, b) || (r.ok && w.mode.clear && b in r.received) {
        if Cleared(o', wishes, b) {
          var t :| t in o'.given && b in o'.given[t] && WishOf(wishes, t).mode.clear;
          assert t in o.given && o.given[t] == o'.given[t];
        }
        if r.ok && w.mode.clear && b in r.received { assert x in o.given; }
      }
    }
  }

  lemma ReceiveFirst(flags: Flags, l: seq<Tid>, wishes: Wishes)
    requires |l| > 0
    ensures var r := Receive(flags, WishOf(wishes, l[0]));
            var o := ReceiveAll(r.left, l[1..], wishes);
            ReceiveAll(flags, l, wishes)
            == if r.ok then o.(given := o.given[l[0] := r.received]) else o.(waiting := [l[0]] + o.waiting)
  {
    hide Receive;
  }

  lemma ServedOne(flags: Flags, w: Wish)
    ensures var r := Receive(flags, w); r.ok ==> Served(flags, w, r.received)
  {
    ReceiveAnswers(flags, w);
    var r := Receive(flags, w);
    if r.ok && !w.mode.all {
      var b :| b in w.want && b in flags;
      assert b in r.received;
    }
  }

  // ------------------------------------------------------------------ sections

  datatype Status = EOk | ETimeout | EError

  datatype Phase = Outside | Blocked(timed: bool) | Woken(status: Status, received: Flags)

  type Phases = map<Tid, Phase>

  /** `flag` is the queueing rule of the set; `priority`, `tickets` and `clock` are what
      it goes by. */
  datatype State = State(flags: Flags, waiters: seq<Tid>, wishes: Wishes, phase: Phases,
                         flag: Flag, priority: map<Tid, nat>, tickets: Tickets, clock: nat)

  datatype Wait = NoWait | Ticks | Forever

  /** Atomic sections */
  datatype Event =
    | Send(bits: Flags)
    | Recv(t: Tid, wish: Wish, wait: Wait)
    | Expire(t: Tid)
    | Return(t: Tid)
    | Reset

  predicate BlockedIn(phase: Phases, t: Tid) {
    t in phase && phase[t].Blocked?
  }

  predicate Enabled(s: State, e: Event) {
    match e
    case Send(_) => true
    case Recv(t, _, _) => t in s.phase ==> s.phase[t].Outside?
    case Expire(t) => BlockedIn(s.phase, t) && s.phase[t].timed
    case Return(t) => t in s.phase && s.phase[t].Woken?
    case Reset => true
  }

  function Gave(phase: Phases, given: map<Tid, Flags>): Phases {
    map t | t in phase :: if t in given then Woken(EOk, given[t]) else phase[t]
  }

  function SendStep(s: State, bits: Flags): State {
    if bits == {} then s
    else
      var o := ReceiveAll(s.flags + bits, s.waiters, s.wishes);
      s.(flags := o.left, waiters := o.waiting, phase := Gave(s.phase, o.given))
  }

  function NewTickets(s: State, t: Tid): Tickets {
    s.tickets[t := Ticket(if t in s.priority then s.priority[t] else 0, s.clock)]
  }

  function RecvStep(s: State, t: Tid, w: Wish, wait: Wait): State {
    if w.want == {} then s
    else
      var r := Receive(s.flags, w);
      if r.ok then s.(flags := r.left)
      else if wait.NoWait? then s
      else s.(wishes := s.wishes[t := w], phase := s.phase[t := Blocked(wait.Ticks?)],
              tickets := NewTickets(s, t), clock := s.clock + 1,
              waiters := Suspended(s.waiters, NewTickets(s, t), s.flag, t))
  }

  function WakeAll(phase: Phases): Phases {
    map t | t in phase :: if phase[t].Blocked? then Woken(EError, {}) else phase[t]
  }

  function Step(s: State, e: Event): State
    requires Enabled(s, e)
  {
    match e
    case Send(bits) => SendStep(s, bits)
    case Recv(t, w, wait) => RecvStep(s, t, w, wait)
    case Expire(t) => s.(waiters := Removed(s.waiters, t), phase := s.phase[t := Woken(ETimeout, {})])
    case Return(t) => s.(phase := s.phase[t := Outside])
    case Reset => s.(waiters := [], phase := WakeAll(s.phase), flags := {})
  }

  // ----------------------------------------------------------------- invariant

  /** No thread is blocked whose wish the current set satisfies, and the blocked threads
      are listed by priority or arrival. */
  ghost predicate Inv(s: State) {
    Distinct(s.waiters) && (forall t :: t in s.waiters <==> BlockedIn(s.phase, t))
    && Unsatisfied(s.flags, s.waiters, s.wishes) && Queued(s)
  }

  ghost predicate Queued(s: State) {
    InOrder(s.waiters, s.tickets, s.flag) && CameBefore(s.waiters, s.tickets, s.clock)
  }

  /** Those a send leaves waiting keep their order. */
  lemma {:induction false} WaitingInOrder(flags: Flags, l: seq<Tid>, wishes: Wishes, tickets: Tickets, flag: Flag)
    requires InOrder(l, tickets, flag)
    ensures var q := ReceiveAll(flags, l, wishes).waiting;
            InOrder(q, tickets, flag) && forall t :: t in q ==> t in l
    decreases |l|
  {
    hide Receive;
    if |l| > 0 {
      var r, rest := Receive(flags, WishOf(wishes, l[0])), l[1..];
      forall i, j | 0 <= i < j < |rest| ensures Precedes(tickets, flag, rest[i], rest[j]) {
        assert Precedes(tickets, flag, l[i + 1], l[j + 1]);
      }
      WaitingInOrder(r.left, rest, wishes, tickets, flag);
      FrontInOrder(l, ReceiveAll(r.left, rest, wishes).waiting, tickets, flag);
    }
  }

  lemma FrontInOrder(l: seq<Tid>, q: seq<Tid>, tickets: Tickets, flag: Flag)
    requires |l| > 0 && InOrder(l, tickets, flag) && InOrder(q, tickets, flag) && forall t :: t in q ==> t in l[1..]
    ensures InOrder([l[0]] + q, tickets, flag)
  {
    var p := [l[0]] + q;
    forall i, j | 0 <= i < j < |p| ensures Precedes(tickets, flag, p[i], p[j]) {
      assert p[j] == q[j - 1];
      if i == 0 {
        assert p[j] in l[1..];
        var k :| 0 <= k < |l[1..]| && l[1..][k] == p[j];
        assert Precedes(tickets, flag, l[0], l[k + 1]);
      } else {
        assert Precedes(tickets, flag, q[i - 1], q[j - 1]);
      }
    }
  }

  /** A newcomer is put in its place. */
  lemma SuspendQueued(s: State, t: Tid)
    requires Queued(s) && Distinct(s.waiters) && t !in s.waiters
    ensures var l := Suspended(s.waiters, NewTickets(s, t), s.flag, t);
            InOrder(l, NewTickets(s, t), s.flag) && CameBefore(l, NewTickets(s, t), s.clock + 1)
            && Distinct(l) && forall x :: x in l <==> x in s.waiters || x == t
  {
    hide InOrder, Suspended;
    var tickets := NewTickets(s, t);
    NewTicket(s.waiters, s.tickets, s.flag, t, tickets[t]);
    forall i | 0 <= i < |s.waiters| ensures Arrival(tickets, s.waiters[i]) < Arrival(tickets, t) {
      assert s.waiters[i] in s.waiters;
      assert Arrival(tickets, s.waiters[i]) == Arrival(s.tickets, s.waiters[i]);
    }
    SuspendedInOrder(s.waiters, tickets, s.flag, t);
    SuspendedMembers(s.waiters, tickets, s.flag, t);
    forall x | x in s.waiters ensures Arrival(tickets, x) < s.clock + 1 {
      assert Arrival(tickets, x) == Arrival(s.tickets, x);
    }
  }

  lemma SendKeeps(s: State, bits: Flags)
    requires Inv(s)
    ensures Inv(SendStep(s, bits))
  {
    if bits != {} {
      NobodyForgotten(s.flags + bits, s.waiters, s.wishes);
      NobodyLost(s.flags + bits, s.waiters, s.wishes);
      WaitingInOrder(s.flags + bits, s.waiters, s.wishes, s.tickets, s.flag);
      hide ReceiveAll, Satisfied, InOrder;
      var s' := SendStep(s, bits);
      forall t ensures t in s'.waiters <==> BlockedIn(s'.phase, t) {
        assert t in s.waiters <==> BlockedIn(s.phase, t);
      }
    }
  }

  lemma RecvKeeps(s: State, t: Tid, w: Wish, wait: Wait)
    requires Inv(s) && Enabled(s, Recv(t, w, wait))
    ensures Inv(RecvStep(s, t, w, wait))
  {
    var r := Receive(s.flags, w);
    Refused(s.flags, w);
    LeftWithin(s.flags, w);
    hide Satisfied, Receive, InOrder, Suspended, NewTickets;
    if w.want != {} && r.ok {
      forall x | x in s.waiters ensures !Satisfied(r.left, WishOf(s.wishes, x)) {
        Monotone(r.left, s.flags, WishOf(s.wishes, x));
      }
    } else if w.want != {} && !wait.NoWait? {
      assert !BlockedIn(s.phase, t);
      SuspendQueued(s, t);
      var s' := RecvStep(s, t, w, wait);
      forall x ensures x in s'.waiters <==> BlockedIn(s'.phase, x) {
        assert x in s.waiters <==> BlockedIn(s.phase, x);
      }
    }
  }

  /** Every section keeps the promise. */
  lemma StepKeeps(s: State, e: Event)
    requires Inv(s) && Enabled(s, e)
    ensures Inv(Step(s, e))
  {
    hide Satisfied, InOrder;
    match e
    case Send(bits) => SendKeeps(s, bits);
    case Recv(t, w, wait) => RecvKeeps(s, t, w, wait);
    case Expire(t) =>
      RemovedMembers(s.waiters, t);
      RemovedInOrder(s.waiters, s.tickets, s.flag, t);
      forall x ensures x in Step(s, e).waiters <==> BlockedIn(Step(s, e).phase, x) {
        assert x in s.waiters <==> BlockedIn(s.phase, x);
      }
    case Return(t) =>
      forall x ensures BlockedIn(Step(s, e).phase, x) <==> BlockedIn(s.phase, x) { }
    case Reset =>
      EmptyInOrder(s.tickets, s.flag);
  }

  lemma EmptyInOrder(tickets: Tickets, flag: Flag)
    ensures InOrder([], tickets, flag)
  {
  }

  predicate Runs(s: State, es: seq<Event>)
    decreases |es|
  {
    |es| == 0 || (Enabled(s, es[0]) && Runs(Step(s, es[0]), es[1..]))
  }

  function Last(s: State, es: seq<Event>): State
    requires Runs(s, es)
    decreases |es|
  {
    if |es| == 0 then s else Last(Step(s, es[0]), es[1..])
  }

  /** In no reachable state does a thread wait for what is there. */
  lemma {:induction false} NeverStarved(s: State, es: seq<Event>)
    requires Inv(s) && Runs(s, es)
    ensures Inv(Last(s, es))
    decreases |es|
  {
    if |es| > 0 {
      hide Inv, Step, Enabled;
      StepKeeps(s, es[0]);
      NeverStarved(Step(s, es[0]), es[1..]);
    }
  }

  /** A thread woken with this bit had asked to clear it. */
  ghost predicate TakenAway(s: State, s': State, b: nat) {
    exists t :: t in s.waiters && t in s'.phase && s'.phase[t].Woken?
                && b in s'.phase[t].received && WishOf(s.wishes, t).mode.clear
  }

  /** What a section does: whom it wakes with what, what it takes from the set, and who
      waits for how long. */
  ghost predicate Does(s: State, e: Event, s': State) {
    match e
    case Send(bits) =>
      (forall t :: t in s'.phase <==> t in s.phase)
      && (forall t :: t in s.phase && s'.phase[t] != s.phase[t] ==>
                        t in s.waiters && s'.phase[t].Woken? && s'.phase[t].status == EOk
                        && Served(s.flags + bits, WishOf(s.wishes, t), s'.phase[t].received))
      && (forall b :: b in s'.flags <==>
                        (b in s.flags || b in bits) && !TakenAway(s, s', b))
    case Recv(t, w, wait) =>
      if w.want == {} then s' == s
      else if Meets(s.flags, w) then
        s'.phase == s.phase && s'.waiters == s.waiters
        && forall b :: b in s'.flags <==> b in s.flags && !(w.mode.clear && b in w.want)
      else if wait.NoWait? then s' == s
      else
        s'.flags == s.flags && s'.wishes == s.wishes[t := w] && s'.phase == s.phase[t := Blocked(wait.Ticks?)]
    case Expire(t) => s'.flags == s.flags && s'.phase == s.phase[t := Woken(ETimeout, {})]
    case Return(t) => s'.flags == s.flags && s'.phase == s.phase[t := Outside] && s'.waiters == s.waiters
    case Reset =>
      s'.flags == {} && s'.waiters == []
      && (forall t :: t in s'.phase <==> t in s.phase)
      && forall t :: t in s.phase ==> s'.phase[t] == if t in s.waiters then Woken(EError, {}) else s.phase[t]
  }

  lemma StepDoes(s: State, e: Event)
    requires Inv(s) && Enabled(s, e)
    ensures Does(s, e, Step(s, e))
  {
    match e
    case Send(bits) => SendDoes(s, bits);
    case Recv(t, w, wait) =>
      hide Suspended, InOrder;
      SatisfiedIff(s.flags, w);
      ReceiveAnswers(s.flags, w);
    case _ => hide InOrder, Satisfied;
  }

  lemma SendDoes(s: State, bits: Flags)
    requires Inv(s)
    ensures Does(s, Send(bits), SendStep(s, bits))
  {
    hide Satisfied, Receive, ReceiveAll, InOrder, Served;
    var s', o := SendStep(s, bits), ReceiveAll(s.flags + bits, s.waiters, s.wishes);
    if bits == {} {
      assert s.flags + bits == s.flags;
    } else {
      SendServes(s.flags + bits, s.waiters, s.wishes);
      GivenListed(s.flags + bits, s.waiters, s.wishes);
      forall b ensures Cleared(o, s.wishes, b) <==> TakenAway(s, s', b) {
        forall t | t in s.waiters ensures BlockedIn(s.phase, t) { }
        if Cleared(o, s.wishes, b) {
          var t :| t in o.given && b in o.given[t] && WishOf(s.wishes, t).mode.clear;
          assert t in s.waiters;
        }
      }
    }
  }

  /** In every run from the start a thread that waits cannot be served by the flags that
      are set. */
  lemma NobodyWaitsInVain(s: State, es: seq<Event>, t: Tid)
    requires Inv(s) && Runs(s, es) && BlockedIn(Last(s, es).phase, t)
    ensures t in Last(s, es).waiters && !Meets(Last(s, es).flags, WishOf(Last(s, es).wishes, t))
  {
    NeverStarved(s, es);
    hide Last, Runs, Satisfied;
    SatisfiedIff(Last(s, es).flags, WishOf(Last(s, es).wishes, t));
  }

  // ---------------------------------------------------------------- the object

  /** A list with its n-th thread taken out. */
  function Without(l: seq<Tid>, n: nat): (q: seq<Tid>)
    requires n < |l|
    ensures |q| == |l| - 1
  {
    l[..n] + l[n + 1..]
  }

  /** The walk over the list has reached place n: o is what is done plus what the
      rest will bring. */
  ghost predicate Underway(o: Outcome, flags: Flags, l: seq<Tid>, n: nat, wishes: Wishes, given: map<Tid, Flags>) {
    n <= |l| && Distinct(l) && (forall t :: t in given ==> t !in l)
    && var rest := ReceiveAll(flags, l[n..], wishes);
       o.left == rest.left && o.waiting == l[..n] + rest.waiting && o.given == given + rest.given
  }

  lemma BeginWalk(flags: Flags, l: seq<Tid>, wishes: Wishes)
    requires Distinct(l)
    ensures Underway(ReceiveAll(flags, l, wishes), flags, l, 0, wishes, map[])
  {
    assert l[0..] == l && l[..0] == [];
  }

  lemma EndWalk(o: Outcome, flags: Flags, l: seq<Tid>, n: nat, wishes: Wishes, given: map<Tid, Flags>)
    requires Underway(o, flags, l, n, wishes, given) && n >= |l|
    ensures o == Outcome(flags, l, given)
  {
    assert l[n..] == [] && l[..n] == l;
  }

  lemma WalkOn(o: Outcome, flags: Flags, l: seq<Tid>, n: nat, wishes: Wishes, given: map<Tid, Flags>)
    requires Underway(o, flags, l, n, wishes, given) && n < |l|
    ensures var r := Receive(flags, WishOf(wishes, l[n]));
            if r.ok then Underway(o, r.left, Without(l, n), n, wishes, given[l[n] := r.received])
                         && forall t :: t in Without(l, n) ==> t in l
            else r.left == flags && Underway(o, flags, l, n + 1, wishes, given)
  {
    hide ReceiveAll, Receive, Without;
    var r := Receive(flags, WishOf(wishes, l[n]));
    OneMore(flags, l, wishes, n);
    GivenListed(r.left, l[n + 1..], wishes);
    TakeOut(l, n);
    var rest := ReceiveAll(r.left, l[n + 1..], wishes);
    if r.ok {
      assert given + rest.given[l[n] := r.received] == given[l[n] := r.received] + rest.given;
    } else {
      assert l[..n + 1] == l[..n] + [l[n]];
      assert l[..n] + ([l[n]] + rest.waiting) == l[..n + 1] + rest.waiting;
    }
  }

  lemma GaveOne(phase: Phases, given: map<Tid, Flags>, t: Tid, got: Flags)
    requires t in phase
    ensures Gave(phase, given)[t := Woken(EOk, got)] == Gave(phase, given[t := got])
  {
  }

  class EventObject {
    var flags: Flags
    var waiters: seq<Tid>
    /** event_set and event_info of the waiting threads */
    var wishes: Wishes
    var phase: Phases
    const flag: Flag
    const priority: map<Tid, nat>
    var tickets: Tickets
    var clock: nat

    ghost function View(): State
      reads this
    {
      State(flags, waiters, wishes, phase, flag, priority, tickets, clock)
    }

    constructor (rule: Flag, priorities: map<Tid, nat>)
      ensures View() == State({}, [], map[], map[], rule, priorities, map[], 0) && Inv(View())
    {
      flags, waiters, wishes, phase := {}, [], map[], map[];
      flag, priority, tickets, clock := rule, priorities, map[], 0;
    }

    /** rt_event_send */
    method SendSection(bits: Flags) returns (ok: bool)
      requires Inv(View())
      modifies this
      ensures Inv(View()) && View() == Step(old(View()), Send(bits)) && ok == (bits != {})
      ensures Does(old(View()), Send(bits), View())
    {
      hide Inv, Receive, Offer, Satisfied, Unsatisfied, ReceiveAll, Underway, Gave, Without, Does;
      SendKeeps(View(), bits);
      SendDoes(View(), bits);
      if bits == {} {
        return false;
      }
      WaitersKnown(View());
      flags := flags + bits;
      ghost var o := ReceiveAll(flags, waiters, wishes);
      ghost var given: map<Tid, Flags> := map[];
      var n := 0;
      BeginWalk(flags, waiters, wishes);
      while n < |waiters|
        invariant Underway(o, flags, waiters, n, wishes, given) && wishes == old(wishes)
        invariant tickets == old(tickets) && clock == old(clock)
        invariant phase == Gave(old(phase), given) && (forall t :: t in waiters ==> t in old(phase))
        decreases |waiters| - n
      {
        var t := waiters[n];
        var r := Offer(flags, WishOf(wishes, t));
        OfferIsReceive(flags, WishOf(wishes, t));
        WalkOn(o, flags, waiters, n, wishes, given);
        if r.ok {
          GaveOne(old(phase), given, t, r.received);
          flags := r.left;
          phase := phase[t := Woken(EOk, r.received)];
          waiters := Without(waiters, n);
          given := given[t := r.received];
        } else {
          n := n + 1;
        }
      }
      EndWalk(o, flags, waiters, n, wishes, given);
      ok := true;
    }

    /** rt_event_recv up to where it enables interrupts */
    method ReceiveSection(t: Tid, w: Wish, wait: Wait) returns (r: Receipt)
      requires Inv(View()) && Enabled(View(), Recv(t, w, wait))
      modifies this
      ensures Inv(View()) && View() == Step(old(View()), Recv(t, w, wait))
      ensures r == if w.want == {} then Receipt(false, {}, old(flags)) else Receive(old(flags), w)
      ensures w.want != {} ==> Answered(old(flags), w, r) && flags == r.left
      ensures Does(old(View()), Recv(t, w, wait), View())
    {
      hide Inv, Suspended, Does, Answered;
      RecvKeeps(View(), t, w, wait);
      StepDoes(View(), Recv(t, w, wait));
      ReceiveAnswers(flags, w);
      if w.want == {} {
        return Receipt(false, {}, flags);
      }
      var got := false;
      if w.mode.all {
        got := flags * w.want == w.want;
      } else if w.mode.any {
        got := flags * w.want != {};
      }
      if got {
        r := Receipt(true, flags * w.want, if w.mode.clear then flags - w.want else flags);
        if w.mode.clear {
          flags := flags - w.want;
        }
      } else {
        r := Receipt(false, {}, flags);
        if !wait.NoWait? {
          wishes := wishes[t := w];
          tickets := tickets[t := Ticket(if t in priority then priority[t] else 0, clock)];
          clock := clock + 1;
          waiters := Suspend(waiters, tickets, flag, t);
          phase := phase[t := Blocked(wait.Ticks?)];
        }
      }
    }
  }

  lemma WaitersKnown(s: State)
    requires Inv(s)
    ensures Distinct(s.waiters) && (forall t :: t in s.waiters ==> t in s.phase) && Gave(s.phase, map[]) == s.phase
  {
  }

  lemma OneMore(flags: Flags, l: seq<Tid>, wishes: Wishes, n: nat)
    requires n < |l|
    ensures var r := Receive(flags, WishOf(wishes, l[n]));
            var o := ReceiveAll(r.left, l[n + 1..], wishes);
            ReceiveAll(flags, l[n..], wishes)
            == if r.ok then o.(given := o.given[l[n] := r.received]) else o.(waiting := [l[n]] + o.waiting)
    ensures !Receive(flags, WishOf(wishes, l[n])).ok ==> Receive(flags, WishOf(wishes, l[n])).left == flags
  {
    assert l[n..][1..] == l[n + 1..] && l[n..][0] == l[n];
  }

  lemma TakeOut(l: seq<Tid>, n: nat)
    requires Distinct(l) && n < |l|
    ensures var q := Without(l, n);
            Distinct(q) && |q| == |l| - 1 && q[..n] == l[..n] && q[n..] == l[n + 1..]
            && (forall x :: x in q ==> x in l && x != l[n])
            && l[n] !in l[n + 1..]
  {
    var q := Without(l, n);
    assert forall i :: 0 <= i < |q| ==> q[i] == if i < n then l[i] else l[i + 1];
  }
}

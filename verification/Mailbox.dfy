/** Mailboxes (ipc.c): a bounded ring of words, a list of blocked receivers and one
    of blocked senders. A call is cut into atomic sections at the points where the
    source enables interrupts; sections of different threads, timeouts and resets
    interleave freely. */
module Mailbox {
  import opened Basics
  import opened WaitList

  type Word = nat

  datatype Wait = NoWait | Ticks | Forever

  datatype Op = Receive | Send(value: Word)

  datatype Status = EOk | ETimeout | EFull | EError

  /** Where a thread stands in a call on the mailbox. A woken thread runs again but
      has not looked at the mailbox yet; `status` is its error field. */
  datatype Phase = Outside | Blocked(op: Op, timed: bool) | Woken(op: Op, timed: bool, status: Status)

  type Phases = map<Tid, Phase>

  datatype State = State(size: nat, flag: Flag, mails: seq<Word>, receivers: seq<Tid>, senders: seq<Tid>,
                         phase: Phases, priority: map<Tid, nat>, tickets: Tickets, clock: nat)

  function PhaseOf(phase: Phases, t: Tid): Phase {
    if t in phase then phase[t] else Outside
  }

  // ----------------------------------------------------------------- sections

  /** One atomic section. The first section of a call, a section entered after a
      wake-up (`left` being what remains of a timed wait), an expiring thread timer,
      or a reset. */
  datatype Event =
    | Begin(t: Tid, op: Op, wait: Wait)
    | Again(t: Tid, left: bool)
    | Expire(t: Tid)
    | Reset

  /** What a section did: a mail put or taken, the mailbox emptied, a call that
      returned an error, or nothing yet. */
  datatype Note = Put(value: Word) | Took(value: Word) | Emptied | Refused(t: Tid, status: Status) | Silent

  /** The first thread of a list becomes ready. */
  function WakeFirst(phase: Phases, l: seq<Tid>, status: Status): Phases {
    if |l| == 0 then phase
    else
      match PhaseOf(phase, l[0])
      case Blocked(op, timed) => phase[l[0] := Woken(op, timed, status)]
      case _ => phase
  }

  function Rest(l: seq<Tid>): seq<Tid> {
    if |l| == 0 then [] else l[1..]
  }

  function Block(s: State, t: Tid, op: Op, timed: bool): State {
    var tickets := s.tickets[t := Ticket(if t in s.priority then s.priority[t] else 0, s.clock)];
    var s' := s.(phase := s.phase[t := Blocked(op, timed)], tickets := tickets, clock := s.clock + 1);
    if op.Receive? then s'.(receivers := Suspended(s.receivers, tickets, s.flag, t))
    else s'.(senders := Suspended(s.senders, tickets, s.flag, t))
  }

  function Attempt(s: State, t: Tid, op: Op, wait: Wait): (State, Note) {
    match op
    case Send(v) =>
      if |s.mails| == s.size then
        if wait.NoWait? then (s.(phase := s.phase[t := Outside]), Refused(t, EFull))
        else (Block(s, t, op, wait.Ticks?), Silent)
      else
        (s.(mails := s.mails + [v], receivers := Rest(s.receivers),
            phase := WakeFirst(s.phase[t := Outside], s.receivers, EOk)), Put(v))
    case Receive =>
      if |s.mails| == 0 then
        if wait.NoWait? then (s.(phase := s.phase[t := Outside]), Refused(t, ETimeout))
        else (Block(s, t, op, wait.Ticks?), Silent)
      else
        (s.(mails := s.mails[1..], senders := Rest(s.senders),
            phase := WakeFirst(s.phase[t := Outside], s.senders, EOk)), Took(s.mails[0]))
  }

  /** Every blocked thread becomes ready with an error. */
  function WakeAll(phase: Phases, status: Status): Phases {
    map t | t in phase :: match phase[t]
                          case Blocked(op, timed) => Woken(op, timed, status)
                          case p => p
  }

  predicate Enabled(s: State, e: Event) {
    match e
    case Begin(t, _, _) => PhaseOf(s.phase, t).Outside?
    case Again(t, _) => PhaseOf(s.phase, t).Woken?
    case Expire(t) => PhaseOf(s.phase, t).Blocked? && PhaseOf(s.phase, t).timed
    case Reset => true
  }

  function Step(s: State, e: Event): (State, Note)
    requires Enabled(s, e)
  {
    match e
    case Begin(t, op, wait) => Attempt(s, t, op, wait)
    case Again(t, left) =>
      var p := PhaseOf(s.phase, t);
      if p.status != EOk then (s.(phase := s.phase[t := Outside]), Refused(t, p.status))
      else Attempt(s, t, p.op, if !p.timed then Forever else if left then Ticks else NoWait)
    case Expire(t) =>
      var p := PhaseOf(s.phase, t);
      (s.(phase := s.phase[t := Woken(p.op, p.timed, ETimeout)],
          receivers := if p.op.Receive? then Removed(s.receivers, t) else s.receivers,
          senders := if p.op.Receive? then s.senders else Removed(s.senders, t)), Silent)
    case Reset =>
      (s.(phase := WakeAll(s.phase, EError), receivers := [], senders := [], mails := []), Emptied)
  }

  // ---------------------------------------------------------------- invariant

  /** The receivers (or senders) woken by a sender (or receiver) that have not yet
      looked at the mailbox again. */
  ghost function Pending(phase: Phases, receive: bool): set<Tid> {
    set t | t in phase && phase[t].Woken? && phase[t].status == EOk && phase[t].op.Receive? == receive
  }

  predicate BlockedFor(phase: Phases, t: Tid, receive: bool) {
    t in phase && phase[t].Blocked? && phase[t].op.Receive? == receive
  }

  ghost predicate ListOk(l: seq<Tid>, phase: Phases, receive: bool) {
    Distinct(l) && forall t :: t in l <==> BlockedFor(phase, t, receive)
  }

  /** No lost wake-up: whoever is blocked waits for no more than the threads already
      woken will use up. */
  ghost predicate NoLostWakeup(s: State) {
    (s.receivers != [] ==> |s.mails| <= |Pending(s.phase, true)|)
    && (s.senders != [] ==> s.size - |s.mails| <= |Pending(s.phase, false)|)
  }

  ghost predicate Inv(s: State) {
    |s.mails| <= s.size && ListOk(s.receivers, s.phase, true) && ListOk(s.senders, s.phase, false) && NoLostWakeup(s)
  }

  /** Both lists are served by priority, if the flag says so, and then by arrival. */
  ghost predicate Ordered(s: State) {
    InOrder(s.receivers, s.tickets, s.flag) && InOrder(s.senders, s.tickets, s.flag)
    && CameBefore(s.receivers, s.tickets, s.clock) && CameBefore(s.senders, s.tickets, s.clock)
  }

  ghost predicate Initial(s: State) {
    s.mails == [] && s.receivers == [] && s.senders == [] && s.phase == map[]
  }

  // ----------------------------------------------------------- phase changes

  predicate IsPending(p: Phase, receive: bool) {
    p.Woken? && p.status == EOk && p.op.Receive? == receive
  }

  lemma PendingUpdate(phase: Phases, t: Tid, p: Phase, receive: bool)
    ensures var a, b := Pending(phase, receive), Pending(phase[t := p], receive);
            b == (if IsPending(p, receive) then a + {t} else a - {t})
            && |b| == |a| + (if IsPending(p, receive) then 1 else 0)
                      - (if IsPending(PhaseOf(phase, t), receive) then 1 else 0)
  {
    var a, b := Pending(phase, receive), Pending(phase[t := p], receive);
    assert b == if IsPending(p, receive) then a + {t} else a - {t};
    assert t in a <==> IsPending(PhaseOf(phase, t), receive);
  }

  /** A phase change that neither blocks nor unblocks t keeps the lists exact. */
  lemma ListFrame(l: seq<Tid>, phase: Phases, t: Tid, p: Phase, receive: bool)
    requires ListOk(l, phase, receive)
    requires BlockedFor(phase, t, receive) <==> (p.Blocked? && p.op.Receive? == receive)
    ensures ListOk(l, phase[t := p], receive)
  {
    forall x ensures BlockedFor(phase[t := p], x, receive) <==> BlockedFor(phase, x, receive) { }
  }

  lemma ListAdd(l: seq<Tid>, phase: Phases, t: Tid, p: Phase, receive: bool, tickets: Tickets, flag: Flag)
    requires ListOk(l, phase, receive) && !BlockedFor(phase, t, receive) && p.Blocked? && p.op.Receive? == receive
    ensures ListOk(Suspended(l, tickets, flag, t), phase[t := p], receive)
  {
    SuspendedMembers(l, tickets, flag, t);
    hide Suspended;
    forall x ensures BlockedFor(phase[t := p], x, receive) <==> BlockedFor(phase, x, receive) || x == t { }
  }

  lemma ListRemove(l: seq<Tid>, phase: Phases, t: Tid, p: Phase, receive: bool)
    requires ListOk(l, phase, receive) && !p.Blocked?
    ensures ListOk(Removed(l, t), phase[t := p], receive)
  {
    RemovedMembers(l, t);
    hide Removed;
    forall x ensures BlockedFor(phase[t := p], x, receive) <==> BlockedFor(phase, x, receive) && x != t { }
  }

  lemma FirstOf(l: seq<Tid>)
    requires |l| > 0
    ensures Rest(l) == Removed(l, l[0])
  {
  }

  // -------------------------------------------------------------- every step

  /** A thread finds what it wants: it uses one unit up and wakes one thread of the
      other side. */
  lemma ExchangeKeeps(s: State, t: Tid, op: Op, s': State)
    requires Inv(s) && !PhaseOf(s.phase, t).Blocked?
    requires IsPending(PhaseOf(s.phase, t), op.Receive?) || !PhaseOf(s.phase, t).Woken?
    requires if op.Receive? then |s.mails| > 0 else |s.mails| < s.size
    requires s' == Attempt(s, t, op, Forever).0
    ensures Inv(s')
  {
    hide Suspended, Removed, Pending;
    var recv := op.Receive?;
    var out := s.phase[t := Outside];
    PendingUpdate(s.phase, t, Outside, true);
    PendingUpdate(s.phase, t, Outside, false);
    ListFrame(s.receivers, s.phase, t, Outside, true);
    ListFrame(s.senders, s.phase, t, Outside, false);
    var l := if recv then s.senders else s.receivers;
    if |l| > 0 {
      var w := l[0];
      assert w in l && BlockedFor(out, w, !recv);
      var p := Woken(out[w].op, out[w].timed, EOk);
      assert s'.phase == out[w := p];
      FirstOf(l);
      ListRemove(l, out, w, p, !recv);
      ListFrame(if recv then s.receivers else s.senders, out, w, p, recv);
      PendingUpdate(out, w, p, true);
      PendingUpdate(out, w, p, false);
    }
  }

  lemma BlockKeeps(s: State, t: Tid, op: Op, timed: bool)
    requires Inv(s) && !PhaseOf(s.phase, t).Blocked?
    requires IsPending(PhaseOf(s.phase, t), op.Receive?) || !PhaseOf(s.phase, t).Woken?
    requires if op.Receive? then |s.mails| == 0 else |s.mails| == s.size
    ensures Inv(Block(s, t, op, timed))
  {
    hide Suspended, Removed, Pending;
    var p := Blocked(op, timed);
    var recv := op.Receive?;
    PendingUpdate(s.phase, t, p, true);
    PendingUpdate(s.phase, t, p, false);
    ListAdd(if recv then s.receivers else s.senders, s.phase, t, p, recv, Block(s, t, op, timed).tickets, s.flag);
    ListFrame(if recv then s.senders else s.receivers, s.phase, t, p, !recv);
  }

  lemma LeaveKeeps(s: State, t: Tid)
    requires Inv(s) && !PhaseOf(s.phase, t).Blocked?
    requires !PhaseOf(s.phase, t).Woken? || PhaseOf(s.phase, t).status != EOk
             || (if PhaseOf(s.phase, t).op.Receive? then |s.mails| == 0 else |s.mails| == s.size)
    ensures Inv(s.(phase := s.phase[t := Outside]))
  {
    hide Pending;
    PendingUpdate(s.phase, t, Outside, true);
    PendingUpdate(s.phase, t, Outside, false);
    ListFrame(s.receivers, s.phase, t, Outside, true);
    ListFrame(s.senders, s.phase, t, Outside, false);
  }

  lemma AttemptKeeps(s: State, t: Tid, op: Op, wait: Wait)
    requires Inv(s) && !PhaseOf(s.phase, t).Blocked?
    requires IsPending(PhaseOf(s.phase, t), op.Receive?) || !PhaseOf(s.phase, t).Woken?
    ensures Inv(Attempt(s, t, op, wait).0)
  {
    hide Inv, Block;
    var stuck := if op.Receive? then |s.mails| == 0 else |s.mails| == s.size;
    if !stuck {
      assert |s.mails| <= s.size by { Bounded(s); }
      ExchangeKeeps(s, t, op, Attempt(s, t, op, wait).0);
    } else if wait.NoWait? {
      LeaveKeeps(s, t);
    } else {
      BlockKeeps(s, t, op, wait.Ticks?);
    }
  }

  lemma Bounded(s: State)
    requires Inv(s)
    ensures |s.mails| <= s.size
  {
  }

  lemma ExpireKeeps(s: State, t: Tid)
    requires Inv(s) && Enabled(s, Expire(t))
    ensures Inv(Step(s, Expire(t)).0)
  {
    hide Suspended, Removed, Pending;
    var p := PhaseOf(s.phase, t);
    var p' := Woken(p.op, p.timed, ETimeout);
    var recv := p.op.Receive?;
    PendingUpdate(s.phase, t, p', true);
    PendingUpdate(s.phase, t, p', false);
    ListRemove(if recv then s.receivers else s.senders, s.phase, t, p', recv);
    ListFrame(if recv then s.senders else s.receivers, s.phase, t, p', !recv);
    var l := if recv then s.receivers else s.senders;
    assert t in l;
  }

  lemma ResetKeeps(s: State)
    requires Inv(s)
    ensures Inv(Step(s, Reset).0)
  {
  }

  /** Every atomic section keeps the invariant. */
  lemma StepKeeps(s: State, e: Event)
    requires Inv(s) && Enabled(s, e)
    ensures Inv(Step(s, e).0)
  {
    match e
    case Begin(t, op, wait) => AttemptKeeps(s, t, op, wait);
    case Again(t, left) =>
      var p := PhaseOf(s.phase, t);
      if p.status != EOk {
        LeaveKeeps(s, t);
      } else {
        AttemptKeeps(s, t, p.op, if !p.timed then Forever else if left then Ticks else NoWait);
      }
    case Expire(t) => ExpireKeeps(s, t);
    case Reset => ResetKeeps(s);
  }

  lemma BlockOrdered(s: State, t: Tid, op: Op, timed: bool)
    requires Ordered(s) && t !in s.receivers && t !in s.senders && Distinct(s.receivers) && Distinct(s.senders)
    ensures Ordered(Block(s, t, op, timed))
  {
    hide InOrder, Suspended;
    var s' := Block(s, t, op, timed);
    NewTicket(s.receivers, s.tickets, s.flag, t, s'.tickets[t]);
    NewTicket(s.senders, s.tickets, s.flag, t, s'.tickets[t]);
    var l := if op.Receive? then s.receivers else s.senders;
    assert CameBefore(l, s.tickets, s.clock);
    forall i | 0 <= i < |l| ensures Arrival(s'.tickets, l[i]) < s.clock {
      assert l[i] in l && l[i] != t;
      assert Arrival(s'.tickets, l[i]) == Arrival(s.tickets, l[i]);
    }
    SuspendedInOrder(l, s'.tickets, s.flag, t);
    SuspendedMembers(l, s'.tickets, s.flag, t);
  }

  lemma RestOrdered(l: seq<Tid>, tickets: Tickets, flag: Flag, clock: nat)
    requires InOrder(l, tickets, flag) && CameBefore(l, tickets, clock)
    ensures InOrder(Rest(l), tickets, flag) && CameBefore(Rest(l), tickets, clock)
  {
    if |l| > 0 {
      FirstOf(l);
      RemovedInOrder(l, tickets, flag, l[0]);
    }
  }

  lemma AttemptOrdered(s: State, t: Tid, op: Op, wait: Wait)
    requires Inv(s) && Ordered(s) && !PhaseOf(s.phase, t).Blocked?
    ensures Ordered(Attempt(s, t, op, wait).0)
  {
    hide InOrder, Block, Pending, CameBefore;
    assert !BlockedFor(s.phase, t, true) && !BlockedFor(s.phase, t, false);
    assert t !in s.receivers && t !in s.senders;
    BlockOrdered(s, t, op, wait.Ticks?);
    RestOrdered(s.receivers, s.tickets, s.flag, s.clock);
    RestOrdered(s.senders, s.tickets, s.flag, s.clock);
  }

  /** Every atomic section keeps the lists in order. */
  lemma StepOrdered(s: State, e: Event)
    requires Inv(s) && Ordered(s) && Enabled(s, e)
    ensures Ordered(Step(s, e).0)
  {
    hide InOrder, Inv, Attempt;
    match e
    case Begin(t, op, wait) => AttemptOrdered(s, t, op, wait);
    case Again(t, left) =>
      var p := PhaseOf(s.phase, t);
      if p.status == EOk {
        AttemptOrdered(s, t, p.op, if !p.timed then Forever else if left then Ticks else NoWait);
      }
    case Expire(t) =>
      RemovedInOrder(s.receivers, s.tickets, s.flag, t);
      RemovedInOrder(s.senders, s.tickets, s.flag, t);
    case Reset =>
      EmptyInOrder(s.tickets, s.flag);
  }

  lemma EmptyInOrder(tickets: Tickets, flag: Flag)
    ensures InOrder([], tickets, flag)
  {
  }

  // ------------------------------------------------------------- whole runs

  /** A run: every event is enabled when it happens. */
  predicate Runs(s: State, es: seq<Event>)
    decreases |es|
  {
    |es| == 0 || (Enabled(s, es[0]) && Runs(Step(s, es[0]).0, es[1..]))
  }

  function Last(s: State, es: seq<Event>): State
    requires Runs(s, es)
    decreases |es|
  {
    if |es| == 0 then s else Last(Step(s, es[0]).0, es[1..])
  }

  function Notes(s: State, es: seq<Event>): seq<Note>
    requires Runs(s, es)
    decreases |es|
  {
    if |es| == 0 then [] else [Step(s, es[0]).1] + Notes(Step(s, es[0]).0, es[1..])
  }

  lemma {:induction false} RunKeeps(s: State, es: seq<Event>)
    requires Inv(s) && Ordered(s) && Runs(s, es)
    ensures Inv(Last(s, es)) && Ordered(Last(s, es))
    decreases |es|
  {
    hide Inv, Ordered, Step;
    if |es| > 0 {
      StepKeeps(s, es[0]);
      StepOrdered(s, es[0]);
      RunKeeps(Step(s, es[0]).0, es[1..]);
    }
  }

  /** In every reachable state no wake-up is lost; once all woken threads have looked
      at the mailbox, a blocked receiver means it is empty and a blocked sender that
      it is full, so both cannot be blocked at once. */
  lemma NoWakeupLost(s: State, es: seq<Event>)
    requires Initial(s) && Runs(s, es)
    ensures NoLostWakeup(Last(s, es)) && Ordered(Last(s, es))
    ensures var e := Last(s, es);
            Pending(e.phase, true) == {} && e.receivers != [] ==> e.mails == []
    ensures var e := Last(s, es);
            Pending(e.phase, false) == {} && e.senders != [] ==> |e.mails| == e.size
  {
    RunKeeps(s, es);
  }

  /** The values put, and the values taken, since the mailbox was last emptied. */
  function PutSince(notes: seq<Note>, before: seq<Word>): seq<Word> {
    if |notes| == 0 then before
    else match notes[0]
      case Put(v) => PutSince(notes[1..], before + [v])
      case Emptied => PutSince(notes[1..], [])
      case _ => PutSince(notes[1..], before)
  }

  function TookSince(notes: seq<Note>, before: seq<Word>): seq<Word> {
    if |notes| == 0 then before
    else match notes[0]
      case Took(v) => TookSince(notes[1..], before + [v])
      case Emptied => TookSince(notes[1..], [])
      case _ => TookSince(notes[1..], before)
  }

  lemma StepMails(s: State, e: Event)
    requires Enabled(s, e)
    ensures var (s', n) := Step(s, e);
            match n
            case Put(v) => s'.mails == s.mails + [v]
            case Took(v) => s.mails == [v] + s'.mails
            case Emptied => s'.mails == []
            case _ => s'.mails == s.mails
  {
  }

  lemma {:induction false} FifoFrom(s: State, es: seq<Event>, put: seq<Word>, took: seq<Word>)
    requires Runs(s, es) && put == took + s.mails
    ensures PutSince(Notes(s, es), put) == TookSince(Notes(s, es), took) + Last(s, es).mails
    decreases |es|
  {
    if |es| > 0 {
      hide Step;
      var (s', n) := Step(s, es[0]);
      StepMails(s, es[0]);
      var notes := Notes(s, es);
      assert notes == [n] + Notes(s', es[1..]);
      match n
      case Put(v) => assert put + [v] == took + s'.mails; FifoFrom(s', es[1..], put + [v], took);
      case Took(v) => assert put == (took + [v]) + s'.mails; FifoFrom(s', es[1..], put, took + [v]);
      case Emptied => FifoFrom(s', es[1..], [], []);
      case _ => FifoFrom(s', es[1..], put, took);
    }
  }

  /** In every run the values taken are the values put, in order, and what is still
      in the mailbox is the rest. */
  lemma FirstInFirstOut(s: State, es: seq<Event>)
    requires Initial(s) && Runs(s, es)
    ensures PutSince(Notes(s, es), []) == TookSince(Notes(s, es), []) + Last(s, es).mails
  {
    FifoFrom(s, es, [], []);
  }

  // ------------------------------------------------------------- the answers

  /** The end of a wait. */
  predicate WokenWith(p: Phase, p': Phase, status: Status) {
    p.Blocked? && p' == Woken(p.op, p.timed, status)
  }

  /** The threads of both states are in the same phases, but for t and but for the first of
      list l, which is woken without an error. */
  ghost predicate OnlyFirstWoken(phase: Phases, phase': Phases, t: Tid, l: seq<Tid>) {
    forall u :: u != t ==>
                  if |l| > 0 && u == l[0] then WokenWith(PhaseOf(phase, u), PhaseOf(phase', u), EOk)
                  else PhaseOf(phase', u) == PhaseOf(phase, u)
  }

  /** What a thread that looks at the mailbox is answered: its mail is put, or the first
      mail taken, if there is room, or a mail; else it is refused, or waits, with its time
      running if it has one. */
  ghost predicate Looked(s: State, t: Tid, op: Op, wait: Wait, s': State, note: Note) {
    if (if op.Receive? then s.mails == [] else |s.mails| == s.size) then
      s'.mails == s.mails
      && if wait.NoWait? then
           note == Refused(t, if op.Receive? then ETimeout else EFull) && s'.phase == s.phase[t := Outside]
         else
           note == Silent && s'.phase == s.phase[t := Blocked(op, wait.Ticks?)]
    else
      (if op.Receive? then s.mails == [s.mails[0]] + s'.mails && note == Took(s.mails[0])
       else s'.mails == s.mails + [op.value] && note == Put(op.value))
      && PhaseOf(s'.phase, t) == Outside
      && OnlyFirstWoken(s.phase, s'.phase, t, if op.Receive? then s.senders else s.receivers)
  }

  /** What a section answers. */
  ghost predicate Answered(s: State, e: Event, s': State, note: Note) {
    match e
    case Begin(t, op, wait) => Looked(s, t, op, wait, s', note)
    case Again(t, left) =>
      t in s.phase && s.phase[t].Woken?
      && if s.phase[t].status != EOk then
           note == Refused(t, s.phase[t].status) && s'.mails == s.mails && s'.phase == s.phase[t := Outside]
         else
           Looked(s, t, s.phase[t].op, if !s.phase[t].timed then Forever else if left then Ticks else NoWait, s', note)
    case Expire(t) =>
      t in s.phase && s.phase[t].Blocked? && s'.mails == s.mails && note == Silent
      && s'.phase == s.phase[t := Woken(s.phase[t].op, s.phase[t].timed, ETimeout)]
    case Reset =>
      s'.mails == [] && note == Emptied
      && forall t :: if t in s.receivers || t in s.senders
                     then WokenWith(PhaseOf(s.phase, t), PhaseOf(s'.phase, t), EError)
                     else PhaseOf(s'.phase, t) == PhaseOf(s.phase, t)
  }

  lemma LookAnswers(s: State, t: Tid, op: Op, wait: Wait)
    requires Inv(s) && !PhaseOf(s.phase, t).Blocked?
    ensures var (s', note) := Attempt(s, t, op, wait); Looked(s, t, op, wait, s', note)
  {
    hide Suspended, Pending;
    var l := if op.Receive? then s.senders else s.receivers;
    if |l| > 0 {
      assert l[0] in l && BlockedFor(s.phase, l[0], !op.Receive?);
    }
  }

  lemma StepAnswers(s: State, e: Event)
    requires Inv(s) && Enabled(s, e)
    ensures var (s', note) := Step(s, e); Answered(s, e, s', note)
  {
    hide Attempt, Looked, Pending, Suspended, Removed;
    match e
    case Begin(t, op, wait) => LookAnswers(s, t, op, wait);
    case Again(t, left) =>
      var p := PhaseOf(s.phase, t);
      LookAnswers(s, t, p.op, if !p.timed then Forever else if left then Ticks else NoWait);
    case Expire(t) =>
    case Reset =>
      AllListed(s);
      forall t | t in s.receivers || t in s.senders ensures t in s.phase && s.phase[t].Blocked? {
        assert BlockedFor(s.phase, t, true) || BlockedFor(s.phase, t, false);
      }
  }

  // ---------------------------------------------------------------- the object

  /** The k-th word of a ring that starts at `first`. */
  function Slot(first: nat, k: nat, size: nat): nat {
    if first + k < size then first + k else first + k - size
  }

  /** n words of a ring from `first` on. */
  function Window(ring: seq<Word>, first: nat, n: nat): (w: seq<Word>)
    requires n <= |ring| && (n > 0 ==> first < |ring|)
    ensures |w| == n
  {
    seq(n, k requires 0 <= k < n => ring[Slot(first, k, |ring|)])
  }

  /** A word stored behind the window lengthens it. */
  lemma WindowGrows(ring: seq<Word>, first: nat, n: nat, v: Word)
    requires n < |ring| && first < |ring|
    ensures Window(ring[Slot(first, n, |ring|) := v], first, n + 1) == Window(ring, first, n) + [v]
  {
  }

  /** The oldest word dropped. */
  lemma WindowMoves(ring: seq<Word>, first: nat, n: nat)
    requires 0 < n <= |ring| && first < |ring|
    ensures Window(ring, first, n) == [ring[first]] + Window(ring, Slot(first, 1, |ring|), n - 1)
  {
    var w, w' := Window(ring, first, n), Window(ring, Slot(first, 1, |ring|), n - 1);
    forall k | 0 < k < n ensures w[k] == w'[k - 1] { }
  }

  class Box {
    const size: nat
    const flag: Flag
    const pool: array<Word>
    var entry: nat
    var inOffset: nat
    var outOffset: nat
    var receivers: seq<Tid>
    var senders: seq<Tid>
    /** The threads, as far as the mailbox is concerned. */
    var phase: Phases
    var priority: map<Tid, nat>
    var tickets: Tickets
    var clock: nat

    ghost predicate Valid()
      reads this, pool
    {
      pool.Length == size && entry <= size
      && (if size == 0 then outOffset == 0 else outOffset < size)
      && inOffset == Slot(outOffset, entry, size)
    }

    /** The mails, oldest first. */
    ghost function Mails(): (m: seq<Word>)
      requires Valid()
      reads this, pool
      ensures |m| == entry
    {
      Window(pool[..], outOffset, entry)
    }

    ghost function View(): State
      requires Valid()
      reads this, pool
    {
      State(size, flag, Mails(), receivers, senders, phase, priority, tickets, clock)
    }

    constructor (n: nat, f: Flag)
      ensures Valid() && fresh(pool) && size == n && flag == f && Initial(View())
    {
      size, flag := n, f;
      pool := new Word[n];
      entry, inOffset, outOffset := 0, 0, 0;
      receivers, senders, phase, priority, tickets, clock := [], [], map[], map[], map[], 0;
    }

    /** msg_pool[in_offset] = value, and the offset and the count move on. */
    method Store(v: Word)
      requires Valid() && entry < size
      modifies pool, `inOffset, `entry
      ensures Valid() && Mails() == old(Mails()) + [v]
    {
      hide Window;
      WindowGrows(pool[..], outOffset, entry, v);
      pool[inOffset] := v;
      inOffset := inOffset + 1;
      if inOffset >= size {
        inOffset := 0;
      }
      entry := entry + 1;
    }

    method Fetch() returns (v: Word)
      requires Valid() && entry > 0
      modifies `outOffset, `entry
      ensures Valid() && old(Mails()) == [v] + Mails()
    {
      hide Window;
      WindowMoves(pool[..], outOffset, entry);
      v := pool[outOffset];
      outOffset := outOffset + 1;
      if outOffset >= size {
        outOffset := 0;
      }
      entry := entry - 1;
    }

    /** rt_ipc_list_suspend on one of the two lists. */
    method SuspendOn(t: Tid, op: Op, timed: bool)
      requires Valid()
      modifies `receivers, `senders, `phase, `tickets, `clock
      ensures Valid() && View() == Block(old(View()), t, op, timed)
    {
      hide Window, Suspended;
      tickets := tickets[t := Ticket(if t in priority then priority[t] else 0, clock)];
      clock := clock + 1;
      phase := phase[t := Blocked(op, timed)];
      if op.Receive? {
        receivers := Suspend(receivers, tickets, flag, t);
      } else {
        senders := Suspend(senders, tickets, flag, t);
      }
    }

    /** rt_ipc_list_resume */
    method Resume(l: seq<Tid>)
      modifies `phase
      ensures phase == WakeFirst(old(phase), l, EOk)
    {
      if |l| > 0 && l[0] in phase && phase[l[0]].Blocked? {
        phase := phase[l[0] := Woken(phase[l[0]].op, phase[l[0]].timed, EOk)];
      }
    }

    /** One turn of the loop of rt_mb_send_wait, up to where it enables interrupts. */
    method SendSection(t: Tid, v: Word, wait: Wait) returns (note: Note)
      requires Valid()
      modifies this, pool
      ensures Valid() && (View(), note) == Attempt(old(View()), t, Send(v), wait)
    {
      hide Window, Block, WakeFirst;
      if entry == size {
        if wait.NoWait? {
          phase := phase[t := Outside];
          return Refused(t, EFull);
        }
        SuspendOn(t, Send(v), wait.Ticks?);
        return Silent;
      }
      Store(v);
      phase := phase[t := Outside];
      Resume(receivers);
      receivers := Rest(receivers);
      note := Put(v);
    }

    /** One turn of the loop of rt_mb_recv. */
    method ReceiveSection(t: Tid, wait: Wait) returns (note: Note)
      requires Valid()
      modifies this, pool
      ensures Valid() && (View(), note) == Attempt(old(View()), t, Receive, wait)
    {
      hide Window, Block, WakeFirst;
      if entry == 0 {
        if wait.NoWait? {
          phase := phase[t := Outside];
          return Refused(t, ETimeout);
        }
        SuspendOn(t, Receive, wait.Ticks?);
        return Silent;
      }
      ghost var m := Mails();
      var v := Fetch();
      assert m[1..] == Mails();
      phase := phase[t := Outside];
      Resume(senders);
      senders := Rest(senders);
      note := Took(v);
    }

    method Section(t: Tid, op: Op, wait: Wait) returns (note: Note)
      requires Valid()
      modifies this, pool
      ensures Valid() && (View(), note) == Attempt(old(View()), t, op, wait)
    {
      match op
      case Send(v) => note := SendSection(t, v, wait);
      case Receive => note := ReceiveSection(t, wait);
    }

    /** A woken thread goes on. */
    method Continue(t: Tid, left: bool) returns (note: Note)
      requires Valid() && Enabled(View(), Again(t, left))
      modifies this, pool
      ensures Valid() && (View(), note) == Step(old(View()), Again(t, left))
    {
      var p := phase[t];
      if p.status != EOk {
        phase := phase[t := Outside];
        return Refused(t, p.status);
      }
      note := Section(t, p.op, if !p.timed then Forever else if left then Ticks else NoWait);
    }

    /** rt_thread_timeout of a thread blocked here. */
    method TimedOut(t: Tid)
      requires Valid() && Enabled(View(), Expire(t))
      modifies this
      ensures Valid() && (View(), Silent) == Step(old(View()), Expire(t))
    {
      var p := phase[t];
      if p.op.Receive? {
        receivers := Removed(receivers, t);
      } else {
        senders := Removed(senders, t);
      }
      phase := phase[t := Woken(p.op, p.timed, ETimeout)];
    }

    /** rt_ipc_list_resume_all */
    method ResumeAll(l: seq<Tid>)
      modifies `phase
      ensures forall t :: t in phase <==> t in old(phase)
      ensures forall t :: t in phase ==>
                phase[t] == if t in l && old(phase)[t].Blocked?
                            then Woken(old(phase)[t].op, old(phase)[t].timed, EError) else old(phase)[t]
    {
      var k := 0;
      while k < |l|
        invariant 0 <= k <= |l|
        invariant forall t :: t in phase <==> t in old(phase)
        invariant forall t :: t in phase ==>
                    phase[t] == if t in l[..k] && old(phase)[t].Blocked?
                                then Woken(old(phase)[t].op, old(phase)[t].timed, EError) else old(phase)[t]
      {
        var t := l[k];
        assert l[..k + 1] == l[..k] + [t];
        if t in phase && phase[t].Blocked? {
          phase := phase[t := Woken(phase[t].op, phase[t].timed, EError)];
        }
        k := k + 1;
      }
      assert l[..k] == l;
    }

    /** rt_mb_control with RT_IPC_CMD_RESET */
    method ResetBox()
      requires Valid() && Inv(View())
      modifies this
      ensures Valid() && (View(), Emptied) == Step(old(View()), Reset)
    {
      hide Window;
      ghost var s := View();
      ResumeAll(receivers);
      ResumeAll(senders);
      AllListed(s);
      assert phase == WakeAll(s.phase, EError);
      receivers, senders := [], [];
      entry, inOffset, outOffset := 0, 0, 0;
    }
  }

  lemma AllListed(s: State)
    requires Inv(s)
    ensures forall t :: t in s.phase && s.phase[t].Blocked? ==> t in s.receivers || t in s.senders
  {
    forall t | t in s.phase && s.phase[t].Blocked? ensures t in s.receivers || t in s.senders {
      assert BlockedFor(s.phase, t, s.phase[t].op.Receive?);
    }
  }
}

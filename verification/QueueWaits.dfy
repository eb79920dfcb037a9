/** The threads that wait for a message (ipc.c, rt_mq_recv): a message queue together with
    its list of blocked receivers. The loop of rt_mq_recv is that of rt_mb_recv, so the
    waiting side is that of a mailbox in which the messages are only counted and which is
    never full; a sender wakes one receiver in the section that links its cell. */
module QueueWaits {
  import opened Basics
  import opened WaitList
  import MQ = MessageQueue
  import MB = Mailbox

  datatype State = State(q: MQ.State, w: MB.State)

  datatype Event =
    | Reserve(t: Tid)
    | Fill(t: Tid, buffer: seq<MQ.Byte>, urgent: bool)
    | Link(t: Tid)
    | Receive(t: Tid, wait: MB.Wait)
    | Again(t: Tid, left: bool)
    | Expire(t: Tid)
    | Recycle(t: Tid)
    | Reset

  predicate Enabled(s: State, e: Event) {
    match e
    case Reserve(t) => MQ.Enabled(s.q, MQ.Reserve(t)) && MB.PhaseOf(s.w.phase, t).Outside?
    case Fill(t, buffer, urgent) => MQ.Enabled(s.q, MQ.Fill(t, buffer, urgent))
    case Link(t) => MQ.Enabled(s.q, MQ.Link(t)) && MB.PhaseOf(s.w.phase, t).Outside?
    case Receive(t, wait) => t !in s.q.flight && MB.PhaseOf(s.w.phase, t).Outside?
    case Again(t, left) => t !in s.q.flight && MB.Enabled(s.w, MB.Again(t, left))
    case Expire(t) => MB.Enabled(s.w, MB.Expire(t))
    case Recycle(t) => MQ.Enabled(s.q, MQ.Recycle(t))
    case Reset => true
  }

  /** The waiting side with room for one more message. */
  function Roomy(s: State): MB.State {
    s.w.(size := |s.w.mails| + 1)
  }

  /** A receiver takes the first message if there is one. */
  function TakeFirst(q: MQ.State, t: Tid): MQ.State {
    if MQ.Enabled(q, MQ.Pop(t)) then MQ.Step(q, MQ.Pop(t)).0 else q
  }

  function Step(s: State, e: Event): State
    requires Enabled(s, e)
  {
    match e
    case Reserve(t) => s.(q := MQ.Step(s.q, MQ.Reserve(t)).0)
    case Fill(t, buffer, urgent) => s.(q := MQ.Step(s.q, MQ.Fill(t, buffer, urgent)).0)
    case Link(t) => State(MQ.Step(s.q, MQ.Link(t)).0, MB.Step(Roomy(s), MB.Begin(t, MB.Send(0), MB.NoWait)).0)
    case Receive(t, wait) => State(TakeFirst(s.q, t), MB.Step(s.w, MB.Begin(t, MB.Receive, wait)).0)
    case Again(t, left) =>
      State(if MB.PhaseOf(s.w.phase, t).status == MB.EOk then TakeFirst(s.q, t) else s.q,
            MB.Step(s.w, MB.Again(t, left)).0)
    case Expire(t) => s.(w := MB.Step(s.w, MB.Expire(t)).0)
    case Recycle(t) => s.(q := MQ.Step(s.q, MQ.Recycle(t)).0)
    case Reset => State(MQ.Step(s.q, MQ.Reset).0, MB.Step(s.w, MB.Reset).0)
  }

  // --------------------------------------------------------------- invariant

  /** Nobody waits to send. */
  ghost predicate ReceiversOnly(w: MB.State) {
    w.senders == [] && forall t :: t in w.phase && !w.phase[t].Outside? ==> w.phase[t].op.Receive?
  }

  /** Both sides count the same messages. */
  ghost predicate Inv(s: State) {
    MQ.Inv(s.q) && MB.Inv(s.w) && MB.Ordered(s.w) && ReceiversOnly(s.w) && |s.w.mails| == s.q.entry
  }

  ghost predicate Initial(s: State) {
    MQ.Inv(s.q) && s.q.entry == 0 && MB.Initial(s.w)
  }

  lemma RoomyKeeps(s: State)
    requires Inv(s)
    ensures MB.Inv(Roomy(s)) && MB.Ordered(Roomy(s)) && ReceiversOnly(Roomy(s))
  {
    hide MQ.Inv;
  }

  lemma Entries(q: MQ.State)
    requires MQ.Inv(q)
    ensures q.entry == |q.queue|
  {
    hide MQ.Chain, MQ.Partition, MQ.ContentOk;
  }

  /** The count after each kind of section of the queue. */
  lemma QueueCounts(q: MQ.State, e: MQ.Event)
    requires MQ.Inv(q) && MQ.Enabled(q, e)
    ensures var q' := MQ.Step(q, e).0;
            MQ.Inv(q')
            && q'.entry == match e
                           case Link(_) => q.entry + 1
                           case Pop(_) => q.entry - 1
                           case Reset => 0
                           case _ => q.entry
  {
    MQ.StepKeeps(q, e);
    hide MQ.Inv;
    Entries(q);
    Entries(MQ.Step(q, e).0);
    if e.Reset? { Emptied(q); }
  }

  lemma {:induction false} Emptied(q: MQ.State)
    ensures MQ.Drained(q).queue == []
    decreases |q.queue|
  {
    if |q.queue| > 0 { Emptied(MQ.DrainStep(q)); }
  }

  lemma TakeCounts(q: MQ.State, t: Tid)
    requires MQ.Inv(q) && t !in q.flight
    ensures MQ.Inv(TakeFirst(q, t)) && TakeFirst(q, t).entry == if q.entry > 0 then q.entry - 1 else 0
  {
    hide MQ.Inv;
    Entries(q);
    if MQ.Enabled(q, MQ.Pop(t)) { QueueCounts(q, MQ.Pop(t)); }
  }

  /** A receive or the return from a wait, on the waiting side. */
  lemma WaitCounts(w: MB.State, e: MB.Event)
    requires MB.Inv(w) && MB.Ordered(w) && ReceiversOnly(w) && MB.Enabled(w, e)
    requires e.Begin? ==> e.op.Receive? || |w.mails| < w.size
    ensures var w' := MB.Step(w, e).0;
            MB.Inv(w') && MB.Ordered(w') && ReceiversOnly(w')
            && |w'.mails| == match e
                             case Begin(_, op, _) =>
                               if op.Send? then |w.mails| + 1 else if |w.mails| > 0 then |w.mails| - 1 else 0
                             case Again(t, _) =>
                               if MB.PhaseOf(w.phase, t).status == MB.EOk && |w.mails| > 0 then |w.mails| - 1
                               else |w.mails|
                             case Expire(_) => |w.mails|
                             case Reset => 0
  {
    MB.StepKeeps(w, e);
    MB.StepOrdered(w, e);
    hide MB.Inv, MB.Ordered, Suspended;
    NoSenders(w, e);
  }

  lemma NoSenders(w: MB.State, e: MB.Event)
    requires ReceiversOnly(w) && MB.Enabled(w, e) && (e.Begin? ==> e.op.Receive? || |w.mails| < w.size)
    ensures ReceiversOnly(MB.Step(w, e).0)
  {
    hide Suspended;
  }

  /** Every section keeps the cells, the links and the waiting receivers in order. */
  lemma StepKeeps(s: State, e: Event)
    requires Inv(s) && Enabled(s, e)
    ensures Inv(Step(s, e))
  {
    hide MQ.Inv, MB.Inv, MB.Ordered, ReceiversOnly, MQ.Step, MB.Step, TakeFirst;
    match e {
      case Reserve(t) => QueueCounts(s.q, MQ.Reserve(t));
      case Fill(t, buffer, urgent) => QueueCounts(s.q, MQ.Fill(t, buffer, urgent));
      case Link(t) =>
        QueueCounts(s.q, MQ.Link(t));
        RoomyKeeps(s);
        WaitCounts(Roomy(s), MB.Begin(t, MB.Send(0), MB.NoWait));
      case Receive(t, wait) =>
        TakeCounts(s.q, t);
        WaitCounts(s.w, MB.Begin(t, MB.Receive, wait));
      case Again(t, left) =>
        TakeCounts(s.q, t);
        WaitCounts(s.w, MB.Again(t, left));
      case Expire(t) => WaitCounts(s.w, MB.Expire(t));
      case Recycle(t) => QueueCounts(s.q, MQ.Recycle(t));
      case Reset =>
        QueueCounts(s.q, MQ.Reset);
        WaitCounts(s.w, MB.Reset);
    }
  }

  // ------------------------------------------------------------- the answers

  /** A receiver that looks takes the first message; if there is none it returns, or waits
      with its time running if it has one. Nobody else is touched. */
  ghost predicate Looked(s: State, t: Tid, wait: MB.Wait, s': State) {
    if MQ.Queued(s.q) == [] then
      s'.q == s.q
      && s'.w.phase == s.w.phase[t := if wait.NoWait? then MB.Outside else MB.Blocked(MB.Receive, wait.Ticks?)]
    else
      t in s'.q.flight && s'.q.flight[t].Popped?
      && MQ.Queued(s.q) == [s'.q.flight[t].message] + MQ.Queued(s'.q)
      && MB.PhaseOf(s'.w.phase, t).Outside? && MB.OnlyFirstWoken(s.w.phase, s'.w.phase, t, [])
  }

  /** What a section answers and whom it wakes. */
  ghost predicate Answered(s: State, e: Event, s': State) {
    match e
    case Reserve(_) => s'.w == s.w && MQ.Queued(s'.q) == MQ.Queued(s.q)
    case Fill(_, _, _) => s'.w == s.w && MQ.Queued(s'.q) == MQ.Queued(s.q)
    case Recycle(_) => s'.w == s.w && MQ.Queued(s'.q) == MQ.Queued(s.q)
    case Link(t) =>
      t in s.q.flight && s.q.flight[t].Filled?
      && (var m := s.q.flight[t].message;
          MQ.Queued(s'.q) == if s.q.flight[t].urgent then [m] + MQ.Queued(s.q) else MQ.Queued(s.q) + [m])
      && MB.PhaseOf(s'.w.phase, t).Outside? && MB.OnlyFirstWoken(s.w.phase, s'.w.phase, t, s.w.receivers)
    case Receive(t, wait) => Looked(s, t, wait, s')
    case Again(t, left) =>
      t in s.w.phase && s.w.phase[t].Woken?
      && if s.w.phase[t].status != MB.EOk then s'.q == s.q && s'.w.phase == s.w.phase[t := MB.Outside]
         else
           Looked(s, t, if !s.w.phase[t].timed then MB.Forever else if left then MB.Ticks else MB.NoWait, s')
    case Expire(t) =>
      t in s.w.phase && s.w.phase[t].Blocked? && s'.q == s.q
      && s'.w.phase == s.w.phase[t := MB.Woken(MB.Receive, s.w.phase[t].timed, MB.ETimeout)]
    case Reset =>
      MQ.Queued(s'.q) == []
      && forall t :: if t in s.w.receivers
                     then MB.WokenWith(MB.PhaseOf(s.w.phase, t), MB.PhaseOf(s'.w.phase, t), MB.EError)
                     else MB.PhaseOf(s'.w.phase, t) == MB.PhaseOf(s.w.phase, t)
  }

  /** The messages, counted on both sides. */
  lemma SameCount(s: State)
    requires Inv(s)
    ensures |MQ.Queued(s.q)| == |s.w.mails| == s.q.entry == |s.q.queue|
  {
    hide MQ.Inv;
    Entries(s.q);
  }

  lemma LookAnswers(s: State, t: Tid, e: MB.Event, wait: MB.Wait)
    requires Inv(s) && t !in s.q.flight && MB.Enabled(s.w, e) && (e.Begin? || e.Again?) && e.t == t
    requires e.Begin? ==> e.op.Receive? && e.wait == wait
    requires e.Again? ==> MB.PhaseOf(s.w.phase, t).status == MB.EOk
                          && var timed := MB.PhaseOf(s.w.phase, t).timed;
                             wait == if !timed then MB.Forever else if e.left then MB.Ticks else MB.NoWait
    ensures Looked(s, t, wait, State(TakeFirst(s.q, t), MB.Step(s.w, e).0))
  {
    SameCount(s);
    MB.StepAnswers(s.w, e);
    hide MQ.Inv, MQ.Step, MB.Step, MB.Inv, MB.Ordered;
    if MQ.Enabled(s.q, MQ.Pop(t)) {
      MQ.StepRefines(s.q, MQ.Pop(t));
      Popped(s.q, t);
    }
  }

  lemma Popped(q: MQ.State, t: Tid)
    requires MQ.Enabled(q, MQ.Pop(t))
    ensures var (q', note) := MQ.Step(q, MQ.Pop(t));
            t in q'.flight && q'.flight[t].Popped? && note == MQ.Got(q'.flight[t].message)
  {
  }

  lemma StepAnswers(s: State, e: Event)
    requires Inv(s) && Enabled(s, e)
    ensures Answered(s, e, Step(s, e))
  {
    hide MQ.Inv, MQ.Step, MB.Step, MB.Inv, MB.Ordered, TakeFirst, Looked, MB.OnlyFirstWoken;
    match e {
      case Reserve(t) => Quiet(s.q, MQ.Reserve(t));
      case Fill(t, buffer, urgent) => Quiet(s.q, MQ.Fill(t, buffer, urgent));
      case Recycle(t) => Quiet(s.q, MQ.Recycle(t));
      case Link(t) => LinkAnswers(s, t);
      case Receive(t, wait) => LookAnswers(s, t, MB.Begin(t, MB.Receive, wait), wait);
      case Again(t, left) => AgainAnswers(s, t, left);
      case Expire(t) => MB.StepAnswers(s.w, MB.Expire(t));
      case Reset => ResetAnswers(s);
    }
  }

  lemma AgainAnswers(s: State, t: Tid, left: bool)
    requires Inv(s) && Enabled(s, Again(t, left))
    ensures Answered(s, Again(t, left), Step(s, Again(t, left)))
  {
    hide MQ.Inv, MQ.Step, MB.Step, MB.Inv, MB.Ordered, TakeFirst, Looked, MB.Looked;
    var p := MB.PhaseOf(s.w.phase, t);
    if p.status == MB.EOk {
      LookAnswers(s, t, MB.Again(t, left), if !p.timed then MB.Forever else if left then MB.Ticks else MB.NoWait);
    } else {
      MB.StepAnswers(s.w, MB.Again(t, left));
    }
  }

  lemma LinkAnswers(s: State, t: Tid)
    requires Inv(s) && Enabled(s, Link(t))
    ensures Answered(s, Link(t), Step(s, Link(t)))
  {
    RoomyKeeps(s);
    MB.StepAnswers(Roomy(s), MB.Begin(t, MB.Send(0), MB.NoWait));
    MQ.StepRefines(s.q, MQ.Link(t));
    Linked(s.q, t);
    hide MQ.Inv, MQ.Step, MB.Step, MB.Inv, MB.Ordered, MB.OnlyFirstWoken;
  }

  lemma Linked(q: MQ.State, t: Tid)
    requires MQ.Enabled(q, MQ.Link(t))
    ensures MQ.Step(q, MQ.Link(t)).1 == MQ.Sent(q.flight[t].message, q.flight[t].urgent)
  {
  }

  /** The sections of the queue that link or unlink no cell, and its reset. */
  lemma Quiet(q: MQ.State, e: MQ.Event)
    requires MQ.Inv(q) && MQ.Enabled(q, e) && !e.Link? && !e.Pop?
    ensures MQ.Queued(MQ.Step(q, e).0) == if e.Reset? then [] else MQ.Queued(q)
  {
    MQ.StepRefines(q, e);
    hide MQ.Inv, MQ.Queued;
  }

  lemma ResetAnswers(s: State)
    requires Inv(s)
    ensures Answered(s, Reset, Step(s, Reset))
  {
    hide MQ.Inv, MQ.Step, MB.Step, MB.Inv, MB.Ordered;
    MB.StepAnswers(s.w, MB.Reset);
    Quiet(s.q, MQ.Reset);
  }

  // -------------------------------------------------------------- whole runs

  predicate Runs(s: State, es: seq<Event>)
    decreases |es|
  {
    |es| == 0 || (Enabled(s, es[0]) && Runs(Step(s, es[0]), es[1..]))
  }

  function Last(s: State, es: seq<Event>): State
    requires Runs(s, es)
    decreases |es|
  {
    if |es| == 0 then s else Last(Step(s, es[0]), es[1..])
  }

  lemma {:induction false} RunKeeps(s: State, es: seq<Event>)
    requires Inv(s) && Runs(s, es)
    ensures Inv(Last(s, es))
    decreases |es|
  {
    if |es| > 0 {
      hide Inv, Step, Enabled;
      StepKeeps(s, es[0]);
      RunKeeps(Step(s, es[0]), es[1..]);
    }
  }

  /** No lost wake-up: in every reachable state, while a receiver is blocked, the messages
      in the queue do not outnumber the receivers that have been woken for one and have
      not looked yet; exactly the blocked threads are listed, by priority or arrival. */
  lemma NoWakeupLost(s: State, es: seq<Event>)
    requires Initial(s) && Runs(s, es)
    ensures var e := Last(s, es);
            (e.w.receivers != [] ==> e.q.entry <= |MB.Pending(e.w.phase, true)|)
            && MB.ListOk(e.w.receivers, e.w.phase, true) && InOrder(e.w.receivers, e.w.tickets, e.w.flag)
            && e.q.entry == |e.q.queue|
  {
    RunKeeps(s, es);
    Entries(Last(s, es).q);
  }
}

/** Message queues (ipc.c): fixed-size cells, linked into a free list and a queue.
    A send or receive is two atomic sections with the copying of the message between
    them, so that some cells are in flight: on neither list, in the hands of one
    thread. */
module MessageQueue {
  import opened Basics

  type Tid = nat

  type Cell = nat

  type Byte = nat

  /** What a thread holds: a cell taken from the free list, a cell filled and ready
      to be linked, or a cell taken from the queue. */
  datatype Flight =
    | Reserved(cell: Cell)
    | Filled(cell: Cell, message: seq<Byte>, urgent: bool)
    | Popped(cell: Cell, message: seq<Byte>)

  datatype Place = InFree | InQueue | InFlight(t: Tid)

  type Links = map<Cell, Option<Cell>>

  /** `free` and `queue` are the cells of the two lists in order; `place` says where
      every cell is. */
  datatype State = State(msgSize: nat, next: Links, head: Option<Cell>, tail: Option<Cell>, freeHead: Option<Cell>,
                         entry: nat, content: map<Cell, seq<Byte>>, flight: map<Tid, Flight>,
                         free: seq<Cell>, queue: seq<Cell>, place: map<Cell, Place>)

  // --------------------------------------------------------- linked lists

  function First(cells: seq<Cell>): Option<Cell> {
    if |cells| == 0 then None else Some(cells[0])
  }

  function Final(cells: seq<Cell>): Option<Cell> {
    if |cells| == 0 then None else Some(cells[|cells| - 1])
  }

  /** Cell k points to the next one, the last one nowhere. */
  ghost predicate Hop(next: Links, cells: seq<Cell>, k: int) {
    0 <= k < |cells| && cells[k] in next && next[cells[k]] == if k + 1 < |cells| then Some(cells[k + 1]) else None
  }

  ghost predicate Chain(next: Links, cells: seq<Cell>) {
    Distinct(cells) && forall k :: 0 <= k < |cells| ==> Hop(next, cells, k)
  }

  lemma ChainPush(next: Links, cells: seq<Cell>, c: Cell)
    requires Chain(next, cells) && c !in cells
    ensures Chain(next[c := First(cells)], [c] + cells)
  {
    var q, next' := [c] + cells, next[c := First(cells)];
    forall k | 0 <= k < |q| ensures Hop(next', q, k) {
      if k > 0 { assert Hop(next, cells, k - 1); assert cells[k - 1] in cells; }
    }
  }

  lemma ChainPop(next: Links, cells: seq<Cell>)
    requires Chain(next, cells) && |cells| > 0
    ensures Chain(next, cells[1..]) && cells[0] in next && next[cells[0]] == First(cells[1..])
            && cells[0] !in cells[1..]
    ensures forall x :: x in cells[1..] <==> x in cells && x != cells[0]
  {
    var q := cells[1..];
    assert Hop(next, cells, 0);
    forall k | 0 <= k < |q| ensures Hop(next, q, k) { assert Hop(next, cells, k + 1); }
    forall x | x in cells && x != cells[0] ensures x in q {
      var i :| 0 <= i < |cells| && cells[i] == x;
      assert q[i - 1] == x;
    }
  }

  lemma ChainAppend(next: Links, cells: seq<Cell>, c: Cell)
    requires Chain(next, cells) && c !in cells && c in next && next[c] == None
    ensures var next' := if |cells| > 0 then next[cells[|cells| - 1] := Some(c)] else next;
            Chain(next', cells + [c])
  {
    var q := cells + [c];
    var next' := if |cells| > 0 then next[cells[|cells| - 1] := Some(c)] else next;
    forall k | 0 <= k < |q| ensures Hop(next', q, k) {
      if k < |cells| { assert Hop(next, cells, k); assert cells[k] in cells; }
    }
  }

  lemma ChainFrame(next: Links, next': Links, cells: seq<Cell>)
    requires Chain(next, cells)
    requires forall c :: c in cells && c in next ==> c in next' && next'[c] == next[c]
    ensures Chain(next', cells)
  {
    forall k | 0 <= k < |cells| ensures Hop(next', cells, k) {
      assert Hop(next, cells, k);
      assert cells[k] in cells;
    }
  }

  // -------------------------------------------------------------- invariant

  predicate At(place: map<Cell, Place>, c: Cell, x: Place) {
    c in place && place[c] == x
  }

  ghost predicate Holds(s: State, t: Tid, c: Cell) {
    t in s.flight && s.flight[t].cell == c
  }

  /** Every cell is on the free list, on the queue, or in the hands of one thread. */
  ghost predicate Partition(s: State) {
    (forall c :: c in s.free <==> At(s.place, c, InFree))
    && (forall c :: c in s.queue <==> At(s.place, c, InQueue))
    && (forall c, t :: At(s.place, c, InFlight(t)) <==> Holds(s, t, c))
    && s.place.Keys == s.next.Keys && s.place.Keys == s.content.Keys
  }

  ghost predicate ContentOk(s: State, t: Tid) {
    t in s.flight && s.flight[t].cell in s.content && s.flight[t].cell in s.next &&
    match s.flight[t]
    case Reserved(_) => true
    case Filled(c, m, urgent) => s.content[c] == m && (!urgent ==> s.next[c] == None)
    case Popped(c, m) => s.content[c] == m
  }

  ghost predicate Inv(s: State) {
    Chain(s.next, s.free) && Chain(s.next, s.queue) && Partition(s)
    && s.freeHead == First(s.free) && s.head == First(s.queue) && s.tail == Final(s.queue) && s.entry == |s.queue|
    && (forall c :: c in s.content ==> |s.content[c]| == s.msgSize)
    && (forall t :: t in s.flight ==> ContentOk(s, t))
  }

  /** The messages in the queue. */
  function Messages(content: map<Cell, seq<Byte>>, queue: seq<Cell>): seq<seq<Byte>> {
    seq(|queue|, k requires 0 <= k < |queue| => if queue[k] in content then content[queue[k]] else [])
  }

  // ------------------------------------------------------------------ events

  /** Reserve and Link are the two sections of a send, Fill the copying in between;
      Pop and Recycle those of a receive. */
  datatype Event =
    | Reserve(t: Tid)
    | Fill(t: Tid, buffer: seq<Byte>, urgent: bool)
    | Link(t: Tid)
    | Pop(t: Tid)
    | Recycle(t: Tid)
    | Reset

  datatype Note = Sent(message: seq<Byte>, urgent: bool) | Got(message: seq<Byte>) | Cleared | Silent

  predicate Enabled(s: State, e: Event) {
    match e
    case Reserve(t) => t !in s.flight && |s.free| > 0
    case Fill(t, buffer, _) => t in s.flight && s.flight[t].Reserved? && |buffer| <= s.msgSize
    case Link(t) => t in s.flight && s.flight[t].Filled?
    case Pop(t) => t !in s.flight && s.entry > 0 && |s.queue| > 0
    case Recycle(t) => t in s.flight && s.flight[t].Popped?
    case Reset => true
  }

  /** A buffer copied over the front of a cell. */
  function Overlay(buffer: seq<Byte>, was: seq<Byte>): seq<Byte> {
    if |buffer| <= |was| then buffer + was[|buffer|..] else buffer
  }

  function NextOf(next: Links, c: Cell): Option<Cell> {
    if c in next then next[c] else None
  }

  function ReserveStep(s: State, t: Tid): State
    requires |s.free| > 0
  {
    var c := s.free[0];
    s.(freeHead := NextOf(s.next, c), flight := s.flight[t := Reserved(c)],
       free := s.free[1..], place := s.place[c := InFlight(t)])
  }

  function FillStep(s: State, t: Tid, buffer: seq<Byte>, urgent: bool): State
    requires t in s.flight
  {
    var c := s.flight[t].cell;
    var m := Overlay(buffer, if c in s.content then s.content[c] else []);
    s.(next := if urgent then s.next else s.next[c := None], content := s.content[c := m],
       flight := s.flight[t := Filled(c, m, urgent)])
  }

  function AppendStep(s: State, t: Tid): State
    requires t in s.flight
  {
    var c := s.flight[t].cell;
    s.(next := if s.tail.Some? then s.next[s.tail.value := Some(c)] else s.next, tail := Some(c),
       head := if s.head.None? then Some(c) else s.head, entry := s.entry + 1,
       flight := s.flight - {t}, queue := s.queue + [c], place := s.place[c := InQueue])
  }

  function PrependStep(s: State, t: Tid): State
    requires t in s.flight
  {
    var c := s.flight[t].cell;
    s.(next := s.next[c := s.head], head := Some(c), tail := if s.tail.None? then Some(c) else s.tail,
       entry := s.entry + 1, flight := s.flight - {t}, queue := [c] + s.queue, place := s.place[c := InQueue])
  }

  function PopStep(s: State, t: Tid): State
    requires |s.queue| > 0
  {
    var c := s.queue[0];
    s.(head := NextOf(s.next, c), tail := if s.tail == Some(c) then None else s.tail,
       entry := if s.entry > 0 then s.entry - 1 else 0,
       flight := s.flight[t := Popped(c, if c in s.content then s.content[c] else [])],
       queue := s.queue[1..], place := s.place[c := InFlight(t)])
  }

  function RecycleStep(s: State, t: Tid): State
    requires t in s.flight
  {
    var c := s.flight[t].cell;
    s.(next := s.next[c := s.freeHead], freeHead := Some(c), flight := s.flight - {t},
       free := [c] + s.free, place := s.place[c := InFree])
  }

  /** One turn of the loop of a reset: the first queued cell goes to the free list. The
      count follows here cell by cell; the source clears it once, after the loop. */
  function DrainStep(s: State): State
    requires |s.queue| > 0
  {
    var c := s.queue[0];
    s.(head := NextOf(s.next, c), tail := if s.tail == Some(c) then None else s.tail,
       entry := if s.entry > 0 then s.entry - 1 else 0,
       next := s.next[c := s.freeHead], freeHead := Some(c), queue := s.queue[1..], free := [c] + s.free,
       place := s.place[c := InFree])
  }

  function Drained(s: State): State
    decreases |s.queue|
  {
    if |s.queue| == 0 then s else Drained(DrainStep(s))
  }

  function Step(s: State, e: Event): (State, Note)
    requires Enabled(s, e)
  {
    match e
    case Reserve(t) => (ReserveStep(s, t), Silent)
    case Fill(t, buffer, urgent) => (FillStep(s, t, buffer, urgent), Silent)
    case Link(t) =>
      (if s.flight[t].urgent then PrependStep(s, t) else AppendStep(s, t),
       Sent(s.flight[t].message, s.flight[t].urgent))
    case Pop(t) => (PopStep(s, t), Got(PopStep(s, t).flight[t].message))
    case Recycle(t) => (RecycleStep(s, t), Silent)
    case Reset => (Drained(s), Cleared)
  }

  // -------------------------------------------------------------- every step

  ghost predicate Shape(s: State) {
    Chain(s.next, s.free) && Chain(s.next, s.queue)
    && s.freeHead == First(s.free) && s.head == First(s.queue) && s.tail == Final(s.queue) && s.entry == |s.queue|
  }

  ghost predicate Bytes(s: State) {
    (forall c :: c in s.content ==> |s.content[c]| == s.msgSize) && (forall t :: t in s.flight ==> ContentOk(s, t))
  }

  lemma InvParts(s: State)
    ensures Inv(s) <==> Shape(s) && Partition(s) && Bytes(s)
  {
    hide Chain, Partition, ContentOk;
  }

  /** A cell in flight is on neither list. */
  lemma FlightApart(s: State, t: Tid)
    requires Partition(s) && t in s.flight
    ensures var c := s.flight[t].cell;
            c !in s.free && c !in s.queue && At(s.place, c, InFlight(t)) && c in s.next && c in s.content
  {
    assert Holds(s, t, s.flight[t].cell);
    assert s.flight[t].cell in s.place.Keys;
  }

  lemma ReserveKeeps(s: State, t: Tid)
    requires Inv(s) && Enabled(s, Reserve(t))
    ensures Inv(ReserveStep(s, t))
  {
    hide Chain;
    InvParts(s);
    ChainPop(s.next, s.free);
    var s', c := ReserveStep(s, t), s.free[0];
    assert c in s.free && c in s.place.Keys;
    forall u | u in s'.flight ensures ContentOk(s', u) { assert u != t ==> ContentOk(s, u); }
    forall x, u ensures At(s'.place, x, InFlight(u)) <==> Holds(s', u, x) {
      assert At(s.place, x, InFlight(u)) <==> Holds(s, u, x);
    }
    InvParts(s');
  }

  lemma FillBytes(s: State, t: Tid, buffer: seq<Byte>, urgent: bool)
    requires Partition(s) && Bytes(s) && Enabled(s, Fill(t, buffer, urgent))
    ensures Bytes(FillStep(s, t, buffer, urgent))
  {
    FlightApart(s, t);
    var s', c := FillStep(s, t, buffer, urgent), s.flight[t].cell;
    assert |s'.content[c]| == s.msgSize;
    hide Overlay;
    forall u | u in s'.flight ensures ContentOk(s', u) {
      if u != t { assert ContentOk(s, u); assert Holds(s, u, s.flight[u].cell); }
    }
  }

  lemma FillKeeps(s: State, t: Tid, buffer: seq<Byte>, urgent: bool)
    requires Inv(s) && Enabled(s, Fill(t, buffer, urgent))
    ensures Inv(FillStep(s, t, buffer, urgent))
  {
    hide Chain, Bytes, Overlay, Inv;
    InvParts(s);
    FlightApart(s, t);
    FillBytes(s, t, buffer, urgent);
    var s' := FillStep(s, t, buffer, urgent);
    ChainFrame(s.next, s'.next, s.free);
    ChainFrame(s.next, s'.next, s.queue);
    forall x, u ensures At(s'.place, x, InFlight(u)) <==> Holds(s', u, x) {
      assert At(s.place, x, InFlight(u)) <==> Holds(s, u, x);
    }
    InvParts(s');
  }

  /** A cell leaves a thread's hands for one of the lists. */
  lemma LandPartition(s: State, s': State, t: Tid, x: Place)
    requires Partition(s) && t in s.flight && !x.InFlight?
    requires s'.flight == s.flight - {t} && s'.place == s.place[s.flight[t].cell := x]
    requires forall c :: c in s'.free <==> c in s.free || (x == InFree && c == s.flight[t].cell)
    requires forall c :: c in s'.queue <==> c in s.queue || (x == InQueue && c == s.flight[t].cell)
    requires s'.next.Keys == s.next.Keys && s'.content == s.content
    ensures Partition(s')
  {
    FlightApart(s, t);
    var c := s.flight[t].cell;
    forall d, u ensures At(s'.place, d, InFlight(u)) <==> Holds(s', u, d) {
      assert At(s.place, d, InFlight(u)) <==> Holds(s, u, d);
    }
  }

  /** The other threads' cells are not touched. */
  lemma LandBytes(s: State, s': State, t: Tid)
    requires Partition(s) && Bytes(s) && t in s.flight && s'.flight == s.flight - {t} && s'.content == s.content
    requires s'.msgSize == s.msgSize
    requires forall c :: c in s.next && (forall u :: At(s.place, c, InFlight(u)) ==> u == t) ==> c in s'.next
    requires forall c, u :: c in s.next && At(s.place, c, InFlight(u)) && u != t ==>
                              c in s'.next && s'.next[c] == s.next[c]
    ensures Bytes(s')
  {
    forall u | u in s'.flight ensures ContentOk(s', u) {
      assert ContentOk(s, u);
      assert Holds(s, u, s.flight[u].cell);
    }
  }

  lemma AppendKeeps(s: State, t: Tid)
    requires Inv(s) && t in s.flight && s.flight[t].Filled? && !s.flight[t].urgent
    ensures Inv(AppendStep(s, t))
  {
    hide Chain, Bytes;
    InvParts(s);
    FlightApart(s, t);
    assert ContentOk(s, t);
    var s', c := AppendStep(s, t), s.flight[t].cell;
    ChainAppend(s.next, s.queue, c);
    TailInQueue(s);
    ChainFrame(s.next, s'.next, s.free);
    LandPartition(s, s', t, InQueue);
    LandBytes(s, s', t);
    InvParts(s');
  }

  lemma TailInQueue(s: State)
    requires Shape(s) && Partition(s)
    ensures s.tail.Some? <==> |s.queue| > 0
    ensures s.tail.Some? ==> s.tail.value in s.queue && s.tail.value !in s.free && At(s.place, s.tail.value, InQueue)
                             && s.tail.value in s.next && s.tail.value == s.queue[|s.queue| - 1]
  {
    if |s.queue| > 0 {
      assert s.queue[|s.queue| - 1] in s.queue;
      assert s.tail.value in s.place.Keys;
    }
  }

  lemma PrependKeeps(s: State, t: Tid)
    requires Inv(s) && t in s.flight && s.flight[t].Filled?
    ensures Inv(PrependStep(s, t))
  {
    hide Chain, Bytes;
    InvParts(s);
    FlightApart(s, t);
    var s', c := PrependStep(s, t), s.flight[t].cell;
    ChainPush(s.next, s.queue, c);
    ChainFrame(s.next, s'.next, s.free);
    LandPartition(s, s', t, InQueue);
    LandBytes(s, s', t);
    InvParts(s');
  }

  lemma RecycleKeeps(s: State, t: Tid)
    requires Inv(s) && t in s.flight
    ensures Inv(RecycleStep(s, t))
  {
    hide Chain, Bytes;
    InvParts(s);
    FlightApart(s, t);
    var s', c := RecycleStep(s, t), s.flight[t].cell;
    ChainPush(s.next, s.free, c);
    ChainFrame(s.next, s'.next, s.queue);
    LandPartition(s, s', t, InFree);
    LandBytes(s, s', t);
    InvParts(s');
  }

  lemma PopKeeps(s: State, t: Tid)
    requires Inv(s) && Enabled(s, Pop(t))
    ensures Inv(PopStep(s, t))
  {
    hide Chain;
    InvParts(s);
    ChainPop(s.next, s.queue);
    var s', c := PopStep(s, t), s.queue[0];
    assert c in s.queue && c in s.place.Keys;
    forall u | u in s'.flight ensures ContentOk(s', u) { assert u != t ==> ContentOk(s, u); }
    forall x, u ensures At(s'.place, x, InFlight(u)) <==> Holds(s', u, x) {
      assert At(s.place, x, InFlight(u)) <==> Holds(s, u, x);
    }
    InvParts(s');
  }

  lemma DrainKeeps(s: State)
    requires Inv(s) && |s.queue| > 0
    ensures Inv(DrainStep(s)) && DrainStep(s).flight == s.flight
  {
    hide Chain;
    InvParts(s);
    ChainPop(s.next, s.queue);
    var s', c := DrainStep(s), s.queue[0];
    assert c in s.queue && c in s.place.Keys;
    ChainPush(s.next, s.free, c);
    ChainFrame(s.next, s'.next, s'.queue);
    forall u | u in s'.flight ensures ContentOk(s', u) {
      assert ContentOk(s, u);
      assert Holds(s, u, s.flight[u].cell);
    }
    forall x, u ensures At(s'.place, x, InFlight(u)) <==> Holds(s', u, x) {
      assert At(s.place, x, InFlight(u)) <==> Holds(s, u, x);
    }
    InvParts(s');
  }

  lemma {:induction false} DrainedKeeps(s: State)
    requires Inv(s)
    ensures Inv(Drained(s)) && Drained(s).queue == [] && Drained(s).flight == s.flight
    ensures |Drained(s).free| == |s.free| + |s.queue|
    decreases |s.queue|
  {
    if |s.queue| > 0 {
      hide Inv;
      DrainKeeps(s);
      DrainedKeeps(DrainStep(s));
    }
  }

  /** Every section, and the copying between sections, keeps both lists exact and
      every cell in one place. */
  lemma StepKeeps(s: State, e: Event)
    requires Inv(s) && Enabled(s, e)
    ensures Inv(Step(s, e).0)
  {
    hide Inv, ReserveStep, FillStep, AppendStep, PrependStep, RecycleStep, Drained;
    match e
    case Reserve(t) => ReserveKeeps(s, t);
    case Fill(t, buffer, urgent) => FillKeeps(s, t, buffer, urgent);
    case Link(t) => if s.flight[t].urgent { PrependKeeps(s, t); } else { AppendKeeps(s, t); }
    case Pop(t) => PopKeeps(s, t);
    case Recycle(t) => RecycleKeeps(s, t);
    case Reset => DrainedKeeps(s);
  }

  /** How many cells there are, wherever they are. */
  function Cells(s: State): nat {
    |s.free| + |s.queue| + |s.flight.Keys|
  }

  lemma AddKey(m: map<Tid, Flight>, t: Tid, f: Flight)
    requires t !in m
    ensures |m[t := f].Keys| == |m.Keys| + 1
  {
    assert m[t := f].Keys == m.Keys + {t};
  }

  lemma DropKey(m: map<Tid, Flight>, t: Tid)
    requires t in m
    ensures |(m - {t}).Keys| == |m.Keys| - 1
  {
    assert (m - {t}).Keys == m.Keys - {t};
  }

  lemma ConservedOut(s: State, t: Tid)
    requires t !in s.flight
    ensures |s.free| > 0 ==> Cells(ReserveStep(s, t)) == Cells(s)
    ensures |s.queue| > 0 ==> Cells(PopStep(s, t)) == Cells(s)
  {
    hide NextOf;
    if |s.free| > 0 { AddKey(s.flight, t, ReserveStep(s, t).flight[t]); }
    if |s.queue| > 0 { AddKey(s.flight, t, PopStep(s, t).flight[t]); }
  }

  lemma ConservedIn(s: State, t: Tid)
    requires t in s.flight
    ensures Cells(AppendStep(s, t)) == Cells(s) && Cells(PrependStep(s, t)) == Cells(s)
            && Cells(RecycleStep(s, t)) == Cells(s)
  {
    DropKey(s.flight, t);
  }

  lemma ConservedFill(s: State, t: Tid, buffer: seq<Byte>, urgent: bool)
    requires t in s.flight
    ensures Cells(FillStep(s, t, buffer, urgent)) == Cells(s)
  {
    hide Overlay;
  }

  lemma Conserved(s: State, e: Event)
    requires Inv(s) && Enabled(s, e)
    ensures Cells(Step(s, e).0) == Cells(s)
  {
    hide Inv, Drained, Cells, ReserveStep, FillStep, AppendStep, PrependStep, RecycleStep;
    match e
    case Reserve(t) => ConservedOut(s, t);
    case Fill(t, buffer, urgent) => ConservedFill(s, t, buffer, urgent);
    case Link(t) => ConservedIn(s, t);
    case Pop(t) => ConservedOut(s, t);
    case Recycle(t) => ConservedIn(s, t);
    case Reset => DrainedKeeps(s); SumCells(s, Drained(s));
  }

  lemma SumCells(s: State, s': State)
    requires s'.flight == s.flight && |s'.free| + |s'.queue| == |s.free| + |s.queue|
    ensures Cells(s') == Cells(s)
  {
  }

  // --------------------------------------------------------------- refinement

  function Queued(s: State): seq<seq<Byte>> {
    Messages(s.content, s.queue)
  }

  /** The queue of messages before and after a section that noted n. */
  ghost predicate Effect(before: seq<seq<Byte>>, n: Note, after: seq<seq<Byte>>) {
    match n
    case Sent(m, urgent) => after == if urgent then [m] + before else before + [m]
    case Got(m) => before == [m] + after
    case Cleared => after == []
    case Silent => after == before
  }

  lemma FillQuiet(s: State, t: Tid, buffer: seq<Byte>, urgent: bool)
    requires Inv(s) && Enabled(s, Fill(t, buffer, urgent))
    ensures Queued(FillStep(s, t, buffer, urgent)) == Queued(s)
  {
    hide Chain;
    FlightApart(s, t);
    assert forall k :: 0 <= k < |s.queue| ==> s.queue[k] in s.queue && s.queue[k] != s.flight[t].cell;
  }

  lemma LinkEffect(s: State, t: Tid)
    requires Inv(s) && Enabled(s, Link(t))
    ensures s.flight[t].urgent ==> Queued(PrependStep(s, t)) == [s.flight[t].message] + Queued(s)
    ensures !s.flight[t].urgent ==> Queued(AppendStep(s, t)) == Queued(s) + [s.flight[t].message]
  {
    hide Chain;
    assert ContentOk(s, t);
  }

  /** Sending appends, sending urgently prepends, receiving pops, each at the section
      that links or unlinks the cell; nothing else changes the queue. */
  lemma StepRefines(s: State, e: Event)
    requires Inv(s) && Enabled(s, e)
    ensures Effect(Queued(s), Step(s, e).1, Queued(Step(s, e).0))
  {
    match e
    case Reserve(t) =>
    case Fill(t, buffer, urgent) => FillQuiet(s, t, buffer, urgent);
    case Link(t) => LinkEffect(s, t);
    case Pop(t) => assert s.queue == [s.queue[0]] + s.queue[1..];
    case Recycle(t) =>
    case Reset => DrainedKeeps(s);
  }

  /** Between its two sections a thread finds the message it filled in, or popped,
      unchanged, whatever the other threads do. */
  lemma FlightSafe(s: State, e: Event, t: Tid)
    requires Inv(s) && Enabled(s, e) && t in s.flight && (e.Reset? || e.t != t)
    ensures var s' := Step(s, e).0;
            t in s'.flight && s'.flight[t] == s.flight[t] && s.flight[t].cell in s.content
            && s'.flight[t].cell in s'.content
            && s'.content[s.flight[t].cell] == s.content[s.flight[t].cell]
  {
    assert ContentOk(s, t);
    FlightApart(s, t);
    match e
    case Fill(u, buffer, urgent) => FlightApart(s, u);
    case Reset => DrainedKeeps(s); DrainedContent(s);
    case _ =>
  }

  lemma {:induction false} DrainedContent(s: State)
    ensures Drained(s).content == s.content
    decreases |s.queue|
  {
    if |s.queue| > 0 { DrainedContent(DrainStep(s)); }
  }

  /** What a send puts into the queue, at the section that links the cell, is a message of
      the full size that begins with the bytes sent. */
  lemma SentBytes(s: State, t: Tid, buffer: seq<Byte>, urgent: bool)
    requires Inv(s) && Enabled(s, Fill(t, buffer, urgent))
    ensures var s1 := Step(s, Fill(t, buffer, urgent)).0;
            Enabled(s1, Link(t))
            && var n := Step(s1, Link(t)).1;
               n.Sent? && n.urgent == urgent && |n.message| == s.msgSize && n.message[..|buffer|] == buffer
  {
    assert ContentOk(s, t);
  }

  /** What a receive gets is the first message; its bytes are still in the cell when they
      are copied out, so a receiver that asks for at least as many bytes as were sent gets
      those bytes. */
  lemma GotBytes(s: State, u: Tid, buffer: seq<Byte>, size: nat)
    requires Inv(s) && Enabled(s, Pop(u)) && |buffer| <= size
    requires |Queued(s)[0]| >= |buffer| && Queued(s)[0][..|buffer|] == buffer
    ensures var (s1, n) := Step(s, Pop(u));
            n == Got(Queued(s)[0]) && Enabled(s1, Recycle(u)) && s1.flight[u].cell in s1.content
            && var m := s1.content[s1.flight[u].cell];
               (if size < |m| then m[..size] else m)[..|buffer|] == buffer
  {
    hide Chain;
    assert s.queue[0] in s.queue;
    assert s.queue[0] in s.place.Keys;
    var m := Queued(s)[0];
    assert size < |m| ==> m[..size][..|buffer|] == m[..|buffer|];
  }

  // -------------------------------------------------------------- whole runs

  predicate Runs(s: State, es: seq<Event>)
    decreases |es|
  {
    |es| == 0 || (Enabled(s, es[0]) && Runs(Step(s, es[0]).0, es[1..]))
  }

  function Last(s: State, es: seq<Event>): State
    requires Runs(s, es)
    decreases |es|
  {
    if |es| == 0 then s else Last(Step(s, es[0]).0, es[1..])
  }

  function Notes(s: State, es: seq<Event>): seq<Note>
    requires Runs(s, es)
    decreases |es|
  {
    if |es| == 0 then [] else [Step(s, es[0]).1] + Notes(Step(s, es[0]).0, es[1..])
  }

  /** The notes of a run describe a run of the plain queue from `before` to `after`. */
  ghost predicate Explains(before: seq<seq<Byte>>, notes: seq<Note>, after: seq<seq<Byte>>)
    decreases |notes|
  {
    if |notes| == 0 then before == after
    else exists mid :: Effect(before, notes[0], mid) && Explains(mid, notes[1..], after)
  }

  /** Over every interleaving the cells are conserved, both lists stay exact, and the
      message queue behaves like a sequence to which the linking sections append or
      prepend and from which the receiving sections take the first. */
  lemma {:induction false} RunRefines(s: State, es: seq<Event>)
    requires Inv(s) && Runs(s, es)
    ensures Inv(Last(s, es)) && Cells(Last(s, es)) == Cells(s)
    ensures Explains(Queued(s), Notes(s, es), Queued(Last(s, es)))
    decreases |es|
  {
    if |es| > 0 {
      hide Inv, Step, Enabled, Effect, Queued, Cells;
      StepKeeps(s, es[0]);
      Conserved(s, es[0]);
      StepRefines(s, es[0]);
      var (s1, n) := Step(s, es[0]);
      RunRefines(s1, es[1..]);
      assert Notes(s, es)[1..] == Notes(s1, es[1..]);
      assert Effect(Queued(s), Notes(s, es)[0], Queued(s1));
    }
  }

  // ---------------------------------------------------------------- the object

  class Queue {
    const msgSize: nat
    var next: Links
    var head: Option<Cell>
    var tail: Option<Cell>
    var freeHead: Option<Cell>
    var entry: nat
    var content: map<Cell, seq<Byte>>
    /** The local variable msg of each thread in the midst of a call. */
    var flight: map<Tid, Flight>
    ghost var free: seq<Cell>
    ghost var queue: seq<Cell>
    ghost var place: map<Cell, Place>

    ghost function View(): State
      reads this
    {
      State(msgSize, next, head, tail, freeHead, entry, content, flight, free, queue, place)
    }

    /** rt_mq_init: the cells are pushed on the free list one by one. */
    constructor (size: nat, maxMsgs: nat, blank: seq<Byte>)
      requires |blank| == size
      ensures Inv(View()) && msgSize == size && queue == [] && flight == map[] && |free| == maxMsgs
    {
      msgSize := size;
      next, head, tail, freeHead, entry := map[], None, None, None, 0;
      content, flight := map[], map[];
      free, queue, place := [], [], map[];
      new;
      Carve(maxMsgs, blank);
    }

    method Carve(maxMsgs: nat, blank: seq<Byte>)
      requires Inv(View()) && queue == [] && flight == map[] && free == [] && |blank| == msgSize
      modifies `next, `content, `freeHead, `free, `place
      ensures Inv(View()) && |free| == maxMsgs
    {
      hide Inv;
      var temp := 0;
      while temp < maxMsgs
        invariant 0 <= temp <= maxMsgs && Inv(View()) && queue == [] && flight == map[] && |free| == temp
        invariant forall c :: c in free ==> c < temp
      {
        NewCell(View(), temp, blank);
        next := next[temp := freeHead];
        content := content[temp := blank];
        freeHead := Some(temp);
        free := [temp] + free;
        place := place[temp := InFree];
        temp := temp + 1;
      }
    }

    /** The first section of rt_mq_send and rt_mq_urgent */
    method ReserveCell(t: Tid) returns (ok: bool)
      requires Inv(View()) && t !in flight
      modifies `freeHead, `flight, `free, `place
      ensures Inv(View()) && ok == old(freeHead).Some?
      ensures ok ==> Enabled(old(View()), Reserve(t)) && View() == Step(old(View()), Reserve(t)).0
      ensures !ok ==> View() == old(View())
    {
      hide Inv;
      HeadsOf(View());
      if freeHead.None? {
        return false;
      }
      ReserveKeeps(View(), t);
      var msg := freeHead.value;
      freeHead := NextOf(next, msg);
      flight := flight[t := Reserved(msg)];
      free, place := free[1..], place[msg := InFlight(t)];
      ok := true;
    }

    /** What happens between the sections: the copy, and for an ordinary message the
        clearing of its link. */
    method FillCell(t: Tid, buffer: seq<Byte>, urgent: bool)
      requires Inv(View()) && Enabled(View(), Fill(t, buffer, urgent))
      modifies `next, `content, `flight
      ensures Inv(View()) && View() == Step(old(View()), Fill(t, buffer, urgent)).0
    {
      hide Inv;
      FillKeeps(View(), t, buffer, urgent);
      var c := flight[t].cell;
      if !urgent {
        next := next[c := None];
      }
      content := content[c := Overlay(buffer, if c in content then content[c] else [])];
      flight := flight[t := Filled(c, content[c], urgent)];
    }

    /** The second section */
    method LinkCell(t: Tid) returns (note: Note)
      requires Inv(View()) && Enabled(View(), Link(t))
      modifies `next, `head, `tail, `entry, `flight, `queue, `place
      ensures Inv(View()) && (View(), note) == Step(old(View()), Link(t))
    {
      hide Inv, Step;
      LinkIs(View(), t);
      StepKeeps(View(), Link(t));
      var msg, urgent := flight[t].cell, flight[t].urgent;
      note := Sent(flight[t].message, urgent);
      if urgent {
        next := next[msg := head];
        head := Some(msg);
        if tail.None? {
          tail := Some(msg);
        }
        queue := [msg] + queue;
      } else {
        if tail.Some? {
          next := next[tail.value := Some(msg)];
        }
        tail := Some(msg);
        if head.None? {
          head := Some(msg);
        }
        queue := queue + [msg];
      }
      entry := entry + 1;
      flight := flight - {t};
      place := place[msg := InQueue];
    }

    /** The section of rt_mq_recv that takes the first message */
    method PopCell(t: Tid) returns (note: Note)
      requires Inv(View()) && Enabled(View(), Pop(t))
      modifies `head, `tail, `entry, `flight, `queue, `place
      ensures Inv(View()) && (View(), note) == Step(old(View()), Pop(t))
    {
      hide Inv, NextOf, Step;
      HeadsOf(View());
      PopIs(View(), t);
      PopKeeps(View(), t);
      var msg := head.value;
      head := NextOf(next, msg);
      if tail == Some(msg) {
        tail := None;
      }
      entry := entry - 1;
      flight := flight[t := Popped(msg, if msg in content then content[msg] else [])];
      queue, place := queue[1..], place[msg := InFlight(t)];
      note := Got(flight[t].message);
    }

    /** The copy out of the cell, and the section that frees it */
    method RecycleCell(t: Tid, size: nat) returns (buffer: seq<Byte>)
      requires Inv(View()) && Enabled(View(), Recycle(t))
      modifies `next, `freeHead, `flight, `free, `place
      ensures Inv(View()) && View() == Step(old(View()), Recycle(t)).0
      ensures var m := old(flight)[t].message; buffer == if size < |m| then m[..size] else m
    {
      hide Inv;
      PoppedMessage(View(), t);
      RecycleKeeps(View(), t);
      var msg := flight[t].cell;
      buffer := if size < msgSize then content[msg][..size] else content[msg];
      next := next[msg := freeHead];
      freeHead := Some(msg);
      flight := flight - {t};
      free, place := [msg] + free, place[msg := InFree];
    }

    /** rt_mq_control with RT_IPC_CMD_RESET */
    method ResetQueue()
      requires Inv(View())
      modifies this
      ensures Inv(View()) && View() == Step(old(View()), Reset).0 && entry == 0
    {
      hide Inv, DrainStep;
      ghost var s := View();
      HeadsOf(s);
      while head.Some?
        invariant Inv(View()) && Drained(s) == Drained(View())
        invariant head.Some? <==> |queue| > 0
        decreases |queue|
      {
        DrainOne();
        HeadsOf(View());
      }
      HeadsOf(View());
      entry := 0;
    }

    method DrainOne()
      requires Inv(View()) && head.Some?
      modifies this
      ensures Inv(View()) && |old(queue)| > 0 && View() == DrainStep(old(View())) && |queue| < |old(queue)|
    {
      hide Inv, NextOf;
      HeadsOf(View());
      DrainKeeps(View());
      var msg := head.value;
      head := NextOf(next, msg);
      if tail == Some(msg) {
        tail := None;
      }
      entry := entry - 1;
      next := next[msg := freeHead];
      freeHead := Some(msg);
      queue, free, place := queue[1..], [msg] + free, place[msg := InFree];
    }
  }

  lemma PopIs(s: State, t: Tid)
    requires Enabled(s, Pop(t))
    ensures Step(s, Pop(t)) == (PopStep(s, t), Got(PopStep(s, t).flight[t].message))
  {
  }

  lemma LinkIs(s: State, t: Tid)
    requires Enabled(s, Link(t))
    ensures Step(s, Link(t)) == (if s.flight[t].urgent then PrependStep(s, t) else AppendStep(s, t),
                                 Sent(s.flight[t].message, s.flight[t].urgent))
  {
  }

  lemma HeadsOf(s: State)
    requires Inv(s)
    ensures (s.freeHead.Some? <==> |s.free| > 0) && (s.freeHead.Some? ==> s.freeHead.value == s.free[0])
    ensures (s.head.Some? <==> |s.queue| > 0) && (s.head.Some? ==> s.head.value == s.queue[0])
    ensures s.entry == |s.queue|
  {
  }

  lemma PoppedMessage(s: State, t: Tid)
    requires Inv(s) && Enabled(s, Recycle(t))
    ensures s.flight[t].cell in s.content && s.content[s.flight[t].cell] == s.flight[t].message
    ensures |s.flight[t].message| == s.msgSize
  {
    assert ContentOk(s, t);
  }

  lemma NewCell(s: State, c: Cell, blank: seq<Byte>)
    requires Inv(s) && s.queue == [] && s.flight == map[] && |blank| == s.msgSize && forall x :: x in s.free ==> x < c
    ensures Inv(s.(next := s.next[c := s.freeHead], content := s.content[c := blank], freeHead := Some(c),
                   free := [c] + s.free, place := s.place[c := InFree]))
  {
    hide Chain;
    InvParts(s);
    var s' := s.(next := s.next[c := s.freeHead], content := s.content[c := blank], freeHead := Some(c),
                 free := [c] + s.free, place := s.place[c := InFree]);
    ChainPush(s.next, s.free, c);
    ChainFrame(s.next, s'.next, s.queue);
    forall x, u ensures At(s'.place, x, InFlight(u)) <==> Holds(s', u, x) {
      assert At(s.place, x, InFlight(u)) <==> Holds(s, u, x);
    }
    InvParts(s');
  }
}

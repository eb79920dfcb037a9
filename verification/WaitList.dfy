/** The list of threads suspended on an IPC object (ipc.c, rt_ipc_list_suspend). */
module WaitList {
  import opened Basics

  type Tid = nat

  datatype Flag = Fifo | Prio

  /** What the order of a wait list is about: the priority a thread had when it was
      suspended (a smaller number is more urgent) and a count of suspensions. */
  datatype Ticket = Ticket(priority: nat, arrival: nat)

  type Tickets = map<Tid, Ticket>

  function Priority(tickets: Tickets, t: Tid): nat {
    if t in tickets then tickets[t].priority else 0
  }

  function Arrival(tickets: Tickets, t: Tid): nat {
    if t in tickets then tickets[t].arrival else 0
  }

  /** Thread a stands before thread b. */
  predicate Precedes(tickets: Tickets, flag: Flag, a: Tid, b: Tid) {
    if flag.Prio? && Priority(tickets, a) != Priority(tickets, b)
    then Priority(tickets, a) < Priority(tickets, b)
    else Arrival(tickets, a) < Arrival(tickets, b)
  }

  /** First come first served, within equal priority if the flag says so. */
  ghost predicate InOrder(l: seq<Tid>, tickets: Tickets, flag: Flag) {
    forall i, j :: 0 <= i < j < |l| ==> Precedes(tickets, flag, l[i], l[j])
  }

  /** The list after t is suspended on it. */
  function Suspended(l: seq<Tid>, tickets: Tickets, flag: Flag, t: Tid): seq<Tid> {
    InsertAt(l, if flag.Fifo? then |l| else Position(l, tickets, Priority(tickets, t)), t)
  }

  /** The first thread less urgent than priority p. */
  function Position(l: seq<Tid>, tickets: Tickets, p: nat): (k: nat)
    ensures k <= |l| && (k < |l| ==> p < Priority(tickets, l[k]))
    ensures forall i :: 0 <= i < k ==> Priority(tickets, l[i]) <= p
  {
    if |l| == 0 || p < Priority(tickets, l[0]) then 0
    else
      var k := Position(l[1..], tickets, p);
      assert forall i :: 0 <= i < k ==> l[1..][i] == l[i + 1];
      k + 1
  }

  lemma {:induction false} PositionIs(l: seq<Tid>, tickets: Tickets, p: nat, k: nat)
    requires k <= |l| && (k < |l| ==> p < Priority(tickets, l[k]))
    requires forall i :: 0 <= i < k ==> Priority(tickets, l[i]) <= p
    ensures Position(l, tickets, p) == k
  {
    var m := Position(l, tickets, p);
    assert !(m < k);
    assert !(k < m);
  }

  method Suspend(l: seq<Tid>, tickets: Tickets, flag: Flag, t: Tid) returns (l': seq<Tid>)
    ensures l' == Suspended(l, tickets, flag, t)
  {
    if flag.Fifo? {
      return InsertAt(l, |l|, t);
    }
    var n := 0;
    while n < |l|
      invariant 0 <= n <= |l|
      invariant forall i :: 0 <= i < n ==> Priority(tickets, l[i]) <= Priority(tickets, t)
    {
      if Priority(tickets, t) < Priority(tickets, l[n]) {
        break;
      }
      n := n + 1;
    }
    PositionIs(l, tickets, Priority(tickets, t), n);
    l' := InsertAt(l, n, t);
  }

  /** Suspending a newcomer keeps the order and adds exactly that thread. */
  lemma SuspendedInOrder(l: seq<Tid>, tickets: Tickets, flag: Flag, t: Tid)
    requires InOrder(l, tickets, flag) && forall i :: 0 <= i < |l| ==> Arrival(tickets, l[i]) < Arrival(tickets, t)
    ensures InOrder(Suspended(l, tickets, flag, t), tickets, flag)
  {
    var k := if flag.Fifo? then |l| else Position(l, tickets, Priority(tickets, t));
    var l' := InsertAt(l, k, t);
    assert forall i :: 0 <= i < |l'| ==> l'[i] == if i < k then l[i] else if i == k then t else l[i - 1];
    forall i, j | 0 <= i < j < |l'| ensures Precedes(tickets, flag, l'[i], l'[j]) {
      if i == k {
        assert Priority(tickets, l[k]) <= Priority(tickets, l[j - 1]) by {
          if k < j - 1 { assert Precedes(tickets, flag, l[k], l[j - 1]); }
        }
      } else if j != k {
        assert Precedes(tickets, flag, l[if i < k then i else i - 1], l[if j < k then j else j - 1]);
      }
    }
  }

  lemma SuspendedMembers(l: seq<Tid>, tickets: Tickets, flag: Flag, t: Tid)
    requires Distinct(l) && t !in l
    ensures var l' := Suspended(l, tickets, flag, t);
            Distinct(l') && |l'| == |l| + 1 && forall x :: x in l' <==> x in l || x == t
  {
    InsertAtMembers(l, if flag.Fifo? then |l| else Position(l, tickets, Priority(tickets, t)), t);
  }

  /** Taking threads off keeps the order of the others. */
  lemma {:induction false} RemovedInOrder(l: seq<Tid>, tickets: Tickets, flag: Flag, t: Tid)
    requires InOrder(l, tickets, flag)
    ensures InOrder(Removed(l, t), tickets, flag)
  {
    if |l| > 0 {
      var r := l[1..];
      assert InOrder(r, tickets, flag) by {
        forall i, j | 0 <= i < j < |r| ensures Precedes(tickets, flag, r[i], r[j]) {
          assert Precedes(tickets, flag, l[i + 1], l[j + 1]);
        }
      }
      if l[0] != t {
        RemovedInOrder(r, tickets, flag, t);
        var q := [l[0]] + Removed(r, t);
        forall i, j | 0 <= i < j < |q| ensures Precedes(tickets, flag, q[i], q[j]) {
          if i == 0 {
            assert q[j] in r;
            var k :| 0 <= k < |r| && r[k] == q[j];
            assert Precedes(tickets, flag, l[0], l[k + 1]);
          } else {
            assert q[i] == Removed(r, t)[i - 1] && q[j] == Removed(r, t)[j - 1];
          }
        }
      }
    }
  }

  /** A new ticket for a thread that is not on the list changes nothing there. */
  lemma NewTicket(l: seq<Tid>, tickets: Tickets, flag: Flag, t: Tid, ticket: Ticket)
    requires InOrder(l, tickets, flag) && t !in l
    ensures InOrder(l, tickets[t := ticket], flag)
  {
    forall i, j | 0 <= i < j < |l| ensures Precedes(tickets[t := ticket], flag, l[i], l[j]) {
      assert Precedes(tickets, flag, l[i], l[j]);
    }
  }

  /** Everyone on the list came before `clock`. */
  ghost predicate CameBefore(l: seq<Tid>, tickets: Tickets, clock: nat) {
    forall t :: t in l ==> Arrival(tickets, t) < clock
  }
}

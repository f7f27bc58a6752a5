/** What `marl::Ticket::Queue` promises, on values: tickets are numbered in the order they are
    taken, and called one after the other as the tickets before them finish. */
module TicketOrder {

  import opened Chains

  type TicketId = nat

  /** `chain` holds the unfinished tickets, `called` the calls made so far, both in order.  The
      first call of `done()` marks a ticket before it takes the mutex, and then finishes it: only a
      finished ticket has left the chain. */
  datatype Tickets = Tickets(
    taken: nat,
    chain: seq<TicketId>,
    called: seq<TicketId>,
    marked: set<TicketId>,
    finished: set<TicketId>)

  datatype Op = Take(count: nat) | Mark(ticket: TicketId) | Finish(ticket: TicketId)

  const EMPTY := Tickets(0, [], [], {}, {})

  function Range(lo: nat, n: nat): (r: seq<nat>)
    ensures |r| == n && forall i :: 0 <= i < n ==> r[i] == lo + i
  {
    seq(n, i requires 0 <= i < n => lo + i)
  }

  function IndexOf(q: seq<TicketId>, t: TicketId): (i: nat)
    requires t in q
    ensures i < |q| && q[i] == t
  {
    if q[0] == t then 0 else 1 + IndexOf(q[1..], t)
  }

  /** The first of the new tickets is called at once if no ticket is unfinished. */
  function TakeTickets(s: Tickets, n: nat): (r: Tickets)
    requires n > 0
  {
    s.(taken := s.taken + n,
       chain := s.chain + Range(s.taken, n),
       called := if s.chain == [] then s.called + [s.taken] else s.called)
  }

  /** `isDone.exchange(true)`; marking a ticket again does nothing. */
  function MarkTicket(s: Tickets, t: TicketId): (r: Tickets) {
    s.(marked := s.marked + {t})
  }

  /** Finishing the front ticket calls the next one. */
  function FinishTicket(s: Tickets, t: TicketId): (r: Tickets)
    requires t in s.chain
  {
    var i := IndexOf(s.chain, t);
    s.(chain := Without(s.chain, i),
       finished := s.finished + {t},
       called := if i == 0 && |s.chain| > 1 then s.called + [s.chain[1]] else s.called)
  }

  /** A whole call of `done()`. */
  function DoneTicket(s: Tickets, t: TicketId): (r: Tickets) {
    if t in s.marked || t !in s.chain then s else FinishTicket(MarkTicket(s, t), t)
  }

  predicate Increasing(q: seq<TicketId>) {
    forall i, j :: 0 <= i < j < |q| ==> q[i] < q[j]
  }

  ghost predicate Inv(s: Tickets) {
    && Increasing(s.chain) && Increasing(s.called)
    && (forall t: TicketId :: t in s.chain <==> t < s.taken && t !in s.finished)
    && s.finished <= s.marked && (forall t :: t in s.marked ==> t < s.taken)
    && (forall i :: 0 <= i < |s.called| ==> s.called[i] < s.taken)
    && (s.chain != [] ==> s.called != [] && s.called[|s.called| - 1] == s.chain[0])
  }

  lemma TakeInv(s: Tickets, n: nat)
    requires Inv(s) && n > 0
    ensures Inv(TakeTickets(s, n))
  {
    var r := TakeTickets(s, n);
    assert forall i :: 0 <= i < |s.chain| ==> s.chain[i] in s.chain;
    forall t: TicketId ensures t in r.chain <==> t < r.taken && t !in r.finished {
      if s.taken <= t < r.taken {
        assert r.chain[|s.chain| + t - s.taken] == t;
      }
    }
  }

  lemma MarkInv(s: Tickets, t: TicketId)
    requires Inv(s) && t < s.taken
    ensures Inv(MarkTicket(s, t))
  {
  }

  lemma FinishInv(s: Tickets, t: TicketId)
    requires Inv(s) && t in s.marked && t !in s.finished
    ensures t in s.chain && Inv(FinishTicket(s, t))
    ensures
      var r := FinishTicket(s, t);
      t in r.finished && forall u :: u in r.chain <==> u in s.chain && u != t
  {
    hide Without, IndexOf;
    assert t in s.chain;
    var i := IndexOf(s.chain, t);
    var r := FinishTicket(s, t);
    assert forall k :: 0 <= k < |s.chain| ==> s.chain[k] in s.chain;
    WithoutMembers(s.chain, i);
  }

  lemma WithoutMembers(q: seq<TicketId>, i: nat)
    requires i < |q| && Increasing(q)
    ensures forall t :: t in Without(q, i) <==> t in q && t != q[i]
  {
    forall t | t in q && t != q[i] ensures t in Without(q, i) {
      var k :| 0 <= k < |q| && q[k] == t;
      assert Without(q, i)[if k < i then k else k - 1] == t;
    }
  }

  /** Of the unfinished tickets exactly the first one has been called. */
  lemma HeadOfChain(s: Tickets, i: nat)
    requires Inv(s) && i < |s.chain|
    ensures s.chain[i] !in s.finished && (s.chain[i] in s.called <==> i == 0)
  {
    assert s.chain[i] in s.chain;
    assert forall k :: 0 <= k < |s.called| ==> s.called[k] <= s.chain[0];
  }

  // ---- any sequence of operations ----

  /** A ticket is finished once, by the call of `done()` that marked it. */
  predicate Possible(s: Tickets, op: Op) {
    match op
    case Take(n) => n > 0
    case Mark(t) => t < s.taken
    case Finish(t) => t in s.marked && t in s.chain
  }

  function Apply(s: Tickets, op: Op): (r: Tickets)
    requires Possible(s, op)
  {
    match op
    case Take(n) => TakeTickets(s, n)
    case Mark(t) => MarkTicket(s, t)
    case Finish(t) => FinishTicket(s, t)
  }

  ghost predicate IsRun(states: seq<Tickets>, ops: seq<Op>) {
    && |states| == |ops| + 1 && states[0] == EMPTY
    && forall k :: 0 <= k < |ops| ==> Possible(states[k], ops[k]) && states[k + 1] == Apply(states[k], ops[k])
  }

  lemma StepInv(s: Tickets, op: Op)
    requires Inv(s) && Possible(s, op)
    ensures Inv(Apply(s, op))
  {
    match op
    case Take(n) => TakeInv(s, n);
    case Mark(t) => MarkInv(s, t);
    case Finish(t) => FinishInv(s, t);
  }

  lemma {:induction false} RunInv(states: seq<Tickets>, ops: seq<Op>, k: nat)
    requires IsRun(states, ops) && k < |states|
    ensures Inv(states[k])
  {
    hide Inv, Possible, Apply;
    if k > 0 {
      RunInv(states, ops, k - 1);
      assert states[k] == Apply(states[k - 1], ops[k - 1]);
      StepInv(states[k - 1], ops[k - 1]);
    } else {
      EmptyInv();
    }
  }

  lemma EmptyInv()
    ensures Inv(EMPTY)
  {
  }

  // ---- what each operation did ----

  /** A ticket has finished if and only if its `done()` came to its end. */
  lemma {:induction false} FinishedByDone(states: seq<Tickets>, ops: seq<Op>, k: nat, t: TicketId)
    requires IsRun(states, ops) && k < |states|
    ensures t in states[k].finished <==> exists j :: 0 <= j < k && ops[j] == Finish(t)
  {
    if k > 0 {
      FinishedByDone(states, ops, k - 1, t);
      assert states[k] == Apply(states[k - 1], ops[k - 1]);
      assert t in states[k].finished <==> t in states[k - 1].finished || ops[k - 1] == Finish(t);
    }
  }

  /** A ticket is marked if and only if its `done()` has begun. */
  lemma {:induction false} MarkedByDone(states: seq<Tickets>, ops: seq<Op>, k: nat, t: TicketId)
    requires IsRun(states, ops) && k < |states|
    ensures t in states[k].marked <==> exists j :: 0 <= j < k && ops[j] == Mark(t)
  {
    if k > 0 {
      MarkedByDone(states, ops, k - 1, t);
      assert states[k] == Apply(states[k - 1], ops[k - 1]);
      assert t in states[k].marked <==> t in states[k - 1].marked || ops[k - 1] == Mark(t);
    }
  }

  /** How many tickets the first operations took. */
  function TakenBy(ops: seq<Op>): (n: nat) {
    if ops == [] then 0
    else
      var last := ops[|ops| - 1];
      TakenBy(ops[..|ops| - 1]) + if last.Take? then last.count else 0
  }

  /** Tickets are numbered in the order they were taken, and the chain holds those whose `done()` has
      not come to its end, in that order. */
  lemma {:induction false} ChainIsUnfinished(states: seq<Tickets>, ops: seq<Op>, k: nat)
    requires IsRun(states, ops) && k < |states|
    ensures
      var s := states[k];
      && s.taken == TakenBy(ops[..k]) && Increasing(s.chain)
      && forall t: TicketId :: t in s.chain <==> t < s.taken && forall j :: 0 <= j < k ==> ops[j] != Finish(t)
  {
    RunInv(states, ops, k);
    forall t: TicketId {
      FinishedByDone(states, ops, k, t);
    }
    if k > 0 {
      ChainIsUnfinished(states, ops, k - 1);
      assert states[k] == Apply(states[k - 1], ops[k - 1]);
      assert ops[..k][..k - 1] == ops[..k - 1];
    }
  }

  /** At every point, tickets have been called in the order they were taken, and the only ticket
      that is called and unfinished is the first unfinished one. */
  lemma CalledInOrder(states: seq<Tickets>, ops: seq<Op>, k: nat)
    requires IsRun(states, ops) && k < |states|
    ensures
      var s := states[k];
      && Increasing(s.called)
      && (s.chain != [] ==> s.chain[0] in s.called)
      && (forall t :: t in s.called && t !in s.finished ==> s.chain != [] && t == s.chain[0])
  {
    RunInv(states, ops, k);
    var s := states[k];
    forall t | t in s.called && t !in s.finished ensures s.chain != [] && t == s.chain[0] {
      assert t in s.chain;
      HeadOfChain(s, IndexOf(s.chain, t));
    }
  }

  /** A ticket is called only once every ticket taken before it has finished, and never after it
      has finished itself. */
  lemma CalledWhenEarlierFinished(states: seq<Tickets>, ops: seq<Op>, k: nat, t: TicketId)
    requires IsRun(states, ops) && k < |ops| && t !in states[k].called && t in states[k + 1].called
    ensures
      var r := states[k + 1];
      r.called == states[k].called + [t] && t !in r.finished && forall e: TicketId :: e < t ==> e in r.finished
  {
    RunInv(states, ops, k);
    RunInv(states, ops, k + 1);
    var s, r := states[k], states[k + 1];
    assert r == Apply(s, ops[k]);
    assert r.called == s.called + [t] && r.chain != [] && t == r.chain[0];
    assert forall j :: 0 <= j < |r.chain| ==> t <= r.chain[j];
  }

  /** It is the turn of ticket `t`: it has not finished, and all earlier ones have. */
  predicate Due(s: Tickets, t: TicketId) {
    t < s.taken && t !in s.finished && forall e: TicketId :: e < t ==> e in s.finished
  }

  lemma DueIsHead(s: Tickets, t: TicketId)
    requires Inv(s)
    ensures Due(s, t) <==> s.chain != [] && s.chain[0] == t
  {
    if Due(s, t) {
      assert t in s.chain;
      assert s.chain[0] in s.chain;
    }
  }

  /** A ticket has been called if and only if at some point it was its turn, whether or not its
      `done()` had begun by then. */
  lemma {:induction false} CalledIfDue(states: seq<Tickets>, ops: seq<Op>, k: nat, t: TicketId)
    requires IsRun(states, ops) && k < |states|
    ensures t in states[k].called <==> exists j :: 0 <= j <= k && Due(states[j], t)
  {
    hide Due, Inv;
    RunInv(states, ops, k);
    DueIsHead(states[k], t);
    if Due(states[k], t) {
      CalledInOrder(states, ops, k);
    }
    if k > 0 {
      CalledIfDue(states, ops, k - 1, t);
      assert states[k] == Apply(states[k - 1], ops[k - 1]);
      if t in states[k].called && t !in states[k - 1].called {
        CalledWhenEarlierFinished(states, ops, k - 1, t);
        TurnOfCalled(states[k], t);
      }
    }
  }

  lemma TurnOfCalled(s: Tickets, t: TicketId)
    requires Inv(s) && t in s.called && t !in s.finished && forall e: TicketId :: e < t ==> e in s.finished
    ensures Due(s, t)
  {
  }

  /** A ticket that finishes before it is called is never called: `done()` has returned. */
  lemma {:induction false} FinishedIsNeverCalled(states: seq<Tickets>, ops: seq<Op>, j: nat, k: nat, t: TicketId)
    requires IsRun(states, ops) && j <= k < |states| && t in states[j].finished && t !in states[j].called
    ensures t in states[k].finished && t !in states[k].called
  {
    if j < k {
      FinishedIsNeverCalled(states, ops, j, k - 1, t);
      assert states[k] == Apply(states[k - 1], ops[k - 1]);
      if t in states[k].called {
        CalledWhenEarlierFinished(states, ops, k - 1, t);
      }
    }
  }

  /** To be marked is not enough: ticket 1 is called although its `done()` has begun. */
  lemma MarkedMayBeCalled() returns (states: seq<Tickets>, ops: seq<Op>)
    ensures IsRun(states, ops) && |ops| == 4
    ensures 1 in states[3].marked && 1 !in states[3].called && 1 in states[4].called
  {
    hide TakeTickets, FinishTicket;
    var taken := TwoTaken();
    var last := FirstFinished(taken.(marked := {0, 1}));
    ops := [Take(2), Mark(1), Mark(0), Finish(0)];
    states := [EMPTY, taken, taken.(marked := {1}), taken.(marked := {0, 1}), last];
    assert MarkTicket(states[1], 1) == states[2] && MarkTicket(states[2], 0) == states[3];
  }

  lemma TwoTaken() returns (s: Tickets)
    ensures s == TakeTickets(EMPTY, 2) == Tickets(2, [0, 1], [0], {}, {})
  {
    s := TakeTickets(EMPTY, 2);
    assert s.chain == [0, 1];
  }

  lemma FirstFinished(s: Tickets) returns (r: Tickets)
    requires s.chain == [0, 1] && s.called == [0]
    ensures r == FinishTicket(s, 0) && r.called == [0, 1]
  {
    r := FinishTicket(s, 0);
  }
}

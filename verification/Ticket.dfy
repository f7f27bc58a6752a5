/** `marl::Ticket` and `Ticket::Queue`: an intrusive doubly linked list of the unfinished tickets
    that ends in a sentinel. */
module Ticket {

  import opened Common
  import opened Chains
  import opened TicketOrder

  /** A function to be scheduled. */
  type Function = nat

  /** `onCall` lists the functions to run, in order, when the ticket is called. */
  class Record {
    var next: Record?
    var prev: Record?
    var onCall: seq<Function>
    var isCalled: bool
    var isDone: bool
    ghost var registered: seq<Function>   // all functions ever passed to onCall()
    ghost var scheduled: seq<Function>    // the functions passed on to the scheduler, in order

    constructor ()
      ensures next == null && prev == null && New()
    {
      next, prev, onCall, isCalled, isDone := null, null, [], false, false;
      registered, scheduled := [], [];
    }

    ghost predicate New()
      reads this`isCalled, this`isDone, this`onCall, this`registered, this`scheduled
    {
      !isCalled && !isDone && onCall == [] && registered == [] && scheduled == []
    }

    /** Nothing is scheduled before the call, and everything registered is scheduled by then. */
    ghost predicate Settled()
      reads this`isCalled, this`onCall, this`registered, this`scheduled
    {
      registered == scheduled + onCall && (if isCalled then onCall == [] else scheduled == [])
    }
  }

  /** The records of `q` form a well-linked chain without a neighbour at either end. */
  ghost predicate Linked(q: seq<Record>)
    reads q`next, q`prev
  {
    forall i :: 0 <= i < |q| ==> q[i].next == After(q, i, null) && q[i].prev == Before(q, i, null)
  }

  /** `Record::unlink()` */
  method Unlink(rec: Record, ghost q: seq<Record>, ghost i: nat)
    requires Linked(q) && NoDuplicates(q) && i < |q| && q[i] == rec
    modifies q`next, q`prev
    ensures Linked(Without(q, i)) && rec.next == null && rec.prev == null
  {
    hide After, Before;
    Adjacent(q, i, null);
    if rec.prev != null {
      rec.prev.next := rec.next;
    }
    if rec.next != null {
      rec.next.prev := rec.prev;
    }
    rec.prev := null;
    rec.next := null;
    assert forall j :: 0 <= j < |q| && j != i ==> q[j].next == After(q, if j + 1 == i then i else j, null);
    assert forall j :: 0 <= j < |q| && j != i ==> q[j].prev == Before(q, if j == i + 1 then i else j, null);
    ghost var rest := Without(q, i);
    forall k | 0 <= k < |rest| ensures rest[k].next == After(rest, k, null) && rest[k].prev == Before(rest, k, null) {
      Neighbours(q, i, k, null);
    }
  }

  /** One round of the loop of `take()`: links a new record behind the last one. */
  method Append(rec: Record, last: Record?, ghost q: seq<Record>)
    requires Linked(q) && NoDuplicates(q) && rec !in q && Linked([rec])
    requires last == if q == [] then null else q[|q| - 1]
    modifies q`next, rec`prev
    ensures Linked(q + [rec])
  {
    hide After, Before;
    Adjacent([rec], 0, null);
    if last != null {
      last.next := rec;
      rec.prev := last;
    }
    ghost var more := q + [rec];
    forall k | 0 <= k < |more| ensures more[k].next == After(more, k, null) && more[k].prev == Before(more, k, null) {
      Joined(q, [rec], k, null);
    }
  }

  lemma Pieces(q: seq<Record>, p: seq<Record>, tail: Record)
    requires NoDuplicates(q + p + [tail])
    ensures tail !in p && tail !in q && forall i :: 0 <= i < |q| ==> q[i] !in p
    ensures forall i, j :: 0 <= i < j < |q| ==> q[i] != q[j]
    ensures forall i, j :: 0 <= i < j < |p| ==> p[i] != p[j]
  {
    var r := q + p + [tail];
    assert forall i :: 0 <= i < |q| ==> q[i] == r[i];
    assert forall i :: 0 <= i < |p| ==> p[i] == r[|q| + i];
    assert r[|q| + |p|] == tail;
  }

  lemma Front(q: seq<Record>, tail: Record)
    requires Linked(q + [tail])
    ensures forall k :: 0 <= k < |q| ==>
              q[k].next == After(q + [tail], k, null) && q[k].prev == Before(q + [tail], k, null)
    ensures tail.next == null && tail.prev == if q == [] then null else q[|q| - 1]
  {
    var r := q + [tail];
    assert forall i :: 0 <= i < |q| ==> q[i] == r[i];
    assert r[|q|] == tail;
  }

  lemma Inner(p: seq<Record>)
    requires Linked(p)
    ensures forall k :: 0 <= k < |p| ==> p[k].next == After(p, k, null) && p[k].prev == Before(p, k, null)
  {
  }

  /** The links that make the two chains one. */
  lemma Whole(q: seq<Record>, p: seq<Record>, tail: Record)
    requires p != [] && tail.next == null && tail.prev == p[|p| - 1]
    requires forall k :: 0 <= k < |q| ==> q[k].prev == Before(q + [tail], k, null)
    requires forall k :: 0 <= k < |q| ==> q[k].next == if k + 1 == |q| then p[0] else After(q + [tail], k, null)
    requires forall k :: 0 <= k < |p| ==> p[k].next == if k + 1 == |p| then tail else After(p, k, null)
    requires forall k :: 0 <= k < |p| ==>
        p[k].prev == if k == 0 then (if q == [] then null else q[|q| - 1]) else Before(p, k, null)
    ensures Linked(q + p + [tail])
  {
    hide After, Before;
    Adjacent(q + [tail], |q|, null);
    var r := q + p + [tail];
    forall k | 0 <= k < |r| ensures r[k].next == After(r, k, null) && r[k].prev == Before(r, k, null) {
      Spliced(q, p, tail, k, null);
    }
  }

  /** Puts the new chain `p` between the chain `q` and the sentinel; the new chain has a record in
      front of it unless `q` is empty. */
  method Join(first: Record, last: Record, tail: Record, ghost q: seq<Record>, ghost p: seq<Record>)
    requires Linked(q + [tail]) && Linked(p) && NoDuplicates(q + p + [tail])
    requires p != [] && first == p[0] && last == p[|p| - 1]
    modifies q`next, p`next, p`prev, tail`prev
    ensures Linked(q + p + [tail])
  {
    hide After, Before, NoDuplicates, Linked;
    Pieces(q, p, tail);
    Front(q, tail);
    Inner(p);
    last.next := tail;
    first.prev := tail.prev;
    tail.prev := last;
    if first.prev != null {
      assert first.prev == q[|q| - 1];
      first.prev.next := first;
    }
    Whole(q, p, tail);
  }

  /** `Record::callAndUnlock()` */
  method Call(rec: Record)
    requires rec.Settled()
    modifies rec`isCalled, rec`onCall, rec`scheduled
    ensures rec.Settled() && rec.isCalled
  {
    if rec.isCalled {
      return;
    }
    rec.isCalled := true;
    rec.scheduled := rec.scheduled + rec.onCall;
    rec.onCall := [];
  }

  /** The records of the tickets `ids`. */
  ghost function Records(all: seq<Record>, ids: seq<TicketId>): (q: seq<Record>)
    requires InRange(ids, |all|)
    ensures |q| == |ids| && forall i :: 0 <= i < |q| ==> q[i] == all[ids[i]]
  {
    seq(|ids|, i requires 0 <= i < |ids| => all[ids[i]])
  }

  ghost predicate DoneFlags(all: seq<Record>, marked: set<TicketId>)
    reads all`isDone
  {
    forall t: TicketId :: t < |all| ==> (all[t].isDone <==> t in marked)
  }

  ghost predicate CallFlags(all: seq<Record>, called: seq<TicketId>)
    reads all`isCalled
  {
    forall t: TicketId :: t < |all| ==> (all[t].isCalled <==> t in called)
  }

  /** The flags and callbacks of all records agree with what has happened to their tickets. */
  ghost predicate Recorded(all: seq<Record>, marked: set<TicketId>, called: seq<TicketId>)
    reads all`isDone, all`isCalled, all`onCall, all`registered, all`scheduled
  {
    DoneFlags(all, marked) && CallFlags(all, called) && AllSettled(all)
  }

  ghost predicate AllSettled(all: seq<Record>)
    reads all`isCalled, all`onCall, all`registered, all`scheduled
  {
    forall t :: 0 <= t < |all| ==> all[t].Settled()
  }

  /** Calls a record, if there is one: the one of the ticket in `ids`, or the sentinel. */
  method CallRecord(rec: Record?, ghost ids: seq<TicketId>, ghost all: seq<Record>, ghost marked: set<TicketId>,
      ghost called: seq<TicketId>)
    requires NoDuplicates(all) && Recorded(all, marked, called)
    requires if |ids| == 1 then ids[0] < |all| && all[ids[0]] == rec
             else ids == [] && (rec != null ==> rec !in all && rec.Settled())
    modifies if rec == null then {} else {rec}`isCalled, if rec == null then {} else {rec}`onCall
    modifies if rec == null then {} else {rec}`scheduled
    ensures Recorded(all, marked, called + ids) && (rec != null ==> rec.Settled())
  {
    if rec != null {
      Call(rec);
    } else {
      assert called + ids == called;
    }
  }

  /** `isDone.exchange(true)` */
  method Exchange(rec: Record, ghost t: TicketId, ghost all: seq<Record>, ghost marked: set<TicketId>,
      ghost called: seq<TicketId>)
    returns (was: bool)
    requires NoDuplicates(all) && t < |all| && all[t] == rec && Recorded(all, marked, called)
    modifies rec`isDone
    ensures Recorded(all, marked + {t}, called) && (was <==> t in marked)
  {
    was := rec.isDone;
    rec.isDone := true;
  }

  // ---- new records ----

  /** Records that are linked to each other and on which nothing has happened yet. */
  ghost predicate NewChain(q: seq<Record>)
    reads q
  {
    Linked(q) && NoDuplicates(q) && forall k :: 0 <= k < |q| ==> q[k].New()
  }

  /** One round of the loop of `take()`. */
  method MakeOne(last: Record?, ghost q: seq<Record>) returns (rec: Record)
    requires NewChain(q) && last == if q == [] then null else q[|q| - 1]
    modifies q`next
    ensures fresh(rec) && NewChain(q + [rec])
  {
    rec := new Record();
    Append(rec, last, q);
    hide Linked;
  }

  /** The loop of `take()`: `n` new records linked to each other. */
  method Make(n: nat) returns (recs: seq<Record>)
    ensures |recs| == n && fresh(recs) && NewChain(recs)
  {
    recs := [];
    var last: Record? := null;
    for i := 0 to n
      invariant |recs| == i && fresh(recs) && NewChain(recs)
      invariant last == if recs == [] then null else recs[|recs| - 1]
    {
      hide NewChain;
      last := MakeOne(last, recs);
      recs := recs + [last];
    }
  }

  ghost predicate InRange(ids: seq<TicketId>, n: nat) {
    forall i :: 0 <= i < |ids| ==> ids[i] < n
  }

  ghost predicate Apart(all: seq<Record>, more: seq<Record>) {
    forall i, j :: 0 <= i < |all| && 0 <= j < |more| ==> all[i] != more[j]
  }

  lemma ChainDistinct(all: seq<Record>, s: Tickets, more: seq<Record>, tail: Record)
    requires NoDuplicates(all) && tail !in all && Inv(s) && InRange(s.chain, |all|)
    requires NoDuplicates(more) && Apart(all, more) && tail !in more
    ensures NoDuplicates(Records(all, s.chain) + more + [tail])
  {
    hide Records;
    var ids := s.chain;
    var q := Records(all, ids);
    forall i, j | 0 <= i < j < |ids| ensures q[i] != q[j] {
      assert all[ids[i]] == q[i] && all[ids[j]] == q[j];
    }
    assert forall k :: 0 <= k < |q| ==> q[k] in all;
  }

  lemma WholeChain(all: seq<Record>, s: Tickets, tail: Record)
    requires NoDuplicates(all) && tail !in all && Inv(s) && InRange(s.chain, |all|)
    ensures
      var q := Records(all, s.chain) + [tail];
      NoDuplicates(q) && forall k :: 0 <= k < |q| ==> q[k] in all || q[k] == tail
    ensures forall k :: 0 <= k < |s.chain| ==> s.chain[k] < |all|
  {
    ChainDistinct(all, s, [], tail);
    assert Records(all, s.chain) + [] == Records(all, s.chain);
  }

  lemma Fresh(all: seq<Record>, recs: seq<Record>)
    requires NoDuplicates(all) && NewChain(recs) && Apart(all, recs)
    ensures Linked(recs) && NoDuplicates(recs) && NoDuplicates(all + recs)
    ensures forall k :: 0 <= k < |recs| ==> recs[k].New()
  {
    hide Linked;
  }

  lemma Ends(q: seq<Record>, i: nat)
    requires Linked(q) && i < |q|
    ensures q[i].prev == if i == 0 then null else q[i - 1]
    ensures q[i].next == if i + 1 == |q| then null else q[i + 1]
  {
  }

  lemma ExtendFlags(all: seq<Record>, recs: seq<Record>, s: Tickets)
    requires Inv(s) && |all| == s.taken && forall k :: 0 <= k < |recs| ==> recs[k].New()
    requires Recorded(all, s.marked, s.called)
    ensures Recorded(all + recs, s.marked, s.called)
  {
    hide Increasing;
  }

  lemma ExtendRecords(all: seq<Record>, recs: seq<Record>, ids: seq<TicketId>)
    requires InRange(ids, |all|)
    ensures
      var more := ids + Range(|all|, |recs|);
      && InRange(more, |all + recs|)
      && Records(all + recs, more) == Records(all, ids) + recs
  {
    hide Records, Range;
    var more := ids + Range(|all|, |recs|);
  }

  lemma DropRecord(all: seq<Record>, ids: seq<TicketId>, i: nat, tail: Record)
    requires i < |ids| && InRange(ids, |all|)
    ensures InRange(Without(ids, i), |all|)
    ensures Records(all, Without(ids, i)) + [tail] == Without(Records(all, ids) + [tail], i)
  {
    hide Records, Without;
  }

  /** The links that `take()` makes; the first new record has nothing in front of it if and only if
      no ticket was unfinished. */
  method JoinNew(recs: seq<Record>, tail: Record, ghost all: seq<Record>, ghost s: Tickets) returns (alone: Record?)
    requires NoDuplicates(all) && tail !in all && Inv(s) && |all| == s.taken && InRange(s.chain, |all|)
    requires Linked(Records(all, s.chain) + [tail])
    requires NewChain(recs) && Apart(all, recs) && tail !in recs && recs != [] && Recorded(all, s.marked, s.called)
    modifies all`next, tail`prev, recs`next, recs`prev
    ensures var r := TakeTickets(s, |recs|);
      InRange(r.chain, |all + recs|) && Linked(Records(all + recs, r.chain) + [tail])
    ensures NoDuplicates(all + recs) && Recorded(all + recs, s.marked, s.called)
    ensures alone == if s.chain == [] then recs[0] else null
  {
    hide Linked, Inv, Records, NoDuplicates, InRange, NewChain, Range, Apart, Recorded, Record.New;
    ghost var q := Records(all, s.chain);
    Fresh(all, recs);
    ExtendFlags(all, recs, s);
    ChainDistinct(all, s, recs, tail);
    WholeChain(all, s, tail);
    InsideChain(q, tail);
    Join(recs[0], recs[|recs| - 1], tail, q, recs);
    ExtendRecords(all, recs, s.chain);
    Ends(q + recs + [tail], |q|);
    alone := if recs[0].prev == null then recs[0] else null;
  }

  /** The links that `done()` changes; returns the record to call next, if any. */
  method Leave(rec: Record, tail: Record, ghost all: seq<Record>, ghost s: Tickets, ghost i: nat)
    returns (callNext: Record?)
    requires NoDuplicates(all) && tail !in all && Inv(s) && InRange(s.chain, |all|)
    requires Linked(Records(all, s.chain) + [tail]) && i < |s.chain| && s.chain[i] < |all| && all[s.chain[i]] == rec
    modifies all`next, all`prev, tail`next, tail`prev
    ensures InRange(Without(s.chain, i), |all|) && Linked(Records(all, Without(s.chain, i)) + [tail])
    ensures if i > 0 then callNext == null
            else if |s.chain| == 1 then callNext == tail
            else s.chain[1] < |all| && callNext == all[s.chain[1]]
  {
    hide Linked, Inv, Records, NoDuplicates, InRange, Without;
    ghost var q := Records(all, s.chain) + [tail];
    Ends(q, i);
    callNext := if rec.prev == null && rec.next != null then rec.next else null;
    WholeChain(all, s, tail);
    Unlink(rec, q, i);
    DropRecord(all, s.chain, i, tail);
  }

  lemma InsideChain(q: seq<Record>, tail: Record)
    ensures forall k :: 0 <= k < |q| ==> q[k] == (q + [tail])[k]
  {
  }

  class Queue {
    const tail: Record
    ghost var all: seq<Record>      // the record of every ticket taken, by number
    ghost var tickets: Tickets      // what the queue has done, as TicketOrder describes it

    /** The unfinished tickets are linked in order up to the sentinel, and the flags and callbacks
        of every record agree with what has happened to its ticket. */
    ghost predicate Valid()
      reads this, tail, all
    {
      && NoDuplicates(all) && tail !in all
      && Inv(tickets) && |all| == tickets.taken
      && InRange(tickets.chain, |all|)
      && Linked(Records(all, tickets.chain) + [tail])
      && Recorded(all, tickets.marked, tickets.called) && tail.Settled()
    }

    constructor ()
      ensures Valid() && all == [] && tickets == EMPTY && fresh(tail)
    {
      tail := new Record();
      all, tickets := [], EMPTY;
    }

    /** `onCall(f)` on ticket `t`. */
    method OnCall(rec: Record, ghost t: TicketId, f: Function)
      requires Valid() && t < |all| && all[t] == rec
      modifies rec`onCall, rec`registered, rec`scheduled
      ensures Valid() && rec.registered == old(rec.registered) + [f]
    {
      hide Linked, DoneFlags, CallFlags, Inv, Records, NoDuplicates, InRange;
      rec.registered := rec.registered + [f];
      if rec.isCalled {
        rec.scheduled := rec.scheduled + [f];
      } else {
        rec.onCall := rec.onCall + [f];
      }
    }

    /** Joins new records to the chain; the second half of `take()`. */
    method Enter(recs: seq<Record>)
      requires Valid() && NewChain(recs) && recs != [] && Apart(all, recs) && tail !in recs
      modifies this`all, this`tickets, all`next, tail`prev, recs
      ensures Valid() && all == old(all) + recs && tickets == TakeTickets(old(tickets), |recs|)
    {
      hide Linked, Recorded, Inv, Records, NoDuplicates, InRange, NewChain, Range, Record.Settled, Apart;
      ghost var s := TakeTickets(tickets, |recs|);
      TakeInv(tickets, |recs|);
      var alone := JoinNew(recs, tail, all, tickets);
      all := all + recs;
      ghost var q := Records(all, s.chain) + [tail];
      assert Linked(q);
      CallRecord(alone, if tickets.chain == [] then [tickets.taken] else [], all, tickets.marked, tickets.called);
      tickets := s;
    }

    /** `take(n, f)`; the new tickets are numbered on from the ones taken before. */
    method Take(n: nat) returns (recs: seq<Record>)
      requires Valid() && n > 0
      modifies this`all, this`tickets, all`next, tail`prev
      ensures Valid() && |recs| == n && fresh(recs) && all == old(all) + recs
      ensures tickets == TakeTickets(old(tickets), n)
    {
      hide Linked, Recorded, Inv, Records, NoDuplicates, InRange, NewChain;
      assert Linked(Records(all, tickets.chain) + [tail]);
      recs := Make(n);
      Enter(recs);
    }

    /** The start of `done()` on ticket `t`, before it takes the mutex. */
    method BeginDone(rec: Record, ghost t: TicketId) returns (was: bool)
      requires Valid() && t < |all| && all[t] == rec
      modifies this`tickets, rec`isDone
      ensures Valid() && tickets == MarkTicket(old(tickets), t) && (was <==> t in old(tickets.marked))
    {
      hide Linked, Recorded, Inv, Records, NoDuplicates, InRange, Record.Settled;
      assert Linked(Records(all, tickets.chain) + [tail]);
      MarkInv(tickets, t);
      was := Exchange(rec, t, all, tickets.marked, tickets.called);
      tickets := MarkTicket(tickets, t);
    }

    /** The rest of `done()`, for the caller that marked the ticket. */
    method EndDone(rec: Record, ghost t: TicketId)
      requires Valid() && t < |all| && all[t] == rec && t in tickets.marked && t !in tickets.finished
      modifies this`tickets, all`next, all`prev, all`isCalled, all`onCall, all`scheduled
      modifies tail`next, tail`prev, tail`isCalled, tail`onCall, tail`scheduled
      ensures Valid() && t in old(tickets.chain) && tickets == FinishTicket(old(tickets), t)
      ensures t in tickets.finished && forall u :: u in tickets.chain <==> u in old(tickets.chain) && u != t
    {
      hide Linked, Recorded, Inv, Records, NoDuplicates, InRange, Record.Settled, IndexOf, Without;
      FinishInv(tickets, t);
      ghost var ids := tickets.chain;
      ghost var i := IndexOf(ids, t);
      var callNext := Leave(rec, tail, all, tickets, i);
      ghost var q := Records(all, Without(ids, i)) + [tail];
      assert Linked(q);
      CallRecord(callNext, if i == 0 && |ids| > 1 then [ids[1]] else [], all, tickets.marked, tickets.called);
      tickets := FinishTicket(tickets, t);
    }

    /** `done()` on ticket `t`, without interruption. */
    method Done(rec: Record, ghost t: TicketId)
      requires Valid() && t < |all| && all[t] == rec
      modifies this`tickets, all`next, all`prev, all`isDone, all`isCalled, all`onCall, all`scheduled
      modifies tail`next, tail`prev, tail`isCalled, tail`onCall, tail`scheduled
      ensures Valid() && tickets == DoneTicket(old(tickets), t)
      ensures t in tickets.marked && (t in old(tickets.marked) ==> tickets == old(tickets))
      ensures t !in old(tickets.marked) ==>
                t in tickets.finished && forall u :: u in tickets.chain <==> u in old(tickets.chain) && u != t
    {
      hide Valid, IndexOf, Without;
      InChain(this, t);
      var was := BeginDone(rec, t);
      if was {
        assert tickets == old(tickets);
        return;
      }
      EndDone(rec, t);
    }
  }

  lemma InChain(queue: Queue, t: TicketId)
    requires queue.Valid() && t < |queue.all|
    ensures t in queue.tickets.marked || (t in queue.tickets.chain && t !in queue.tickets.finished)
  {
    hide Records, Linked, NoDuplicates;
  }

  /** Walking the links from the first unfinished ticket visits the unfinished tickets in the order
      they were taken, then the sentinel; of these only the first is called. */
  lemma HeadIsCalled(queue: Queue, i: nat)
    requires queue.Valid() && i < |queue.tickets.chain|
    ensures
      var ids, all := queue.tickets.chain, queue.all;
      var rec := all[ids[i]];
      && (rec.isCalled <==> i == 0)
      && rec.next == (if i + 1 < |ids| then all[ids[i + 1]] else queue.tail)
      && rec.prev == (if i > 0 then all[ids[i - 1]] else null)
  {
    hide Records, Linked, Inv, NoDuplicates;
    var s := queue.tickets;
    Ends(Records(queue.all, s.chain) + [queue.tail], i);
    HeadOfChain(s, i);
  }

  /** At most one ticket is called and has not left the chain; nor are two records called and not
      marked as done. */
  lemma OneAtATime(queue: Queue, t: TicketId, u: TicketId)
    requires queue.Valid() && t < |queue.all| && u < |queue.all| && queue.all[t].isCalled && queue.all[u].isCalled
    requires t !in queue.tickets.finished || !queue.all[t].isDone
    requires u !in queue.tickets.finished || !queue.all[u].isDone
    ensures t == u
  {
    hide Records, Linked, NoDuplicates;
    var ids := queue.tickets.chain;
    assert t in ids && u in ids;
    HeadIsCalled(queue, IndexOf(ids, t));
    HeadIsCalled(queue, IndexOf(ids, u));
  }

  /** Every function registered with a called ticket has been scheduled exactly once, in the order
      of registration; nothing is scheduled for a ticket that has not been called. */
  lemma CallbacksOnce(queue: Queue, t: TicketId)
    requires queue.Valid() && t < |queue.all|
    ensures queue.all[t].scheduled == if t in queue.tickets.called then queue.all[t].registered else []
  {
    assert queue.all[t].Settled();
  }
}

/** What the operations on events did, told from the history of operations alone. */
module EventHistory {
  import opened EventModel

  /** Operation `j` turns event `e` on. */
  predicate TurnsOn(states: seq<Events>, j: nat, e: EventId)
    requires j + 1 < |states|
  {
    e in states[j + 1].on && e !in states[j].on
  }

  /** The operation turns event `e` off if it is on: `clear()`, or a wait or test that succeeds on an
      Auto event. */
  predicate TurnsOff(s: Events, op: Op, e: EventId) {
    op == Clear(e) || (op == Take(e) && e < |s.modes| && s.modes[e].Auto?)
  }

  /** Operation `j` turned event `e` on, and none has turned it off since. */
  ghost predicate OnSince(states: seq<Events>, ops: seq<Op>, j: nat, k: nat, e: EventId)
    requires |states| == |ops| + 1 && k <= |ops|
  {
    j < k && TurnsOn(states, j, e) && forall i :: j < i < k ==> !TurnsOff(states[i], ops[i], e)
  }

  ghost predicate WasTurnedOn(states: seq<Events>, ops: seq<Op>, k: nat, e: EventId)
    requires |states| == |ops| + 1 && k <= |ops|
  {
    exists j :: 0 <= j < k && OnSince(states, ops, j, k, e)
  }

  lemma OffOrNot(s: Events, op: Op, e: EventId)
    requires Inv(s) && Possible(s, op) && e in s.on
    ensures e in Apply(s, op).on <==> !TurnsOff(s, op, e)
  {
    hide Signal, Forward;
    match op
    case Link(any) => SignalSpreads(s.g, s.on, any);
    case Raise(x) => SignalSpreads(s.g, s.on, x);
    case Create(_, _, _) =>
    case Clear(_) =>
    case Take(_) =>
  }

  /** An event is on if and only if some operation turned it on and none has turned it off since. */
  lemma {:induction false} OnIfTurnedOn(states: seq<Events>, ops: seq<Op>, k: nat, e: EventId)
    requires IsRun(states, ops) && k < |states|
    ensures e in states[k].on <==> WasTurnedOn(states, ops, k, e)
  {
    hide Inv, Apply, Possible;
    if k > 0 {
      var s, op := states[k - 1], ops[k - 1];
      OnIfTurnedOn(states, ops, k - 1, e);
      RunInv(states, ops, k - 1);
      assert states[k] == Apply(s, op);
      if e in s.on {
        OffOrNot(s, op, e);
        var j :| 0 <= j < k - 1 && OnSince(states, ops, j, k - 1, e);
        if e in states[k].on {
          assert OnSince(states, ops, j, k, e);
        } else {
          StillOff(states, ops, k, e);
        }
      } else if e in states[k].on {
        assert OnSince(states, ops, k - 1, k, e);
      } else {
        StillOff(states, ops, k, e);
      }
    }
  }

  /** An event that is off after an operation has not been on since any operation. */
  lemma StillOff(states: seq<Events>, ops: seq<Op>, k: nat, e: EventId)
    requires |states| == |ops| + 1 && 0 < k < |states| && e !in states[k].on
    requires e in states[k - 1].on ==> TurnsOff(states[k - 1], ops[k - 1], e)
    requires e !in states[k - 1].on ==> !WasTurnedOn(states, ops, k - 1, e)
    ensures !WasTurnedOn(states, ops, k, e)
  {
    forall j | 0 <= j < k ensures !OnSince(states, ops, j, k, e) {
      if j < k - 1 && e !in states[k - 1].on {
        assert !OnSince(states, ops, j, k - 1, e);
      }
    }
  }

  /** What turns on an event that is off: its creation, or a signal that reaches it, whether by
      `signal()` or because `any()` finds a source on. */
  lemma TurnedOnBy(s: Events, op: Op, e: EventId)
    requires Inv(s) && Possible(s, op) && e !in s.on
    ensures e in Apply(s, op).on <==>
            || (op.Create? && op.initial && e == |s.g|)
            || (op.Raise? && Reaches(s.g, s.on, op.event, e))
            || (op.Link? && s.pending[op.any][0] in s.on && Reaches(s.g, s.on, op.any, e))
  {
    hide Signal, Reaches, Forward;
    match op
    case Link(any) => SignalReaches(s.g, s.on, any, e);
    case Raise(x) => SignalReaches(s.g, s.on, x, e);
    case Create(_, _, _) =>
    case Clear(_) =>
    case Take(_) =>
  }

  // ---- dependencies ----

  /** How many sources of event `a` have been visited. */
  ghost predicate Visited(s: Events, a: EventId, sources: seq<EventId>, n: nat) {
    && a < |s.pending| && n <= |sources| && s.pending[a] == sources[n..]
    && (forall i :: 0 <= i < |sources| ==> sources[i] < a)
    && forall x :: 0 <= x < |s.g| ==> (a in s.g[x] <==> x in sources[..n])
  }

  lemma FirstVisit(s: Events, mode: Mode, initial: bool, sources: seq<EventId>)
    requires Inv(s) && Possible(s, Create(mode, initial, sources))
    ensures Visited(Apply(s, Create(mode, initial, sources)), |s.g|, sources, 0)
  {
    var r := Apply(s, Create(mode, initial, sources));
    assert forall x :: 0 <= x < |s.g| ==> |s.g| !in s.g[x];
  }

  lemma NextVisit(s: Events, op: Op, a: EventId, sources: seq<EventId>, n: nat)
    requires Inv(s) && Possible(s, op) && Visited(s, a, sources, n)
    ensures Visited(Apply(s, op), a, sources, if op == Link(a) then n + 1 else n)
  {
    hide Signal, Counted, Forward;
    var r := Apply(s, op);
    if op.Link? {
      var x := s.pending[op.any][0];
      assert r.g == s.g[x := s.g[x] + [op.any]];
      if op.any == a {
        assert sources[..n + 1] == sources[..n] + [x];
      }
    } else if op.Create? {
      assert forall x :: 0 <= x < |s.g| ==> r.g[x] == s.g[x];
      assert |s.g| !in sources[..n];
    }
  }

  function LinksOf(ops: seq<Op>, a: EventId): (n: nat) {
    if ops == [] then 0 else LinksOf(ops[..|ops| - 1], a) + if ops[|ops| - 1] == Link(a) then 1 else 0
  }

  /** After any further operations, event `a` that operation `j` created depends exactly on those of
      its sources that `any()` has visited, in order and one for each round. */
  lemma {:induction false} DependsOnSources(states: seq<Events>, ops: seq<Op>, j: nat, k: nat) returns (n: nat)
    requires IsRun(states, ops) && j < k < |states| && ops[j].Create?
    ensures n == LinksOf(ops[j + 1..k], |states[j].g|) && Visited(states[k], |states[j].g|, ops[j].sources, n)
    decreases k
  {
    hide Inv, Apply, Visited;
    RunInv(states, ops, k - 1);
    assert Possible(states[k - 1], ops[k - 1]) && states[k] == Apply(states[k - 1], ops[k - 1]);
    if j == k - 1 {
      n := 0;
      FirstVisit(states[j], ops[j].mode, ops[j].initial, ops[j].sources);
    } else {
      n := DependsOnSources(states, ops, j, k - 1);
      assert ops[j + 1..k][..k - j - 2] == ops[j + 1..k - 1];
      NextVisit(states[k - 1], ops[k - 1], |states[j].g|, ops[j].sources, n);
      n := if ops[k - 1] == Link(|states[j].g|) then n + 1 else n;
    }
  }

  // ---- counts ----

  function TakesOf(ops: seq<Op>, e: EventId): (n: nat) {
    if ops == [] then 0 else TakesOf(ops[..|ops| - 1], e) + if ops[|ops| - 1] == Take(e) then 1 else 0
  }

  /** `spent` counts the waits and tests that succeeded. */
  lemma {:induction false} SpentExactly(states: seq<Events>, ops: seq<Op>, k: nat, e: EventId)
    requires IsRun(states, ops) && k < |states|
    ensures if e < |states[k].spent| then states[k].spent[e] == TakesOf(ops[..k], e) else TakesOf(ops[..k], e) == 0
  {
    if k > 0 {
      SpentExactly(states, ops, k - 1, e);
      RunInv(states, ops, k - 1);
      assert states[k] == Apply(states[k - 1], ops[k - 1]);
      assert ops[..k][..k - 1] == ops[..k - 1];
    }
  }

  function TurnsOnOf(states: seq<Events>, e: EventId): (n: nat) {
    if |states| < 2 then 0
    else
      var k := |states| - 2;
      TurnsOnOf(states[..k + 1], e) + if TurnsOn(states, k, e) then 1 else 0
  }

  /** `gained` counts the operations that turned the event on. */
  lemma {:induction false} GainedExactly(states: seq<Events>, ops: seq<Op>, k: nat, e: EventId)
    requires IsRun(states, ops) && k < |states|
    ensures if e < |states[k].gained| then states[k].gained[e] == TurnsOnOf(states[..k + 1], e)
            else TurnsOnOf(states[..k + 1], e) == 0
  {
    RunInv(states, ops, k);
    if k > 0 {
      GainedExactly(states, ops, k - 1, e);
      RunInv(states, ops, k - 1);
      assert states[k] == Apply(states[k - 1], ops[k - 1]);
      assert states[..k + 1][..k] == states[..k];
      GainedStep(states[k - 1], ops[k - 1], e);
    }
  }

  lemma GainedStep(s: Events, op: Op, e: EventId)
    requires Inv(s) && Possible(s, op)
    ensures
      var r := Apply(s, op);
      e < |r.gained| ==>
        r.gained[e] == (if e < |s.gained| then s.gained[e] else 0) + (if e in r.on && e !in s.on then 1 else 0)
  {
    hide Signal, Forward;
    match op
    case Link(any) => SignalSpreads(s.g, s.on, any);
    case Raise(x) => SignalSpreads(s.g, s.on, x);
    case Create(_, _, _) =>
    case Clear(_) =>
    case Take(_) =>
  }
}

/** What `marl::Event` promises, on values: events are numbered in the order they are created, and
    `any()` makes a newer event depend on older ones. */
module EventModel {

  type EventId = nat

  /** For every event, the events that it signals in turn. */
  type Graph = seq<seq<EventId>>

  /** Edges lead from older to newer events. */
  predicate Forward(g: Graph) {
    forall i, k :: 0 <= i < |g| && 0 <= k < |g[i]| ==> i < g[i][k] < |g|
  }

  /** `Shared::signal()`: the events that are signalled afterwards, if `on` were before.  Only edges
      to newer events are followed; that there are no others is proved below. */
  function Signal(g: Graph, on: set<EventId>, e: EventId): (r: set<EventId>)
    requires e < |g|
    decreases |g| - e, 0, 0
  {
    if e in on then on else SignalAll(g, on + {e}, e, 0)
  }

  /** The loop of `signal()` over the dependencies of `e`, from number `k` on. */
  function SignalAll(g: Graph, on: set<EventId>, e: EventId, k: nat): (r: set<EventId>)
    requires e < |g| && k <= |g[e]|
    decreases |g| - e - 1, 1, |g[e]| - k
  {
    if k == |g[e]| then on
    else SignalAll(g, if e < g[e][k] < |g| then Signal(g, on, g[e][k]) else on, e, k + 1)
  }

  // ---- what a signal reaches ----

  /** Every event that is on in `r` and was not in `on` has all its dependencies on. */
  predicate Spread(g: Graph, on: set<EventId>, r: set<EventId>) {
    on <= r && forall i, k :: i in r - on && 0 <= i < |g| && 0 <= k < |g[i]| ==> g[i][k] in r
  }

  lemma {:induction false} SignalSpreads(g: Graph, on: set<EventId>, e: EventId)
    requires Forward(g) && e < |g|
    ensures e in Signal(g, on, e) && Spread(g, on, Signal(g, on, e))
    decreases |g| - e, 0, 0
  {
    if e !in on {
      var r := SignalAll(g, on + {e}, e, 0);
      SignalAllSpreads(g, on + {e}, e, 0);
      assert r - on == r - (on + {e}) + {e};
    }
  }

  lemma {:induction false} SignalAllSpreads(g: Graph, on: set<EventId>, e: EventId, k: nat)
    requires Forward(g) && e < |g| && k <= |g[e]|
    ensures
      var r := SignalAll(g, on, e, k);
      Spread(g, on, r) && forall j :: k <= j < |g[e]| ==> g[e][j] in r
    decreases |g| - e - 1, 1, |g[e]| - k
  {
    if k < |g[e]| {
      var mid := Signal(g, on, g[e][k]);
      SignalSpreads(g, on, g[e][k]);
      SignalAllSpreads(g, mid, e, k + 1);
    }
  }

  /** `p` is a path along dependencies through events that are not in `on`. */
  predicate Path(g: Graph, on: set<EventId>, p: seq<EventId>) {
    && |p| > 0 && (forall i :: 0 <= i < |p| ==> p[i] < |g| && p[i] !in on)
    && (forall i :: 0 < i < |p| ==> p[i] in g[p[i - 1]])
  }

  ghost predicate Reaches(g: Graph, on: set<EventId>, e: EventId, d: EventId) {
    exists p: seq<EventId> :: Path(g, on, p) && p[0] == e && p[|p| - 1] == d
  }

  lemma {:induction false} PathStaysOn(g: Graph, on: set<EventId>, r: set<EventId>, p: seq<EventId>)
    requires Forward(g) && Spread(g, on, r) && Path(g, on, p) && p[0] in r
    ensures p[|p| - 1] in r
  {
    if |p| > 1 {
      var q := p[..|p| - 1];
      PathStaysOn(g, on, r, q);
      var i := p[|p| - 2];
      var k :| 0 <= k < |g[i]| && g[i][k] == p[|p| - 1];
    }
  }

  lemma {:induction false} OnlyReached(g: Graph, on: set<EventId>, e: EventId, d: EventId)
    requires Forward(g) && e < |g| && d in Signal(g, on, e) - on
    ensures d < |g| && Reaches(g, on, e, d)
    decreases |g| - e, 0, 0
  {
    if d == e {
      assert Path(g, on, [e]);
    } else {
      var c := OnlyReachedFrom(g, on + {e}, e, 0, d);
      var p: seq<EventId> :| Path(g, on + {e}, p) && p[0] == c && p[|p| - 1] == d;
      assert Path(g, on, [e] + p);
    }
  }

  lemma {:induction false} OnlyReachedFrom(g: Graph, on: set<EventId>, e: EventId, k: nat, d: EventId)
    returns (c: EventId)
    requires Forward(g) && e < |g| && k <= |g[e]| && d in SignalAll(g, on, e, k) - on
    ensures c in g[e] && d < |g| && Reaches(g, on, c, d)
    decreases |g| - e - 1, 1, |g[e]| - k
  {
    var mid := Signal(g, on, g[e][k]);
    if d in mid {
      c := g[e][k];
      OnlyReached(g, on, c, d);
    } else {
      c := OnlyReachedFrom(g, mid, e, k + 1, d);
      SignalSpreads(g, on, g[e][k]);
      var p: seq<EventId> :| Path(g, mid, p) && p[0] == c && p[|p| - 1] == d;
      assert Path(g, on, p);
    }
  }

  /** A signal turns on exactly the events it can reach without passing an event that is on. */
  lemma SignalReaches(g: Graph, on: set<EventId>, e: EventId, d: EventId)
    requires Forward(g) && e < |g|
    ensures d in Signal(g, on, e) <==> d in on || Reaches(g, on, e, d)
  {
    SignalSpreads(g, on, e);
    if d in Signal(g, on, e) && d !in on {
      OnlyReached(g, on, e, d);
    } else if Reaches(g, on, e, d) {
      var p: seq<EventId> :| Path(g, on, p) && p[0] == e && p[|p| - 1] == d;
      PathStaysOn(g, on, Signal(g, on, e), p);
    }
  }

  // ---- any run of operations on any events ----

  datatype Mode = Auto | Manual

  /** For every event: the sources that the call of `any()` which created it has yet to visit, how
      often it went from off to on (or was created on), how often a wait or a test of it succeeded,
      and how often clear() turned it off. */
  datatype Events = Events(g: Graph, modes: seq<Mode>, on: set<EventId>, pending: seq<seq<EventId>>,
                           gained: seq<nat>, spent: seq<nat>, dropped: seq<nat>)

  /** `Create` is a constructor, or the start of `any()` on events that exist by then; `Link` is one
      round of the loop of `any()`. `Take` is a wait or a test that succeeds. */
  datatype Op =
    | Create(mode: Mode, initial: bool, sources: seq<EventId>)
    | Link(any: EventId)
    | Raise(event: EventId)
    | Clear(event: EventId)
    | Take(event: EventId)

  const EMPTY := Events([], [], {}, [], [], [], [])

  predicate Possible(s: Events, op: Op) {
    match op
    case Create(_, _, sources) => forall k :: 0 <= k < |sources| ==> sources[k] < |s.g|
    case Link(any) => any < |s.g| && any < |s.pending| && s.pending[any] != [] && s.pending[any][0] < |s.g|
    case Raise(e) => e < |s.g|
    case Clear(e) => e < |s.g|
    case Take(e) => e < |s.modes| && e in s.on
  }

  /** Dependencies lead from older to newer events, and so do those that `any()` has yet to add. */
  predicate Sized(s: Events) {
    && |s.modes| == |s.gained| == |s.spent| == |s.dropped| == |s.pending| == |s.g|
    && Forward(s.g) && (forall i :: i in s.on ==> i < |s.g|)
    && (forall i, k :: 0 <= i < |s.pending| && 0 <= k < |s.pending[i]| ==> s.pending[i][k] < i)
  }

  function Counted(counts: seq<nat>, these: set<EventId>): (r: seq<nat>)
    ensures |r| == |counts|
    ensures forall i :: 0 <= i < |r| ==> r[i] == counts[i] + if i in these then 1 else 0
  {
    seq(|counts|, i requires 0 <= i < |counts| => counts[i] + if i in these then 1 else 0)
  }

  /** Signals event `e`. */
  function SignalEvent(s: Events, e: EventId): (r: Events)
    requires e < |s.g|
  {
    var on := Signal(s.g, s.on, e);
    s.(on := on, gained := Counted(s.gained, on - s.on))
  }

  function Apply(s: Events, op: Op): (r: Events)
    requires Possible(s, op)
  {
    match op
    case Create(mode, initial, sources) =>
      Events(s.g + [[]], s.modes + [mode], if initial then s.on + {|s.g|} else s.on, s.pending + [sources],
             s.gained + [if initial then 1 else 0], s.spent + [0], s.dropped + [0])
    case Link(any) =>
      var source := s.pending[any][0];
      var r := if source in s.on then SignalEvent(s, any) else s;
      r.(g := s.g[source := s.g[source] + [any]], pending := s.pending[any := s.pending[any][1..]])
    case Raise(e) => SignalEvent(s, e)
    case Clear(e) => s.(on := s.on - {e}, dropped := Counted(s.dropped, s.on * {e}))
    case Take(e) =>
      s.(on := if s.modes[e].Auto? then s.on - {e} else s.on, spent := Counted(s.spent, {e}))
  }

  /** How often an event went from on to off. */
  function Drained(s: Events, i: EventId): (n: nat)
    requires Sized(s) && i < |s.g|
  {
    s.dropped[i] + if s.modes[i].Auto? then s.spent[i] else 0
  }

  /** Signals are conserved, and the dependencies of an event that is on have been signalled. */
  ghost predicate Inv(s: Events) {
    && Sized(s)
    && (forall i: EventId :: i < |s.g| ==> s.gained[i] == Drained(s, i) + if i in s.on then 1 else 0)
    && (forall i: EventId, k :: i in s.on && 0 <= k < |s.g[i]| ==> s.gained[s.g[i][k]] > 0)
  }

  lemma SignalInv(s: Events, e: EventId)
    requires Inv(s) && e < |s.g|
    ensures Inv(SignalEvent(s, e)) && e in SignalEvent(s, e).on
  {
    SignalSpreads(s.g, s.on, e);
    var r := SignalEvent(s, e);
    forall i | i in r.on ensures i < |s.g| {
      if i !in s.on {
        OnlyReached(s.g, s.on, e, i);
      }
    }
    assert forall d :: d in r.on && d < |s.g| ==> r.gained[d] > 0;
  }

  /** A dependency may be added behind an event whose new dependency has been signalled. */
  lemma LinkInv(s: Events, source: EventId, any: EventId)
    requires Inv(s) && source < any < |s.g| && (source in s.on ==> any in s.on)
    ensures Inv(s.(g := s.g[source := s.g[source] + [any]]))
  {
  }

  lemma VisitedInv(s: Events, any: EventId)
    requires Inv(s) && any < |s.pending| && s.pending[any] != []
    ensures Inv(s.(pending := s.pending[any := s.pending[any][1..]]))
  {
    hide Forward;
  }

  /** The source that `any()` visits next is older than the new event. */
  lemma SourceIsOlder(s: Events, any: EventId)
    requires Inv(s) && Possible(s, Link(any))
    ensures s.pending[any][0] < any
  {
  }

  lemma LinkStepInv(s: Events, any: EventId)
    requires Inv(s) && Possible(s, Link(any))
    ensures Inv(Apply(s, Link(any)))
  {
    hide Inv, Signal;
    var source := s.pending[any][0];
    SourceIsOlder(s, any);
    var r := s;
    if source in s.on {
      SignalInv(s, any);
      r := SignalEvent(s, any);
    }
    LinkInv(r, source, any);
    VisitedInv(r.(g := r.g[source := r.g[source] + [any]]), any);
  }

  lemma OffInv(s: Events, op: Op)
    requires Inv(s) && Possible(s, op) && (op.Clear? || op.Take?)
    ensures Inv(Apply(s, op))
  {
    hide Forward;
  }

  lemma StepInv(s: Events, op: Op)
    requires Inv(s) && Possible(s, op)
    ensures Inv(Apply(s, op))
  {
    match op
    case Create(_, _, _) =>
    case Link(any) =>
      hide Inv;
      LinkStepInv(s, any);
    case Raise(e) =>
      hide Inv;
      SignalInv(s, e);
    case Clear(_) =>
      hide Inv;
      OffInv(s, op);
    case Take(_) =>
      hide Inv;
      OffInv(s, op);
  }

  ghost predicate IsRun(states: seq<Events>, ops: seq<Op>) {
    && |states| == |ops| + 1 && states[0] == EMPTY
    && forall k :: 0 <= k < |ops| ==> Possible(states[k], ops[k]) && states[k + 1] == Apply(states[k], ops[k])
  }

  lemma {:induction false} RunInv(states: seq<Events>, ops: seq<Op>, k: nat)
    requires IsRun(states, ops) && k < |states|
    ensures Inv(states[k])
  {
    if k > 0 {
      RunInv(states, ops, k - 1);
      StepInv(states[k - 1], ops[k - 1]);
    }
  }

  /** An Auto event lets at most as many waits and tests succeed as there were signals that turned
      it on, counting an initially signalled state as one. */
  lemma AutoConserves(states: seq<Events>, ops: seq<Op>, k: nat, e: EventId)
    requires IsRun(states, ops) && k < |states| && e < |states[k].g| && e < |states[k].modes|
    requires states[k].modes[e].Auto?
    ensures
      var s := states[k];
      e < |s.spent| && e < |s.gained| && s.spent[e] + (if e in s.on then 1 else 0) <= s.gained[e]
  {
    RunInv(states, ops, k);
  }

  /** A Manual event that was never cleared is on whenever an event it depends on is. */
  lemma ManualFollows(states: seq<Events>, ops: seq<Op>, k: nat, source: EventId, any: EventId)
    requires IsRun(states, ops) && k < |states| && source in states[k].on
    requires source < |states[k].g| && any in states[k].g[source] && any < |states[k].modes|
    requires states[k].modes[any].Manual? && forall j :: 0 <= j < k ==> ops[j] != Clear(any)
    ensures any in states[k].on
  {
    RunInv(states, ops, k);
    NeverDropped(states, ops, k, any);
    var s := states[k];
    var n :| 0 <= n < |s.g[source]| && s.g[source][n] == any;
    assert s.gained[s.g[source][n]] > 0;
  }

  lemma {:induction false} NeverDropped(states: seq<Events>, ops: seq<Op>, k: nat, e: EventId)
    requires IsRun(states, ops) && k < |states| && forall j :: 0 <= j < k ==> ops[j] != Clear(e)
    ensures e < |states[k].dropped| ==> states[k].dropped[e] == 0
  {
    if k > 0 {
      NeverDropped(states, ops, k - 1, e);
      assert states[k] == Apply(states[k - 1], ops[k - 1]);
    }
  }
}

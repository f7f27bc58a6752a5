/** When `DAG::run()` returns, exactly, for every built graph. */
module DagReturn {
  import opened Common
  import opened Sums
  import opened Dag
  import opened DagRun
  import opened DagTheorems

  // ---- nodes with one dependency ----

  ghost predicate Single(d: Dag, v: Node) {
    v < |d.outs| && InDegree(d.outs, v) == 1
  }

  /** 1 for a call of node `u` that has notified its out number `i`. */
  ghost function Passed(d: Dag, u: Node, i: nat): (f: Call -> nat)
    ensures forall x: Call :: f(x) == if x.node == u && u < |d.outs| && Progress(x.place, |d.outs[u]|) > i then 1 else 0
  {
    (x: Call) => if x.node == u && u < |d.outs| && Progress(x.place, |d.outs[u]|) > i then 1 else 0
  }

  /** A node with one dependency is notified once by each call of that dependency. */
  lemma SingleReports(d: Dag, s: Exec, u: Node, i: nat, w: Node)
    requires Sane(d, s) && Single(d, w) && u < |d.outs| && i < |d.outs[u]| && d.outs[u][i] == w
    ensures Notified(d, s, w) == Total(Passed(d, u, i), s.calls)
  {
    hide Total, InDegree, InBounds;
    forall c | 0 <= c < |s.calls| ensures Reports(d, w)(s.calls[c]) == Passed(d, u, i)(s.calls[c]) {
      var x := s.calls[c];
      SingleEdge(d.outs, u, i, w, x.node, Progress(x.place, |d.outs[x.node]|));
    }
    TotalSame(Reports(d, w), Passed(d, u, i), s.calls, s.calls);
  }

  /** How often a node had been called when `notify()` returns true for it: with several dependencies
      not yet, with one dependency less often than that. */
  lemma ReadyCount(d: Dag, s: Exec, c: CallId)
    requires WellBuilt(d) && Inv(d, s) && Enabled(d, s, Notify(c))
    ensures
      var w, u := Target(d, s, c), s.calls[c].node;
      && w < |d.outs| && InDegree(d.outs, w) >= 1
      && (NotifyResult(d, s.counters, w).0 ==>
            Count(s, w) < (if w == ROOT then 1 else 0) + (if Single(d, w) then Count(s, u) else 1))
  {
    hide WellBuilt, CountersLeft, Counts, Hands, History, InBounds, InDegree, Total, NotifyResult;
    NotifyReady(d, s, c);
    var w, u, i := Target(d, s, c), s.calls[c].node, s.calls[c].place.next;
    if Single(d, w) {
      SingleReports(d, s, u, i, w);
      assert Passed(d, u, i)(s.calls[c]) < IsAt(u)(s.calls[c]);
      TotalBound(Passed(d, u, i), IsAt(u), s.calls, s.calls);
    }
  }

  // ---- coming back to the root without end ----

  /** A path along dependencies whose nodes, after the first, have no other dependency; it ends in a
      node that the root depends on. */
  ghost predicate SinglePath(d: Dag, p: seq<Node>) {
    && |p| > 0 && (forall i :: 0 <= i < |p| ==> p[i] < |d.outs|)
    && (forall i :: 0 < i < |p| ==> Single(d, p[i]) && p[i] in d.outs[p[i - 1]])
    && ROOT in d.outs[p[|p| - 1]] && Single(d, ROOT)
  }

  ghost predicate LeadsBack(d: Dag, w: Node) {
    exists p: seq<Node> :: SinglePath(d, p) && p[0] == w
  }

  /** The root is on a cycle whose nodes each have exactly one dependency. */
  ghost predicate RootLoops(d: Dag) {
    LeadsBack(d, ROOT)
  }

  lemma LeadsBackThrough(d: Dag, u: Node, w: Node)
    requires u < |d.outs| && w in d.outs[u] && Single(d, w) && (w == ROOT || LeadsBack(d, w))
    ensures LeadsBack(d, u)
  {
    hide InDegree;
    if w == ROOT {
      assert SinglePath(d, [u]);
    } else {
      var p: seq<Node> :| SinglePath(d, p) && p[0] == w;
      var q := [u] + p;
      assert forall i :: 0 < i < |q| ==> q[i] == p[i - 1];
      assert SinglePath(d, q);
    }
  }

  // ---- if there is no such cycle ----

  /** No node is called more than twice, and none that leads back to the root more than once. */
  ghost predicate FewCalls(d: Dag, s: Exec) {
    forall v :: Count(s, v) <= if LeadsBack(d, v) then 1 else 2
  }

  lemma StepFew(d: Dag, s: Exec, e: Event)
    requires WellBuilt(d) && Inv(d, s) && Enabled(d, s, e) && FewCalls(d, s) && !RootLoops(d)
    ensures FewCalls(d, Apply(d, s, e))
  {
    hide WellBuilt, Inv, Sane, InDegree, NotifyResult, Count, LeadsBack, Apply, Enabled;
    StepSane(d, s);
    var r := Apply(d, s, e);
    if e.Notify? {
      TargetIsOut(d, s, e.call);
      var w, u := Target(d, s, e.call), s.calls[e.call].node;
      ReadyCount(d, s, e.call);
      if Single(d, w) && (w == ROOT || LeadsBack(d, w)) {
        LeadsBackThrough(d, u, w);
      }
      forall v ensures Count(r, v) <= if LeadsBack(d, v) then 1 else 2 {
        NotifyNumbers(d, s, e.call, v);
      }
    } else {
      QuietSteady(d, s, e);
      SteadyKeeps(d, s, r);
    }
  }

  lemma TargetIsOut(d: Dag, s: Exec, c: CallId)
    requires Sane(d, s) && Enabled(d, s, Notify(c))
    ensures c < |s.calls| && s.calls[c].node < |d.outs| && Target(d, s, c) in d.outs[s.calls[c].node]
  {
    hide InBounds;
  }

  lemma {:induction false} RunFew(d: Dag, r: Run, k: nat)
    requires WellBuilt(d) && IsExecution(d, r) && k < |r.states| && !RootLoops(d)
    ensures Inv(d, r.states[k]) && FewCalls(d, r.states[k])
  {
    hide WellBuilt, Inv, Sane, Apply, Enabled, FewCalls, RootLoops, Init;
    RunInv(d, r, k);
    if k > 0 {
      RunFew(d, r, k - 1);
      assert StepsTo(d, r.states[k - 1], r.events[k - 1], r.states[k]);
      StepFew(d, r.states[k - 1], r.events[k - 1]);
    } else {
      FirstFew(d, r.states[0]);
    }
  }

  lemma FirstFew(d: Dag, s: Exec)
    requires Init(d, s)
    ensures FewCalls(d, s)
  {
    hide Total, LeadsBack;
    forall v ensures Count(s, v) <= 1 {
      SingleTotal(IsAt(v), s.calls[0]);
    }
  }

  ghost function CountsOf(n: nat, calls: seq<Call>): (r: seq<nat>)
    ensures |r| == n && forall v :: 0 <= v < n ==> r[v] == Total(IsAt(v), calls)
  {
    seq(n, v requires 0 <= v < n => Total(IsAt(v), calls))
  }

  lemma {:induction false} CallsAreCounted(n: nat, calls: seq<Call>)
    requires forall c :: 0 <= c < |calls| ==> calls[c].node < n
    ensures Sum(CountsOf(n, calls)) == |calls|
  {
    hide Total;
    if calls == [] {
      forall v ensures Total(IsAt(v), []) == 0 {
        NoCalls(IsAt(v));
      }
      if Sum(CountsOf(n, calls)) > 0 {
        SumPositive(CountsOf(n, calls));
      }
    } else {
      var last := |calls| - 1;
      var rest, x := calls[..last], calls[last];
      assert calls == rest + [x];
      forall v {
        TotalExtend(IsAt(v), rest, x);
      }
      CallsAreCounted(n, rest);
      var before := CountsOf(n, rest);
      assert CountsOf(n, calls) == before[x.node := before[x.node] + 1];
      SumUpdate(before, x.node, before[x.node] + 1);
    }
  }

  lemma {:induction false} SumAtMost(xs: seq<nat>, m: nat)
    requires forall i :: 0 <= i < |xs| ==> xs[i] <= m
    ensures Sum(xs) <= m * |xs|
  {
    if xs != [] {
      SumAtMost(xs[..|xs| - 1], m);
    }
  }

  lemma FewInAll(d: Dag, s: Exec)
    requires Sane(d, s) && FewCalls(d, s)
    ensures |s.calls| <= 2 * |d.outs|
  {
    hide Total, LeadsBack, InBounds;
    CallsAreCounted(|d.outs|, s.calls);
    forall v | 0 <= v < |d.outs| ensures CountsOf(|d.outs|, s.calls)[v] <= 2 {
      assert Count(s, v) <= 2;
    }
    SumAtMost(CountsOf(|d.outs|, s.calls), 2);
  }

  /** A bound on the steps that a call can still make. */
  function Effort(d: Dag, x: Call): (n: nat) {
    var outs := if x.node < |d.outs| then |d.outs[x.node]| else 0;
    match x.place
    case Held(_) => 3 * outs + 7
    case Scheduled => 3 * outs + 6
    case Working(_) => 3 * outs + 5
    case Notifying(_, next, _, step) =>
      (if next <= outs then 3 * (outs - next) + 1 else 1) +
      (match step case AtLoop => 3 case Adding(_) => 2 case Spawning(_) => 1)
    case Finishing => 1
    case Done => 0
  }

  ghost function EffortOf(d: Dag): (f: Call -> nat)
    ensures forall x: Call :: f(x) == Effort(d, x)
  {
    (x: Call) => Effort(d, x)
  }

  ghost function Lengths(outs: seq<seq<Node>>): (r: seq<nat>)
    ensures |r| == |outs| && forall u :: 0 <= u < |outs| ==> r[u] == |outs[u]|
  {
    seq(|outs|, u requires 0 <= u < |outs| => |outs[u]|)
  }

  /** A bound on the effort of any new call. */
  ghost function MaxEffort(d: Dag): (n: nat) {
    3 * Sum(Lengths(d.outs)) + 8
  }

  /** The effort of `calls` calls of `each` effort. */
  function Budget(calls: nat, each: nat): (n: nat) {
    if calls == 0 then 0 else each + Budget(calls - 1, each)
  }

  /** What is left to do if there are at most `limit` calls in all. */
  ghost function Variant(d: Dag, s: Exec, limit: nat): (n: nat)
    requires |s.calls| <= limit
  {
    Total(EffortOf(d), s.calls) + Budget(limit - |s.calls|, MaxEffort(d)) +
    match s.main case Invoking => 2 case InWait => 1 case Returned => 0
  }

  /** Each step of a call lowers its own effort. */
  lemma OwnEffort(d: Dag, s: Exec, e: Event)
    requires Sane(d, s) && Hands(s.calls) && Enabled(d, s, e) && !e.WaitReturn?
    ensures
      var r := Apply(d, s, e);
      && e.call < |s.calls| <= |r.calls| && Effort(d, r.calls[e.call]) < Effort(d, s.calls[e.call])
  {
    hide InBounds, NotifyResult, Hands;
    if e.Notify? {
      TargetInBounds(d, s, e.call);
    } else if Concerns(e) {
      HeldCall(s.calls, e.call);
    }
  }

  lemma NewEffort(d: Dag, x: Call)
    requires x.node < |d.outs| && x.place.Held?
    ensures Effort(d, x) < MaxEffort(d)
  {
    SumAtLeast(Lengths(d.outs), x.node);
  }

  lemma QuietTerminates(d: Dag, s: Exec, e: Event, limit: nat)
    requires Inv(d, s) && Enabled(d, s, e) && !e.Notify? && |s.calls| <= limit
    ensures |Apply(d, s, e).calls| <= limit && Variant(d, Apply(d, s, e), limit) < Variant(d, s, limit)
  {
    hide Activation, CountersLeft, Counts, History, InBounds, Total, Hands, MaxEffort;
    if !e.WaitReturn? {
      OwnEffort(d, s, e);
      QuietTotal(d, s, e, EffortOf(d));
    }
  }

  lemma NotifyTerminates(d: Dag, s: Exec, c: CallId, limit: nat)
    requires Inv(d, s) && Enabled(d, s, Notify(c)) && |Apply(d, s, Notify(c)).calls| <= limit
    ensures |s.calls| <= limit && Variant(d, Apply(d, s, Notify(c)), limit) < Variant(d, s, limit)
  {
    hide Activation, CountersLeft, Counts, History, InBounds, Total, Hands, MaxEffort, NotifyResult, Effort;
    OwnEffort(d, s, Notify(c));
    NotifyTotal(d, s, c, EffortOf(d));
    TargetInBounds(d, s, c);
    NotifyNodes(d, s, c);
    NewEffort(d, Call(Target(d, s, c), Held(c)));
  }

  /** Every step brings `run()` closer to its end, as long as the number of calls stays limited. */
  lemma StepsTerminate(d: Dag, s: Exec, e: Event, limit: nat)
    requires Inv(d, s) && Enabled(d, s, e) && |s.calls| <= limit && |Apply(d, s, e).calls| <= limit
    ensures Variant(d, Apply(d, s, e), limit) < Variant(d, s, limit)
  {
    hide Inv, Apply, Enabled, Variant;
    if e.Notify? {
      NotifyTerminates(d, s, e.call, limit);
    } else {
      QuietTerminates(d, s, e, limit);
    }
  }

  /** Without the cycle, no execution is longer than the variant of its first state. */
  lemma {:induction false} RunsAreFinite(d: Dag, r: Run, k: nat)
    requires WellBuilt(d) && IsExecution(d, r) && k < |r.states| && !RootLoops(d)
    ensures |r.states[0].calls| <= 2 * |d.outs| && |r.states[k].calls| <= 2 * |d.outs|
    ensures k + Variant(d, r.states[k], 2 * |d.outs|) <= Variant(d, r.states[0], 2 * |d.outs|)
  {
    hide Inv, Apply, Enabled, Variant, Sane, WellBuilt, RootLoops, FewCalls, Init;
    RunFew(d, r, k);
    StepSane(d, r.states[k]);
    FewInAll(d, r.states[k]);
    if k > 0 {
      RunsAreFinite(d, r, k - 1);
      RunInv(d, r, k - 1);
      assert StepsTo(d, r.states[k - 1], r.events[k - 1], r.states[k]);
      StepsTerminate(d, r.states[k - 1], r.events[k - 1], 2 * |d.outs|);
    }
  }

  /** Without the cycle, every execution can be continued until `run()` returns. */
  lemma {:induction false} CanReturn(d: Dag, r: Run) returns (q: Run)
    requires WellBuilt(d) && IsExecution(d, r) && !RootLoops(d)
    requires |r.states[|r.events|].calls| <= 2 * |d.outs|
    ensures IsExecution(d, q) && q.states[|q.events|].main.Returned?
    decreases Variant(d, r.states[|r.events|], 2 * |d.outs|)
  {
    hide Inv, Apply, Enabled, Variant, Sane, WellBuilt, RootLoops, FewCalls, Init, StepsTo;
    var s := r.states[|r.events|];
    if s.main.Returned? {
      return r;
    }
    RunInv(d, r, |r.events|);
    StepSane(d, s);
    var e := SomeStepEnabled(d, s);
    q := Extend(d, r, e);
    RunFew(d, q, |q.events|);
    StepSane(d, q.states[|q.events|]);
    FewInAll(d, q.states[|q.events|]);
    StepsTerminate(d, s, e, 2 * |d.outs|);
    q := CanReturn(d, q);
  }

  // ---- if there is such a cycle ----

  /** What a call of node `p[i]` leads to. */
  function Successor(p: seq<Node>, i: nat): (v: Node)
    requires i < |p|
  {
    if i + 1 < |p| then p[i + 1] else ROOT
  }

  /** Call `c` is of node `p[i]`, and has yet to notify the next node of the cycle, its out `j`. */
  ghost predicate Token(d: Dag, p: seq<Node>, s: Exec, c: CallId, i: nat, j: nat) {
    && c < |s.calls| && i < |p| && p[i] < |d.outs| && j < |d.outs[p[i]]| && d.outs[p[i]][j] == Successor(p, i)
    && s.calls[c].node == p[i] && Progress(s.calls[c].place, |d.outs[p[i]]|) <= j
  }

  ghost predicate HasToken(d: Dag, p: seq<Node>, s: Exec) {
    exists c, i, j :: Token(d, p, s, c, i, j)
  }

  ghost predicate IsCycle(d: Dag, p: seq<Node>) {
    SinglePath(d, p) && p[0] == ROOT
  }

  lemma NextOnCycle(d: Dag, p: seq<Node>, i: nat) returns (j: nat)
    requires IsCycle(d, p) && i < |p|
    ensures p[i] < |d.outs| && j < |d.outs[p[i]]| && d.outs[p[i]][j] == Successor(p, i)
    ensures Single(d, Successor(p, i))
    ensures exists k :: 0 <= k < |p| && p[k] == Successor(p, i)
  {
    hide Single;
    if i + 1 < |p| {
      assert p[i + 1] in d.outs[p[i + 1 - 1]];
    } else {
      assert p[0] == Successor(p, i);
    }
    assert Successor(p, i) in d.outs[p[i]];
    j :| 0 <= j < |d.outs[p[i]]| && d.outs[p[i]][j] == Successor(p, i);
  }

  /** A call of a node of the cycle that has notified nothing yet. */
  lemma NewToken(d: Dag, p: seq<Node>, s: Exec, c: CallId, i: nat)
    requires IsCycle(d, p) && i < |p| && c < |s.calls| && s.calls[c].node == p[i]
    requires forall n: nat :: Progress(s.calls[c].place, n) == 0
    ensures HasToken(d, p, s)
  {
    hide IsCycle, Single;
    var j := NextOnCycle(d, p, i);
    assert Token(d, p, s, c, i, j);
  }

  /** How a notification changes what calls have notified. */
  lemma NotifyProgress(d: Dag, s: Exec, c: CallId, x: CallId)
    requires Sane(d, s) && Enabled(d, s, Notify(c)) && x < |s.calls|
    ensures
      var r, n := Apply(d, s, Notify(c)), |d.outs[s.calls[x].node]|;
      && |r.calls| >= |s.calls| && r.calls[x].node == s.calls[x].node
      && Progress(r.calls[x].place, n) == Progress(s.calls[x].place, n) + (if x == c then 1 else 0)
      && (x != c ==> r.calls[x] == s.calls[x])
  {
    hide InBounds, NotifyResult;
    TargetInBounds(d, s, c);
  }

  lemma StepToken(d: Dag, p: seq<Node>, s: Exec, e: Event)
    requires WellBuilt(d) && Inv(d, s) && Enabled(d, s, e) && IsCycle(d, p) && HasToken(d, p, s)
    ensures HasToken(d, p, Apply(d, s, e))
  {
    hide WellBuilt, Inv, IsCycle, Single, InDegree, Apply, Enabled, Sane, NotifyResult;
    StepSane(d, s);
    var r := Apply(d, s, e);
    var c, i, j :| Token(d, p, s, c, i, j);
    if e.Notify? {
      NotifyProgress(d, s, e.call, c);
      if !Token(d, p, r, c, i, j) {
        PassToken(d, p, s, c, i, j);
      }
    } else {
      QuietSteady(d, s, e);
      assert Token(d, p, r, c, i, j);
    }
  }

  /** A call that notifies the next node of the cycle makes a call of that node. */
  lemma PassToken(d: Dag, p: seq<Node>, s: Exec, c: CallId, i: nat, j: nat)
    requires WellBuilt(d) && Inv(d, s) && IsCycle(d, p) && Token(d, p, s, c, i, j) && Enabled(d, s, Notify(c))
    requires Progress(s.calls[c].place, |d.outs[p[i]]|) == j
    ensures HasToken(d, p, Apply(d, s, Notify(c)))
  {
    hide WellBuilt, IsCycle, InDegree, Activation, CountersLeft, Counts, Hands, History, NotifyResult, InBounds,
        HasToken;
    var r := Apply(d, s, Notify(c));
    var j' := NextOnCycle(d, p, i);
    NotifyReady(d, s, c);
    NotifyNodes(d, s, c);
    var k :| 0 <= k < |p| && p[k] == Successor(p, i);
    NewToken(d, p, r, |s.calls|, k);
  }

  lemma {:induction false} TokenStays(d: Dag, p: seq<Node>, r: Run, k: nat)
    requires WellBuilt(d) && IsExecution(d, r) && k < |r.states| && IsCycle(d, p)
    ensures HasToken(d, p, r.states[k])
  {
    hide WellBuilt, Inv, Sane, Apply, Enabled, HasToken, IsCycle;
    if k > 0 {
      TokenStays(d, p, r, k - 1);
      RunInv(d, r, k - 1);
      assert StepsTo(d, r.states[k - 1], r.events[k - 1], r.states[k]);
      StepToken(d, p, r.states[k - 1], r.events[k - 1]);
    } else {
      CycleStarts(d, p);
      NewToken(d, p, r.states[0], 0, 0);
    }
  }

  lemma CycleStarts(d: Dag, p: seq<Node>)
    requires IsCycle(d, p)
    ensures |p| > 0 && p[0] == ROOT
  {
  }

  /** With the cycle, `run()` never returns. */
  lemma NeverReturns(d: Dag, r: Run, k: nat)
    requires WellBuilt(d) && IsExecution(d, r) && k < |r.states| && RootLoops(d)
    ensures !r.states[k].main.Returned?
  {
    hide WellBuilt, Single, StepsTo, Init;
    var p: seq<Node> :| SinglePath(d, p) && p[0] == ROOT;
    TokenStays(d, p, r, k);
    if r.states[k].main.Returned? {
      ReturnedIdle(d, r, k);
    }
  }

  /** With the cycle, there are executions of any length. */
  lemma {:induction false} RunsOn(d: Dag, n: nat) returns (r: Run)
    requires WellBuilt(d) && RootLoops(d)
    ensures IsExecution(d, r) && |r.events| == n
  {
    hide WellBuilt, Inv, Sane, Apply, Enabled, RootLoops, Init, StepsTo;
    if n == 0 {
      r := Start(d);
    } else {
      r := RunsOn(d, n - 1);
      RunInv(d, r, n - 1);
      StepSane(d, r.states[n - 1]);
      NeverReturns(d, r, n - 1);
      var e := SomeStepEnabled(d, r.states[n - 1]);
      r := Extend(d, r, e);
    }
  }

  // ---- the exact condition ----

  ghost predicate Bounded(d: Dag, n: nat) {
    forall r: Run :: IsExecution(d, r) ==> |r.events| <= n
  }

  ghost predicate MayReturn(d: Dag) {
    exists r: Run :: IsExecution(d, r) && r.states[|r.events|].main.Returned?
  }

  /** All executions of a built graph are finite, of bounded length, if and only if the root is on no
      cycle of nodes with one dependency each; and if it is on one then none ever returns. */
  lemma FiniteUnlessRootLoops(d: Dag)
    requires WellBuilt(d)
    ensures (exists n :: Bounded(d, n)) <==> !RootLoops(d)
    ensures MayReturn(d) <==> !RootLoops(d)
  {
    hide WellBuilt, RootLoops, StepsTo, Init, Variant;
    var r := Start(d);
    if RootLoops(d) {
      forall n: nat ensures !Bounded(d, n) {
        var q := RunsOn(d, n + 1);
      }
      if MayReturn(d) {
        var q: Run :| IsExecution(d, q) && q.states[|q.events|].main.Returned?;
        NeverReturns(d, q, |q.events|);
      }
    } else {
      RunsAreFinite(d, r, 0);
      forall q: Run | IsExecution(d, q) ensures |q.events| <= Variant(d, r.states[0], 2 * |d.outs|) {
        RunsAreFinite(d, q, |q.events|);
        SameStart(d, r, q);
      }
      assert Bounded(d, Variant(d, r.states[0], 2 * |d.outs|));
      var q := CanReturn(d, r);
    }
  }

  lemma SameStart(d: Dag, r: Run, q: Run)
    requires IsExecution(d, r) && IsExecution(d, q)
    ensures r.states[0] == q.states[0]
  {
  }
}

/** What `DAG::run()` has done when it returns, for every built graph: whatever the schedule, each
    node has run as often as the least solution of one equation for each node says. */
module DagOutcome {
  import opened Common
  import opened Sums
  import opened Dag
  import opened DagRun
  import opened DagTheorems
  import opened DagReturn
  import opened DagRepeat

  ghost function Products(times: seq<nat>, g: seq<nat>): (r: seq<nat>)
    requires |times| == |g|
    ensures |r| == |g| && forall u :: 0 <= u < |g| ==> r[u] == times[u] * g[u]
  {
    seq(|g|, u requires 0 <= u < |g| => times[u] * g[u])
  }

  /** How often `v` is notified if each node `u` runs `times[u]` times. */
  ghost function Notifications(d: Dag, times: seq<nat>, v: Node): (n: nat)
    requires |times| == |d.outs|
  {
    Sum(Products(times, Edges(d.outs, v)))
  }

  /** How often `v` then runs. */
  ghost function RunsOf(d: Dag, times: seq<nat>, v: Node): (n: nat)
    requires |times| == |d.outs|
  {
    (if v == ROOT then 1 else 0) + Invocations(d, v, Notifications(d, times, v))
  }

  ghost predicate IsSolution(d: Dag, times: seq<nat>) {
    |times| == |d.outs| && forall v :: 0 <= v < |d.outs| ==> times[v] == RunsOf(d, times, v)
  }

  ghost predicate IsLeastSolution(d: Dag, times: seq<nat>) {
    && IsSolution(d, times)
    && forall other: seq<nat> :: IsSolution(d, other) ==> forall v :: 0 <= v < |times| ==> times[v] <= other[v]
  }

  /** What calls contribute by their nodes adds up node by node. */
  ghost function ByNode(g: seq<nat>): (f: Call -> nat)
    ensures forall x: Call :: f(x) == if x.node < |g| then g[x.node] else 0
  {
    (x: Call) => if x.node < |g| then g[x.node] else 0
  }

  lemma {:induction false} CallsByNode(g: seq<nat>, calls: seq<Call>)
    requires forall c :: 0 <= c < |calls| ==> calls[c].node < |g|
    ensures Total(ByNode(g), calls) == Sum(Products(CountsOf(|g|, calls), g))
  {
    hide Total, CountsOf, Products;
    if calls == [] {
      NoCalls(ByNode(g));
      forall v {
        NoCalls(IsAt(v));
      }
      assert forall u :: 0 <= u < |g| ==> CountsOf(|g|, calls)[u] == 0;
      var none := Products(CountsOf(|g|, calls), g);
      forall u | 0 <= u < |g| ensures none[u] == 0 {
        Zero(g[u]);
      }
      SumAtMost(none, 0);
    } else {
      var last := |calls| - 1;
      var rest, x := calls[..last], calls[last];
      assert calls == rest + [x];
      CallsByNode(g, rest);
      TotalExtend(ByNode(g), rest, x);
      OneMoreCall(g, rest, x);
    }
  }

  lemma Zero(n: nat)
    ensures 0 * n == 0
  {
  }

  lemma OneMoreCall(g: seq<nat>, rest: seq<Call>, x: Call)
    requires x.node < |g|
    ensures Sum(Products(CountsOf(|g|, rest + [x]), g)) == Sum(Products(CountsOf(|g|, rest), g)) + g[x.node]
  {
    hide Total, CountsOf, Products;
    var before, after := CountsOf(|g|, rest), CountsOf(|g|, rest + [x]);
    forall v {
      TotalExtend(IsAt(v), rest, x);
    }
    var ps := Products(before, g);
    assert after[x.node] * g[x.node] == ps[x.node] + g[x.node] by {
      assert after[x.node] == before[x.node] + 1;
      Distribute(before[x.node], g[x.node]);
    }
    assert forall u :: 0 <= u < |g| && u != x.node ==> after[u] == before[u];
    assert Products(after, g) == ps[x.node := ps[x.node] + g[x.node]];
    SumUpdate(ps, x.node, ps[x.node] + g[x.node]);
  }

  lemma Distribute(k: nat, n: nat)
    ensures (k + 1) * n == k * n + n
  {
  }

  /** When all calls are done, the numbers of calls solve the equations. */
  lemma DoneIsSolution(d: Dag, s: Exec)
    requires WellBuilt(d) && Inv(d, s) && forall c :: 0 <= c < |s.calls| ==> s.calls[c].place.Done?
    ensures IsSolution(d, CountsOf(|d.outs|, s.calls))
  {
    hide WellBuilt, CountersLeft, Counts, Hands, History, Total, CountsOf, InBounds, InDegree, Products;
    var times := CountsOf(|d.outs|, s.calls);
    forall v | 0 <= v < |d.outs| ensures times[v] == RunsOf(d, times, v) {
      DoneNotified(d, s, v);
      assert Count(s, v) == times[v];
    }
  }

  lemma DoneNotified(d: Dag, s: Exec, v: Node)
    requires Sane(d, s) && forall c :: 0 <= c < |s.calls| ==> s.calls[c].place.Done?
    ensures Notified(d, s, v) == Notifications(d, CountsOf(|d.outs|, s.calls), v)
  {
    hide Total, CountsOf, InBounds, Products;
    var g := Edges(d.outs, v);
    forall c | 0 <= c < |s.calls| ensures Reports(d, v)(s.calls[c]) == ByNode(g)(s.calls[c]) {
      var out := d.outs[s.calls[c].node];
      assert out[..|out|] == out;
    }
    TotalSame(Reports(d, v), ByNode(g), s.calls, s.calls);
    CallsByNode(g, s.calls);
  }

  // ---- no execution does more ----

  ghost predicate Within(s: Exec, times: seq<nat>) {
    forall v :: 0 <= v < |times| ==> Count(s, v) <= times[v]
  }

  /** Calls that are within a solution notify no more than it says. */
  lemma NotifiedWithin(d: Dag, s: Exec, times: seq<nat>, v: Node)
    requires Sane(d, s) && |times| == |d.outs| && Within(s, times)
    ensures Notified(d, s, v) <= Notifications(d, times, v)
  {
    hide Total, CountsOf, InBounds, Products;
    var g, counts := Edges(d.outs, v), CountsOf(|d.outs|, s.calls);
    forall c | 0 <= c < |s.calls| ensures Reports(d, v)(s.calls[c]) <= ByNode(g)(s.calls[c]) {
      PrefixBound(d.outs[s.calls[c].node], Progress(s.calls[c].place, |d.outs[s.calls[c].node]|), v);
    }
    TotalBound(Reports(d, v), ByNode(g), s.calls, s.calls);
    CallsByNode(g, s.calls);
    forall u | 0 <= u < |g| ensures Products(counts, g)[u] <= Products(times, g)[u] {
      assert counts[u] == Count(s, u);
      Multiply(counts[u], times[u], g[u]);
    }
    SumBound(Products(counts, g), Products(times, g));
  }

  lemma Multiply(a: nat, b: nat, n: nat)
    requires a <= b
    ensures a * n <= b * n
  {
  }

  lemma MoreInvocations(d: Dag, v: Node, m: nat, n: nat)
    requires m <= n
    ensures Invocations(d, v, m) <= Invocations(d, v, n)
  {
    hide InDegree;
  }

  lemma StepWithinSolution(d: Dag, s: Exec, e: Event, times: seq<nat>)
    requires WellBuilt(d) && Inv(d, s) && Enabled(d, s, e) && IsSolution(d, times) && Within(s, times)
    ensures Within(Apply(d, s, e), times)
  {
    hide WellBuilt, Inv, Sane, Apply, Enabled, Count, NotifyResult, RunsOf, Notifications;
    StepSane(d, s);
    var r := Apply(d, s, e);
    if e.Notify? {
      forall v | 0 <= v < |times| ensures Count(r, v) <= times[v] {
        NotifyNumbers(d, s, e.call, v);
        if v == Target(d, s, e.call) {
          TargetWithin(d, s, e.call, times);
        }
      }
    } else {
      QuietSteady(d, s, e);
      SteadyKeeps(d, s, r);
    }
  }

  lemma TargetWithin(d: Dag, s: Exec, c: CallId, times: seq<nat>)
    requires WellBuilt(d) && Inv(d, s) && Enabled(d, s, Notify(c)) && IsSolution(d, times) && Within(s, times)
    ensures
      var w := Target(d, s, c);
      w < |times| && Count(Apply(d, s, Notify(c)), w) <= times[w]
  {
    hide WellBuilt, CountersLeft, Counts, Hands, History, Apply, Enabled, Count, Notified, Notifications,
        NotifyResult, Within, InDegree;
    var w, mid, r := Target(d, s, c), Midway(d, s, c), Apply(d, s, Notify(c));
    TargetInBounds(d, s, c);
    MidwayNumbers(d, s, c);
    MidwayWithin(d, s, c, times);
    NotifiedWithin(d, mid, times, w);
    NotifyNumbers(d, s, c, w);
    StepInv(d, s, Notify(c));
    MoreInvocations(d, w, Notified(d, r, w), Notifications(d, times, w));
  }

  lemma MidwayWithin(d: Dag, s: Exec, c: CallId, times: seq<nat>)
    requires Sane(d, s) && Enabled(d, s, Notify(c)) && Within(s, times)
    ensures Within(Midway(d, s, c), times)
  {
    hide Count, Sane, Enabled, Midway;
    MidwayNumbers(d, s, c);
  }

  lemma {:induction false} RunWithinSolution(d: Dag, r: Run, k: nat, times: seq<nat>)
    requires WellBuilt(d) && IsExecution(d, r) && k < |r.states| && IsSolution(d, times)
    ensures Within(r.states[k], times)
  {
    hide WellBuilt, Inv, Sane, Apply, Enabled, IsSolution, Within, Init;
    if k > 0 {
      RunWithinSolution(d, r, k - 1, times);
      RunInv(d, r, k - 1);
      assert StepsTo(d, r.states[k - 1], r.events[k - 1], r.states[k]);
      StepWithinSolution(d, r.states[k - 1], r.events[k - 1], times);
    } else {
      FirstWithin(d, r.states[0], times);
    }
  }

  lemma FirstWithin(d: Dag, s: Exec, times: seq<nat>)
    requires Init(d, s) && IsSolution(d, times)
    ensures Within(s, times)
  {
    hide Total, Notifications;
    forall v ensures Count(s, v) == if v == ROOT then 1 else 0 {
      SingleTotal(IsAt(v), s.calls[0]);
    }
  }

  // ---- the outcome ----

  /** How often each node's work has begun. */
  ghost function Times(d: Dag, s: Exec): (r: seq<nat>)
    ensures |r| == |d.outs| && forall v :: 0 <= v < |d.outs| ==> r[v] == multiset(s.started)[v]
  {
    seq(|d.outs|, v requires 0 <= v < |d.outs| => multiset(s.started)[v])
  }

  /** When `run()` returns, each node has run as often as the least solution says. */
  lemma OutcomeIsLeastSolution(d: Dag, r: Run)
    requires WellBuilt(d) && IsExecution(d, r) && r.states[|r.events|].main.Returned?
    ensures IsLeastSolution(d, Times(d, r.states[|r.events|]))
  {
    hide WellBuilt, Activation, CountersLeft, Counts, Hands, Total, InBounds, IsSolution, StepsTo, Init, Times,
        CountsOf;
    var k := |r.events|;
    var s := r.states[k];
    RunInv(d, r, k);
    ReturnedIdle(d, r, k);
    DoneIsSolution(d, s);
    forall v | 0 <= v < |d.outs| ensures CountsOf(|d.outs|, s.calls)[v] == Times(d, s)[v] {
      TotalSame(IsAt(v), HasBegun(v), s.calls, s.calls);
    }
    assert Times(d, s) == CountsOf(|d.outs|, s.calls);
    forall other: seq<nat> | IsSolution(d, other)
      ensures |other| == |d.outs| && forall v :: 0 <= v < |d.outs| ==> Times(d, s)[v] <= other[v]
    {
      RunWithinSolution(d, r, k, other);
      SolutionSize(d, other);
      forall v | 0 <= v < |d.outs| ensures Times(d, s)[v] <= other[v] {
        assert Count(s, v) <= other[v];
      }
    }
  }

  lemma SolutionSize(d: Dag, times: seq<nat>)
    requires IsSolution(d, times)
    ensures |times| == |d.outs|
  {
  }

  /** The equations have a solution if and only if `run()` can return. */
  lemma SolvableUnlessRootLoops(d: Dag)
    requires WellBuilt(d)
    ensures (exists times: seq<nat> :: IsSolution(d, times)) <==> !RootLoops(d)
  {
    hide WellBuilt, IsSolution, StepsTo, Init, Times, Count, SinglePath, RunsOf;
    if !RootLoops(d) {
      FiniteUnlessRootLoops(d);
      var r: Run :| IsExecution(d, r) && r.states[|r.events|].main.Returned?;
      OutcomeIsLeastSolution(d, r);
    } else if exists times: seq<nat> :: IsSolution(d, times) {
      var times: seq<nat> :| IsSolution(d, times);
      NoSolution(d, times);
    }
  }

  lemma NoSolution(d: Dag, times: seq<nat>)
    requires WellBuilt(d) && RootLoops(d)
    ensures !IsSolution(d, times)
  {
    hide WellBuilt, StepsTo, Init, Count, Single, RunsOf;
    HasRoot(d);
    if IsSolution(d, times) {
      var p: seq<Node> :| SinglePath(d, p) && p[0] == ROOT;
      var r := ManyRounds(d, p, times[ROOT] + 1);
      RunWithinSolution(d, r, |r.events|, times);
    }
  }

  /** Two executions of a built graph that return have run each node equally often. */
  lemma SameOutcome(d: Dag, r: Run, q: Run, v: Node)
    requires WellBuilt(d) && v < |d.outs|
    requires IsExecution(d, r) && r.states[|r.events|].main.Returned?
    requires IsExecution(d, q) && q.states[|q.events|].main.Returned?
    ensures multiset(r.states[|r.events|].started)[v] == multiset(q.states[|q.events|].started)[v]
  {
    hide WellBuilt, IsSolution, StepsTo, Init, Times;
    OutcomeIsLeastSolution(d, r);
    OutcomeIsLeastSolution(d, q);
    var a, b := Times(d, r.states[|r.events|]), Times(d, q.states[|q.events|]);
    assert a[v] <= b[v] && b[v] <= a[v];
  }

  /** Each node that runs has all its dependencies run. */
  ghost predicate DependenciesRun(d: Dag, times: seq<nat>) {
    && |times| == |d.outs|
    && forall u, v :: 0 <= u < |d.outs| && v in d.outs[u] && v != ROOT && v < |times| && times[v] > 0 ==> times[u] > 0
  }

  /** When `run()` returns, every node other than the root that has run has had all its dependencies
      run if and only if that is so in the least solution of the equations. */
  lemma DependenciesMet(d: Dag, r: Run, times: seq<nat>)
    requires WellBuilt(d) && IsExecution(d, r) && r.states[|r.events|].main.Returned? && IsLeastSolution(d, times)
    ensures
      var s := r.states[|r.events|];
      DependenciesRun(d, times) <==>
      forall u, v :: 0 <= u < |d.outs| && v in d.outs[u] && v != ROOT && v in s.started ==> u in s.started
  {
    hide IsSolution, StepsTo, Init, Times, InDegree;
    OutcomeIsLeastSolution(d, r);
    var s := r.states[|r.events|];
    SolutionSize(d, times);
    forall v | 0 <= v < |d.outs| ensures times[v] > 0 <==> v in s.started {
      assert times[v] == Times(d, s)[v] == multiset(s.started)[v];
    }
  }
}

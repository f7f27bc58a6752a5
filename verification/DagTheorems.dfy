/** The main results about `DAG::run()`, for every interleaving.  This module has those for every
    built graph, and those for every graph, cyclic ones included, in which `run()` cannot come back
    to the root. */
module DagTheorems {
  import opened Common
  import opened Sums
  import opened Dag
  import opened DagRun

  datatype Run = Run(states: seq<Exec>, events: seq<Event>)

  ghost predicate IsExecution(d: Dag, r: Run) {
    && |r.states| == |r.events| + 1
    && Init(d, r.states[0])
    && forall k :: 0 <= k < |r.events| ==> StepsTo(d, r.states[k], r.events[k], r.states[k + 1])
  }

  ghost predicate StepsTo(d: Dag, s: Exec, e: Event, s': Exec) {
    Sane(d, s) && Enabled(d, s, e) && s' == Apply(d, s, e)
  }

  // ---- every built graph ----

  lemma {:induction false} RunInv(d: Dag, r: Run, k: nat)
    requires WellBuilt(d) && IsExecution(d, r) && k < |r.states|
    ensures Inv(d, r.states[k])
  {
    hide Inv, Apply, Enabled, Init, Sane, WellBuilt;
    if k == 0 {
      InitInv(d, r.states[0]);
    } else {
      RunInv(d, r, k - 1);
      assert StepsTo(d, r.states[k - 1], r.events[k - 1], r.states[k]);
      StepInv(d, r.states[k - 1], r.events[k - 1]);
    }
  }

  /** The WaitGroup counts exactly the calls that are scheduled, or about to be, and not done, and
      `wg.done()` is only called on a positive count. */
  lemma WaitGroupExact(d: Dag, r: Run, k: nat)
    requires WellBuilt(d) && IsExecution(d, r) && k < |r.events|
    ensures r.states[k].wg == Total(Weight, r.states[k].calls)
    ensures r.events[k].FinishTask? ==> r.states[k].wg > 0
  {
    hide WellBuilt, Activation, CountersLeft, Hands, History, Total, Apply, Init, InBounds;
    RunInv(d, r, k);
    var s, e := r.states[k], r.events[k];
    assert StepsTo(d, s, e, r.states[k + 1]);
    if e.FinishTask? {
      TotalAtLeast(Weight, s.calls, e.call);
    }
  }

  /** When `run()` can return, no call is pending or running. */
  lemma NothingPending(d: Dag, s: Exec)
    requires Inv(d, s) && s.wg == 0 && !s.main.Invoking?
    ensures forall c :: 0 <= c < |s.calls| ==> s.calls[c].place.Done?
  {
    hide Activation, CountersLeft, Total, Sane, History;
    forall c | 0 <= c < |s.calls|
      ensures !s.calls[c].place.Working? && !s.calls[c].place.Notifying? && Weight(s.calls[c]) == 0
    {
      TotalAtLeast(Weight, s.calls, c);
      TotalAtLeast(OnCaller, s.calls, c);
    }
  }

  /** Until `run()` returns, some step can be made: no execution is stuck. */
  lemma SomeStepEnabled(d: Dag, s: Exec) returns (e: Event)
    requires Inv(d, s) && !s.main.Returned?
    ensures Enabled(d, s, e) && (e.WaitReturn? <==> s.main.InWait? && s.wg == 0)
  {
    hide Activation, CountersLeft, History, Total, Hands, InBounds;
    if s.main.InWait? && s.wg == 0 {
      return WaitReturn;
    }
    var c := BusyCall(s);
    e := OwnStep(d, s, c);
  }

  /** Someone still works: the caller of `run()`, or a call that the WaitGroup counts. */
  lemma BusyCall(s: Exec) returns (c: CallId)
    requires Counts(s) && (s.main.Invoking? || s.wg != 0)
    ensures c < |s.calls| && !s.calls[c].place.Held? && !s.calls[c].place.Done?
  {
    if s.main.Invoking? {
      c := TotalPositive(OnCaller, s.calls);
    } else {
      c := TotalPositive(Weight, s.calls);
    }
  }

  /** A call that has been let go of and is not done can always make its next step. */
  lemma OwnStep(d: Dag, s: Exec, c: CallId) returns (e: Event)
    requires Sane(d, s) && c < |s.calls| && !s.calls[c].place.Held? && !s.calls[c].place.Done?
    ensures Enabled(d, s, e) && !e.WaitReturn? && e.call == c
  {
    hide InBounds;
    match s.calls[c].place
    case Scheduled => e := Begin(c);
    case Working(_) => e := EndWork(c);
    case Finishing => e := FinishTask(c);
    case Notifying(_, next, toInvoke, step) =>
      if step.Adding? {
        e := AddOne(c);
      } else if step.Spawning? {
        e := Spawn(c);
      } else if next < |d.outs[s.calls[c].node]| {
        e := Notify(c);
      } else if toInvoke.Some? {
        e := Inline(c);
      } else {
        e := Return(c);
      }
  }

  lemma Extend(d: Dag, r: Run, e: Event) returns (q: Run)
    requires IsExecution(d, r) && Sane(d, r.states[|r.events|]) && Enabled(d, r.states[|r.events|], e)
    ensures IsExecution(d, q) && |q.events| == |r.events| + 1
    ensures q.states[|q.events|] == Apply(d, r.states[|r.events|], e)
    ensures q.states[|r.events|] == r.states[|r.events|] && q.events[|r.events|] == e
  {
    hide Init, Sane, Enabled, Apply;
    q := Run(r.states + [Apply(d, r.states[|r.events|], e)], r.events + [e]);
    forall k | 0 <= k < |q.events| ensures StepsTo(d, q.states[k], q.events[k], q.states[k + 1]) {
      if k < |r.events| {
        assert StepsTo(d, r.states[k], r.events[k], r.states[k + 1]);
      }
    }
  }

  lemma Start(d: Dag) returns (r: Run)
    ensures IsExecution(d, r) && |r.events| == 0
  {
    r := Run([Exec([Call(ROOT, Working(false))], d.initialCounters, 0, Invoking, [ROOT])], []);
  }

  // ---- calls and dependencies ----

  ghost predicate HasCall(calls: seq<Call>, f: Call -> nat, u: Node, n: nat) {
    exists c :: 0 <= c < |calls| && calls[c].node == u && f(calls[c]) == n
  }

  ghost predicate OncePerNode(calls: seq<Call>) {
    forall v :: Total(IsAt(v), calls) <= 1
  }

  /** If every node is called at most once, then calls add up to no more than nodes do, and to as
      much only if every node contributes all it can. */
  lemma {:induction false} CallsBound(f: Call -> nat, calls: seq<Call>, g: seq<nat>)
    requires OncePerNode(calls)
    requires forall c :: 0 <= c < |calls| ==> calls[c].node < |g| && f(calls[c]) <= g[calls[c].node]
    ensures Total(f, calls) <= Sum(g)
    ensures Total(f, calls) == Sum(g) ==> forall u :: 0 <= u < |g| && g[u] > 0 ==> HasCall(calls, f, u, g[u])
  {
    hide Total;
    if calls == [] {
      NoCalls(f);
      if Sum(g) == 0 {
        forall u | 0 <= u < |g| ensures g[u] == 0 {
          SumAtLeast(g, u);
        }
      }
    } else {
      var last := |calls| - 1;
      var rest, x := calls[..last], calls[last];
      var g' := g[x.node := 0];
      assert calls == rest + [x];
      LastCall(rest, x);
      TotalExtend(f, rest, x);
      SumUpdate(g, x.node, 0);
      CallsBound(f, rest, g');
      if Total(f, calls) == Sum(g) {
        forall u | 0 <= u < |g| && g[u] > 0 ensures HasCall(calls, f, u, g[u]) {
          if u == x.node {
            assert calls[last].node == u && f(calls[last]) == g[u];
          } else {
            assert g'[u] == g[u] && HasCall(rest, f, u, g'[u]);
            var c :| 0 <= c < |rest| && rest[c].node == u && f(rest[c]) == g[u];
            assert calls[c].node == u && f(calls[c]) == g[u];
          }
        }
      }
    }
  }

  lemma NoCalls(f: Call -> nat)
    ensures Total(f, []) == 0
  {
  }

  lemma LastCall(rest: seq<Call>, x: Call)
    requires OncePerNode(rest + [x])
    ensures OncePerNode(rest) && forall c :: 0 <= c < |rest| ==> rest[c].node != x.node
  {
    hide Total;
    forall v ensures Total(IsAt(v), rest) <= 1 {
      TotalExtend(IsAt(v), rest, x);
    }
    forall c | 0 <= c < |rest| ensures rest[c].node != x.node {
      TotalExtend(IsAt(x.node), rest, x);
      TotalAtLeast(IsAt(x.node), rest, c);
    }
  }

  /** Calls that contribute all they can add up to what the nodes with a call do. */
  lemma {:induction false} CallsCover(f: Call -> nat, calls: seq<Call>, g: seq<nat>)
    requires forall c :: 0 <= c < |calls| ==> calls[c].node < |g| && f(calls[c]) >= g[calls[c].node]
    requires forall u :: 0 <= u < |g| && g[u] > 0 ==> exists c :: 0 <= c < |calls| && calls[c].node == u
    ensures Sum(g) <= Total(f, calls)
  {
    hide Total;
    if calls == [] {
      if Sum(g) > 0 {
        SumPositive(g);
      }
    } else {
      var last := |calls| - 1;
      var rest, x := calls[..last], calls[last];
      var g' := g[x.node := 0];
      assert calls == rest + [x];
      TotalExtend(f, rest, x);
      SumUpdate(g, x.node, 0);
      forall u | 0 <= u < |g'| && g'[u] > 0 ensures exists c :: 0 <= c < |rest| && rest[c].node == u {
        var c :| 0 <= c < |calls| && calls[c].node == u;
        assert rest[c].node == u;
      }
      CallsCover(f, rest, g');
    }
  }

  ghost predicate HasReported(d: Dag, s: Exec, u: Node) {
    u < |d.outs| &&
    exists c :: 0 <= c < |s.calls| && s.calls[c].node == u && Progress(s.calls[c].place, |d.outs[u]|) > 0
  }

  /** If every node is called at most once, a node is notified at most once per dependency, and that
      often only after all dependencies have begun to notify. */
  lemma NotifiedBound(d: Dag, s: Exec, v: Node)
    requires Sane(d, s) && OncePerNode(s.calls)
    ensures Notified(d, s, v) <= InDegree(d.outs, v)
    ensures Notified(d, s, v) == InDegree(d.outs, v) ==>
              forall u :: 0 <= u < |d.outs| && v in d.outs[u] ==> HasReported(d, s, u)
  {
    hide Total, OncePerNode, InBounds;
    var g, f := Edges(d.outs, v), Reports(d, v);
    forall c | 0 <= c < |s.calls| ensures f(s.calls[c]) <= g[s.calls[c].node] {
      PrefixBound(d.outs[s.calls[c].node], Progress(s.calls[c].place, |d.outs[s.calls[c].node]|), v);
    }
    CallsBound(f, s.calls, g);
    if Notified(d, s, v) == InDegree(d.outs, v) {
      forall u | 0 <= u < |d.outs| && v in d.outs[u] ensures HasReported(d, s, u) {
        assert g[u] == multiset(d.outs[u])[v] > 0;
        assert HasCall(s.calls, f, u, g[u]);
        var c :| 0 <= c < |s.calls| && s.calls[c].node == u && f(s.calls[c]) == g[u];
        assert d.outs[u][..0] == [];
      }
    }
  }

  /** The state in the middle of a notification: one more out is notified, no call is new. */
  ghost function Midway(d: Dag, s: Exec, c: CallId): (r: Exec)
    requires Sane(d, s) && Enabled(d, s, Notify(c))
  {
    s.(calls := SetPlace(s.calls, c, s.calls[c].place.(next := s.calls[c].place.next + 1)))
  }

  lemma MidwayNumbers(d: Dag, s: Exec, c: CallId)
    requires Sane(d, s) && Enabled(d, s, Notify(c))
    ensures
      var r := Midway(d, s, c);
      && Sane(d, r) && |r.calls| == |s.calls|
      && (forall v :: Count(r, v) == Count(s, v))
      && (forall x :: 0 <= x < |s.calls| ==> r.calls[x].node == s.calls[x].node)
      && Notified(d, r, Target(d, s, c)) == Notified(d, s, Target(d, s, c)) + 1
  {
    hide InBounds, Total;
    var r, w := Midway(d, s, c), Target(d, s, c);
    forall v ensures Count(r, v) == Count(s, v) {
      TotalUpdate(IsAt(v), s.calls, c, r.calls[c]);
    }
    TotalUpdate(Reports(d, w), s.calls, c, r.calls[c]);
    PrefixCount(d.outs[s.calls[c].node], s.calls[c].place.next, w);
  }

  /** While every node is called at most once, `notify()` returns true only when all dependencies
      have reported, and then for a node that has not been called, unless it is the root. */
  lemma ReadyWhileOnce(d: Dag, s: Exec, c: CallId)
    requires WellBuilt(d) && Inv(d, s) && OncePerNode(s.calls) && Enabled(d, s, Notify(c))
    ensures
      var w := Target(d, s, c);
      && w < |d.outs| && Notified(d, s, w) + 1 <= InDegree(d.outs, w)
      && (NotifyResult(d, s.counters, w).0 ==>
            && (forall u :: 0 <= u < |d.outs| && w in d.outs[u] ==>
                exists x :: 0 <= x < |s.calls| && s.calls[x].node == u)
            && Count(s, w) == (if w == ROOT then 1 else 0))
  {
    hide WellBuilt, CountersLeft, Counts, Hands, History, InBounds, InDegree, Notified, Total, NotifyResult;
    var r, w := Midway(d, s, c), Target(d, s, c);
    NotifyReady(d, s, c);
    MidwayNumbers(d, s, c);
    assert OncePerNode(r.calls) by {
      forall v ensures Total(IsAt(v), r.calls) <= 1 {
        assert Count(r, v) == Count(s, v);
      }
    }
    NotifiedBound(d, r, w);
    if NotifyResult(d, s.counters, w).0 {
      forall u | 0 <= u < |d.outs| && w in d.outs[u] ensures exists x :: 0 <= x < |s.calls| && s.calls[x].node == u {
        assert HasReported(d, r, u);
      }
    }
  }

  // ---- graphs in which `run()` cannot come back to the root ----

  ghost predicate DependenciesIn(d: Dag, v: Node, nodes: set<Node>) {
    forall u :: 0 <= u < |d.outs| && v in d.outs[u] ==> u in nodes
  }

  /** The set contains the root, and every node with dependencies all of which it contains. */
  ghost predicate Closed(d: Dag, nodes: set<Node>) {
    && ROOT in nodes
    && forall v :: 0 <= v < |d.outs| && InDegree(d.outs, v) > 0 && DependenciesIn(d, v, nodes) ==> v in nodes
  }

  ghost predicate IsLeast(d: Dag, nodes: set<Node>) {
    Closed(d, nodes) && forall c :: Closed(d, c) ==> nodes <= c
  }

  /** `run()` cannot come back to the root: it has no dependency, or one that is never invoked
      because a closed set lacks it. */
  ghost predicate RootIsFree(d: Dag) {
    InDegree(d.outs, ROOT) == 0 || exists c :: Closed(d, c) && !DependenciesIn(d, ROOT, c)
  }

  /** An execution of a built graph whose root is free. */
  ghost predicate IsRun(d: Dag, r: Run) {
    WellBuilt(d) && RootIsFree(d) && IsExecution(d, r)
  }

  ghost predicate Bars(d: Dag, c: set<Node>) {
    Closed(d, c) && (InDegree(d.outs, ROOT) == 0 || !DependenciesIn(d, ROOT, c))
  }

  function UpTo(n: nat): (r: set<Node>)
    ensures forall v: Node :: v in r <==> v < n
  {
    if n == 0 then {} else UpTo(n - 1) + {n - 1}
  }

  lemma BarrierExists(d: Dag) returns (c: set<Node>)
    requires WellBuilt(d) && RootIsFree(d)
    ensures Bars(d, c)
  {
    hide InDegree;
    if InDegree(d.outs, ROOT) == 0 {
      c := UpTo(|d.outs|);
    } else {
      c :| Closed(d, c) && !DependenciesIn(d, ROOT, c);
    }
  }

  ghost predicate ActiveWithin(calls: seq<Call>, nodes: set<Node>) {
    forall c :: 0 <= c < |calls| ==> calls[c].node in nodes
  }

  lemma QuietNodes(d: Dag, s: Exec, e: Event)
    requires Inv(d, s) && Enabled(d, s, e) && !e.Notify?
    ensures
      var r := Apply(d, s, e);
      && |r.calls| == |s.calls| && (forall c :: 0 <= c < |s.calls| ==> r.calls[c].node == s.calls[c].node)
      && (OncePerNode(s.calls) ==> OncePerNode(r.calls))
  {
    hide Inv, Enabled, Apply, Sane, Total;
    QuietSteady(d, s, e);
    SteadyKeeps(d, s, Apply(d, s, e));
    if OncePerNode(s.calls) {
      forall v ensures Total(IsAt(v), Apply(d, s, e).calls) <= 1 {
        assert Count(Apply(d, s, e), v) == Count(s, v);
      }
    }
  }

  /** Whatever the schedule, nodes outside a closed set are not called as long as no node is called
      twice. */
  lemma StepWithin(d: Dag, s: Exec, e: Event, c: set<Node>)
    requires WellBuilt(d) && Inv(d, s) && Enabled(d, s, e) && OncePerNode(s.calls)
    requires Closed(d, c) && ActiveWithin(s.calls, c)
    ensures ActiveWithin(Apply(d, s, e).calls, c)
  {
    hide WellBuilt, Inv, Sane, OncePerNode, InDegree, NotifyResult, SetPlace;
    if e.Notify? {
      StepSane(d, s);
      TargetInBounds(d, s, e.call);
      var w := Target(d, s, e.call);
      ReadyWhileOnce(d, s, e.call);
      NotifyNodes(d, s, e.call);
      if NotifyResult(d, s.counters, w).0 {
        assert DependenciesIn(d, w, c);
      }
    } else {
      QuietNodes(d, s, e);
    }
  }

  lemma StepSane(d: Dag, s: Exec)
    requires Inv(d, s)
    ensures Sane(d, s)
  {
  }

  /** Which nodes the calls are of after a notification. */
  lemma NotifyNodes(d: Dag, s: Exec, c: CallId)
    requires Sane(d, s) && Enabled(d, s, Notify(c))
    ensures
      var r, w := Apply(d, s, Notify(c)), Target(d, s, c);
      && w < |d.counterIndex|
      && |r.calls| == |s.calls| + (if NotifyResult(d, s.counters, w).0 then 1 else 0)
      && (forall x :: 0 <= x < |s.calls| ==> r.calls[x].node == s.calls[x].node)
      && (NotifyResult(d, s.counters, w).0 ==> r.calls[|s.calls|] == Call(w, Held(c)))
  {
    hide InBounds;
    TargetInBounds(d, s, c);
  }

  lemma StepOnce(d: Dag, s: Exec, e: Event)
    requires WellBuilt(d) && Inv(d, s) && Enabled(d, s, e) && OncePerNode(s.calls)
    ensures OncePerNode(Apply(d, s, e).calls) || Count(Apply(d, s, e), ROOT) > 1
  {
    hide WellBuilt, Inv, Sane, InDegree, NotifyResult, Apply, Enabled, Total;
    StepSane(d, s);
    if e.Notify? {
      ReadyWhileOnce(d, s, e.call);
      var r, w := Apply(d, s, e), Target(d, s, e.call);
      if Count(r, ROOT) <= 1 {
        forall v ensures Total(IsAt(v), r.calls) <= 1 {
          assert Count(s, v) <= 1;
          NotifyNumbers(d, s, e.call, v);
        }
      }
    } else {
      QuietNodes(d, s, e);
    }
  }

  /** A barrier keeps the root from being called again. */
  lemma StepBarred(d: Dag, s: Exec, e: Event, c: set<Node>)
    requires WellBuilt(d) && Inv(d, s) && Enabled(d, s, e) && OncePerNode(s.calls)
    requires Bars(d, c) && ActiveWithin(s.calls, c)
    ensures OncePerNode(Apply(d, s, e).calls)
  {
    hide WellBuilt, Inv, Sane, OncePerNode, InDegree, NotifyResult, Apply, Enabled;
    StepSane(d, s);
    StepOnce(d, s, e);
    if e.Notify? {
      var w := Target(d, s, e.call);
      ReadyWhileOnce(d, s, e.call);
      NotifyNumbers(d, s, e.call, ROOT);
      assert Count(s, ROOT) <= 1 by { OnceAt(s, ROOT); }
      if NotifyResult(d, s.counters, w).0 {
        NotifyReady(d, s, e.call);
        assert DependenciesIn(d, w, c);
      }
    } else {
      QuietNodes(d, s, e);
    }
  }

  lemma OnceAt(s: Exec, v: Node)
    requires OncePerNode(s.calls)
    ensures Count(s, v) <= 1
  {
  }

  lemma {:induction false} RunBarred(d: Dag, r: Run, k: nat, c: set<Node>)
    requires WellBuilt(d) && IsExecution(d, r) && k < |r.states| && Bars(d, c)
    ensures Inv(d, r.states[k]) && OncePerNode(r.states[k].calls) && ActiveWithin(r.states[k].calls, c)
  {
    hide Inv, Apply, Enabled, Closed, Sane, WellBuilt, ActiveWithin, OncePerNode, InDegree, DependenciesIn, Init;
    RunInv(d, r, k);
    if k > 0 {
      RunBarred(d, r, k - 1, c);
      assert StepsTo(d, r.states[k - 1], r.events[k - 1], r.states[k]);
      StepBarred(d, r.states[k - 1], r.events[k - 1], c);
      StepWithin(d, r.states[k - 1], r.events[k - 1], c);
    } else {
      RootInClosed(d, c);
      FirstOnce(d, r.states[0], c);
    }
  }

  lemma FirstOnce(d: Dag, s: Exec, c: set<Node>)
    requires Init(d, s) && ROOT in c
    ensures OncePerNode(s.calls) && ActiveWithin(s.calls, c)
  {
    hide Total;
    forall v ensures Total(IsAt(v), s.calls) <= 1 {
      SingleTotal(IsAt(v), s.calls[0]);
    }
  }

  /** No node is called twice. */
  lemma RunOnce(d: Dag, r: Run, k: nat)
    requires IsRun(d, r) && k < |r.states|
    ensures Inv(d, r.states[k]) && OncePerNode(r.states[k].calls)
  {
    hide Inv, IsExecution, Bars, WellBuilt, RootIsFree;
    var c := BarrierExists(d);
    RunBarred(d, r, k, c);
  }

  lemma {:induction false} RunWithin(d: Dag, r: Run, k: nat, c: set<Node>)
    requires IsRun(d, r) && k < |r.states| && Closed(d, c)
    ensures ActiveWithin(r.states[k].calls, c)
  {
    hide Inv, Apply, Enabled, Closed, Sane, RootIsFree, WellBuilt, Init, OncePerNode, ActiveWithin;
    if k > 0 {
      RunWithin(d, r, k - 1, c);
      RunOnce(d, r, k - 1);
      assert StepsTo(d, r.states[k - 1], r.events[k - 1], r.states[k]);
      StepWithin(d, r.states[k - 1], r.events[k - 1], c);
    } else {
      RootInClosed(d, c);
      FirstOnce(d, r.states[0], c);
    }
  }

  lemma RootInClosed(d: Dag, c: set<Node>)
    requires Closed(d, c)
    ensures ROOT in c
  {
  }

  /** No node counter is decremented at zero. */
  lemma NoCounterUnderflows(d: Dag, r: Run, k: nat)
    requires IsRun(d, r) && k < |r.events| && r.events[k].Notify?
    ensures StepsTo(d, r.states[k], r.events[k], r.states[k + 1])
    ensures
      var s, w := r.states[k], Target(d, r.states[k], r.events[k].call);
      w < |d.outs| && (d.counterIndex[w].Some? ==> s.counters[d.counterIndex[w].value] > 0)
  {
    hide WellBuilt, RootIsFree, Activation, Counts, Hands, History, OncePerNode, InDegree, Notified, Apply, Init;
    RunOnce(d, r, k);
    assert StepsTo(d, r.states[k], r.events[k], r.states[k + 1]);
    ReadyWhileOnce(d, r.states[k], r.events[k].call);
  }

  ghost predicate WorkEnded(s: Exec, u: Node) {
    exists c :: 0 <= c < |s.calls| && s.calls[c].node == u && Began(s.calls[c].place) && !s.calls[c].place.Working?
  }

  /** The work of a node other than the root has begun only after the work of all its dependencies
      has ended. */
  lemma DependenciesFirst(d: Dag, r: Run, k: nat, u: Node, v: Node)
    requires IsRun(d, r) && k < |r.states| && u < |d.outs| && v in d.outs[u] && v != ROOT && v in r.states[k].started
    ensures WorkEnded(r.states[k], u)
  {
    hide RootIsFree, CountersLeft, Hands, Counts, Notified, Apply, Enabled, Init, OncePerNode, Total, InDegree;
    RunOnce(d, r, k);
    var s := r.states[k];
    assert v < |d.outs|;
    StartedIsCalled(d, s, v);
    EdgeDegree(d.outs, u, v);
    NotifiedBound(d, s, v);
    assert HasReported(d, s, u);
    var c :| 0 <= c < |s.calls| && s.calls[c].node == u && Progress(s.calls[c].place, |d.outs[u]|) > 0;
  }

  lemma StartedIsCalled(d: Dag, s: Exec, v: Node)
    requires History(s) && v in s.started
    ensures Count(s, v) >= 1 && exists c :: 0 <= c < |s.calls| && s.calls[c].node == v
  {
    hide Total;
    assert multiset(s.started)[v] == Total(HasBegun(v), s.calls);
    var c := TotalPositive(HasBegun(v), s.calls);
    TotalAtLeast(IsAt(v), s.calls, c);
  }

  ghost function Ran(s: Exec): (r: set<Node>) {
    set v | v in s.started
  }

  /** When nothing is pending, every node whose dependencies have all run has run. */
  lemma QuietIsClosed(d: Dag, s: Exec)
    requires WellBuilt(d) && Inv(d, s) && forall c :: 0 <= c < |s.calls| ==> s.calls[c].place.Done?
    ensures Closed(d, Ran(s)) && Count(s, ROOT) >= 1
  {
    hide CountersLeft, Counts, Hands, InDegree, Notified, Count, InBounds;
    RanIfCalled(d, s, ROOT);
    forall v | 0 <= v < |d.outs| && InDegree(d.outs, v) > 0 && DependenciesIn(d, v, Ran(s))
      ensures v in Ran(s)
    {
      AllReported(d, s, v);
      RanIfCalled(d, s, v);
    }
  }

  lemma RanIfCalled(d: Dag, s: Exec, v: Node)
    requires History(s) && forall c :: 0 <= c < |s.calls| ==> s.calls[c].place.Done?
    ensures Count(s, v) >= 1 ==> v in Ran(s)
  {
    hide Total;
    TotalSame(IsAt(v), HasBegun(v), s.calls, s.calls);
    assert multiset(s.started)[v] == Total(HasBegun(v), s.calls);
  }

  lemma AllReported(d: Dag, s: Exec, v: Node)
    requires Sane(d, s) && History(s) && DependenciesIn(d, v, Ran(s))
    requires forall c :: 0 <= c < |s.calls| ==> s.calls[c].place.Done?
    ensures Notified(d, s, v) >= InDegree(d.outs, v)
  {
    hide Total, InBounds;
    var g, f := Edges(d.outs, v), Reports(d, v);
    forall c | 0 <= c < |s.calls| ensures f(s.calls[c]) >= g[s.calls[c].node] {
      assert d.outs[s.calls[c].node][..|d.outs[s.calls[c].node]|] == d.outs[s.calls[c].node];
    }
    forall u | 0 <= u < |g| && g[u] > 0 ensures exists c :: 0 <= c < |s.calls| && s.calls[c].node == u {
      assert v in d.outs[u];
      StartedIsCalled(d, s, u);
    }
    CallsCover(f, s.calls, g);
  }

  /** The result does not depend on the schedule: every run that returns has run exactly the least
      closed set of nodes. */
  lemma RunsExactlyTheLeastSet(d: Dag, r: Run)
    requires IsRun(d, r) && r.states[|r.states| - 1].main.Returned?
    ensures IsLeast(d, Ran(r.states[|r.states| - 1]))
  {
    hide Inv, Closed, RootIsFree, StepsTo, Init, WellBuilt;
    var k := |r.states| - 1;
    var s := r.states[k];
    RunInv(d, r, k);
    ReturnedIdle(d, r, k);
    QuietIsClosed(d, s);
    forall c | Closed(d, c) ensures Ran(s) <= c {
      RunWithin(d, r, k, c);
      RanWithin(d, s, c);
    }
  }

  lemma RanWithin(d: Dag, s: Exec, c: set<Node>)
    requires Inv(d, s) && ActiveWithin(s.calls, c)
    ensures Ran(s) <= c
  {
    hide Activation, CountersLeft, Counts, Hands, InBounds;
    forall v | v in s.started ensures v in c {
      StartedIsCalled(d, s, v);
    }
  }

  lemma {:induction false} ReturnedIdle(d: Dag, r: Run, k: nat)
    requires WellBuilt(d) && IsExecution(d, r) && k < |r.states| && r.states[k].main.Returned?
    ensures forall c :: 0 <= c < |r.states[k].calls| ==> r.states[k].calls[c].place.Done?
  {
    hide Inv, WellBuilt, InBounds;
    assert Init(d, r.states[0]);
    var s, e := r.states[k - 1], r.events[k - 1];
    assert StepsTo(d, s, e, r.states[k]);
    RunInv(d, r, k - 1);
    if s.main.Returned? {
      ReturnedIdle(d, r, k - 1);
    } else {
      NothingPending(d, s);
    }
  }

  /** Two runs of the same graph that return have run the same nodes. */
  lemma ScheduleIndependent(d: Dag, r: Run, q: Run)
    requires IsRun(d, r) && r.states[|r.states| - 1].main.Returned?
    requires IsRun(d, q) && q.states[|q.states| - 1].main.Returned?
    ensures Ran(r.states[|r.states| - 1]) == Ran(q.states[|q.states| - 1])
  {
    hide Closed, Ran, IsRun;
    RunsExactlyTheLeastSet(d, r);
    RunsExactlyTheLeastSet(d, q);
  }
}

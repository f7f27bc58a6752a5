/** When `DAG::run()` begins the work of a node twice, exactly, for every built graph. */
module DagRepeat {
  import opened Common
  import opened Sums
  import opened Dag
  import opened DagRun
  import opened DagTheorems
  import opened DagReturn

  // ---- the root is called again unless it is free ----

  lemma OnceInAll(d: Dag, s: Exec)
    requires Sane(d, s) && OncePerNode(s.calls)
    ensures |s.calls| <= |d.outs|
  {
    hide Total, InBounds;
    CallsAreCounted(|d.outs|, s.calls);
    SumAtMost(CountsOf(|d.outs|, s.calls), 1);
  }

  /** While the root has been called once and is not free, some call is pending. */
  lemma StillBusy(d: Dag, s: Exec)
    requires WellBuilt(d) && !RootIsFree(d) && Inv(d, s) && OncePerNode(s.calls) && !s.main.Returned?
    ensures !(s.main.InWait? && s.wg == 0)
  {
    hide WellBuilt, CountersLeft, Counts, Hands, Notified, InDegree, Closed, OncePerNode, InBounds;
    if s.main.InWait? && s.wg == 0 {
      HasRoot(d);
      NothingPending(d, s);
      QuietIsClosed(d, s);
      assert DependenciesIn(d, ROOT, Ran(s));
      AllReported(d, s, ROOT);
      OnceAt(s, ROOT);
    }
  }

  lemma HasRoot(d: Dag)
    requires WellBuilt(d)
    ensures ROOT < |d.outs|
  {
  }

  /** If the root is not free then every execution in which no node has been called twice can be
      continued until the root is called again. */
  lemma {:induction false} ComesBack(d: Dag, r: Run) returns (q: Run)
    requires WellBuilt(d) && !RootIsFree(d) && IsExecution(d, r)
    requires OncePerNode(r.states[|r.events|].calls) && |r.states[|r.events|].calls| <= |d.outs|
    requires !r.states[|r.events|].main.Returned?
    ensures IsExecution(d, q) && Count(q.states[|q.events|], ROOT) >= 2
    decreases Variant(d, r.states[|r.events|], |d.outs|)
  {
    hide Inv, Apply, Enabled, WellBuilt, RootIsFree, Sane, StepsTo, Init, OncePerNode, Variant, Count;
    var s := r.states[|r.events|];
    RunInv(d, r, |r.events|);
    StepSane(d, s);
    StillBusy(d, s);
    var e := SomeStepEnabled(d, s);
    StepOnce(d, s, e);
    q := Extend(d, r, e);
    var t := q.states[|q.events|];
    if OncePerNode(t.calls) {
      RunInv(d, q, |q.events|);
      StepSane(d, t);
      OnceInAll(d, t);
      StepsTerminate(d, s, e, |d.outs|);
      NotYetReturned(d, s, e);
      q := ComesBack(d, q);
    }
  }

  lemma NotYetReturned(d: Dag, s: Exec, e: Event)
    requires Sane(d, s) && Enabled(d, s, e) && !e.WaitReturn? && !s.main.Returned?
    ensures !Apply(d, s, e).main.Returned?
  {
    hide InBounds, NotifyResult;
  }

  ghost predicate CalledTwice(r: Run, v: Node)
    requires |r.states| == |r.events| + 1
  {
    Count(r.states[|r.events|], v) >= 2
  }

  /** The root is called at most once in every execution if and only if it is free. */
  lemma RootCalledOnceIfFree(d: Dag)
    requires WellBuilt(d)
    ensures RootIsFree(d) <==> forall r: Run :: IsExecution(d, r) ==> !CalledTwice(r, ROOT)
  {
    hide WellBuilt, RootIsFree, StepsTo, Init, OncePerNode, Count;
    if RootIsFree(d) {
      forall r: Run | IsExecution(d, r) ensures !CalledTwice(r, ROOT) {
        RunOnce(d, r, |r.events|);
        OnceAt(r.states[|r.events|], ROOT);
      }
    } else {
      var r := BackAtRoot(d);
    }
  }

  lemma BackAtRoot(d: Dag) returns (r: Run)
    requires WellBuilt(d) && !RootIsFree(d)
    ensures IsExecution(d, r) && CalledTwice(r, ROOT)
  {
    hide StepsTo, OncePerNode, Count, InDegree, RootIsFree;
    r := Start(d);
    FirstOnce(d, r.states[0], {ROOT});
    r := ComesBack(d, r);
  }

  // ---- every call can be brought to its end ----

  /** Later states have the calls of earlier ones, each as far as before or farther. */
  ghost predicate Keeps(s: Exec, t: Exec) {
    && |s.calls| <= |t.calls|
    && forall c :: 0 <= c < |s.calls| ==>
         t.calls[c].node == s.calls[c].node && (s.calls[c].place.Done? ==> t.calls[c].place.Done?)
  }

  lemma StepKeeps(d: Dag, s: Exec, e: Event)
    requires Sane(d, s) && Hands(s.calls) && Enabled(d, s, e)
    ensures Keeps(s, Apply(d, s, e))
  {
    hide InBounds, NotifyResult, Hands;
    if e.Notify? {
      TargetInBounds(d, s, e.call);
    } else if Concerns(e) {
      HeldCall(s.calls, e.call);
    }
  }

  /** What is left to do until call `c` is done: its own effort, and before that the effort of the
      call that holds it. */
  function Distance(d: Dag, s: Exec, c: CallId): (n: nat)
    requires c < |s.calls|
  {
    var p := s.calls[c].place;
    Effort(d, s.calls[c]) + if p.Held? && p.holder < |s.calls| then Effort(d, s.calls[p.holder]) else 0
  }

  /** The call that has to move so that call `c` gets on. */
  lemma Mover(d: Dag, s: Exec, c: CallId) returns (e: Event)
    requires Inv(d, s) && c < |s.calls| && !s.calls[c].place.Done?
    ensures Enabled(d, s, e) && !e.WaitReturn?
    ensures e.call == if s.calls[c].place.Held? then s.calls[c].place.holder else c
  {
    hide Activation, CountersLeft, Counts, History, InBounds;
    e := OwnStep(d, s, if s.calls[c].place.Held? then s.calls[c].place.holder else c);
  }

  lemma Nearer(d: Dag, s: Exec, c: CallId, e: Event)
    requires Inv(d, s) && c < |s.calls| && Enabled(d, s, e) && !e.WaitReturn?
    requires e.call == if s.calls[c].place.Held? then s.calls[c].place.holder else c
    ensures c < |Apply(d, s, e).calls| && Distance(d, Apply(d, s, e), c) < Distance(d, s, c)
  {
    hide Activation, CountersLeft, Counts, History, InBounds, Hands, NotifyResult;
    OwnEffort(d, s, e);
    if e.Notify? {
      NotifyProgress(d, s, e.call, c);
      NotHeldAfter(d, s, e.call);
    } else if Concerns(e) {
      HeldCall(s.calls, e.call);
    }
  }

  /** A call that notifies is held by no one. */
  lemma NotHeldAfter(d: Dag, s: Exec, c: CallId)
    requires Sane(d, s) && Enabled(d, s, Notify(c))
    ensures Apply(d, s, Notify(c)).calls[c].place.Notifying?
  {
    hide InBounds, NotifyResult;
    TargetInBounds(d, s, c);
  }

  lemma {:induction false} Drive(d: Dag, r: Run, c: CallId) returns (q: Run)
    requires WellBuilt(d) && IsExecution(d, r) && c < |r.states[|r.events|].calls|
    ensures IsExecution(d, q) && Keeps(r.states[|r.events|], q.states[|q.events|])
    ensures q.states[|q.events|].calls[c].place.Done?
    decreases Distance(d, r.states[|r.events|], c)
  {
    hide Inv, Apply, Enabled, WellBuilt, Sane, StepsTo, Init, Distance, Hands;
    var s := r.states[|r.events|];
    if s.calls[c].place.Done? {
      return r;
    }
    RunInv(d, r, |r.events|);
    Parts(d, s);
    var e := Mover(d, s, c);
    Nearer(d, s, c, e);
    StepKeeps(d, s, e);
    q := Extend(d, r, e);
    q := Drive(d, q, c);
  }

  lemma Parts(d: Dag, s: Exec)
    requires Inv(d, s)
    ensures Sane(d, s) && Hands(s.calls)
  {
  }

  lemma {:induction false} DriveAll(d: Dag, r: Run, n: nat) returns (q: Run)
    requires WellBuilt(d) && IsExecution(d, r) && n <= |r.states[|r.events|].calls|
    ensures IsExecution(d, q) && Keeps(r.states[|r.events|], q.states[|q.events|])
    ensures forall c :: 0 <= c < n ==> q.states[|q.events|].calls[c].place.Done?
  {
    hide WellBuilt, StepsTo, Init;
    if n == 0 {
      return r;
    }
    q := DriveAll(d, r, n - 1);
    q := Drive(d, q, n - 1);
  }

  /** If each of the first calls contributes at least as much as it did, so do all calls. */
  lemma TotalGrows(f: Call -> nat, g: Call -> nat, a: seq<Call>, b: seq<Call>)
    requires |a| <= |b| && forall c :: 0 <= c < |a| ==> f(a[c]) <= g(b[c])
    ensures Total(f, a) <= Total(g, b)
  {
    hide Total;
    TotalBound(f, g, a, b[..|a|]);
    assert b == b[..|a|] + b[|a|..];
    TotalPrefix(g, b[..|a|], b[|a|..]);
  }

  lemma {:induction false} TotalPrefix(f: Call -> nat, a: seq<Call>, b: seq<Call>)
    ensures Total(f, a) <= Total(f, a + b)
  {
    hide Total;
    if b == [] {
      assert a + b == a;
    } else {
      var last := |b| - 1;
      TotalPrefix(f, a, b[..last]);
      assert a + b == a + b[..last] + [b[last]];
      TotalExtend(f, a + b[..last], b[last]);
    }
  }

  /** The calls of a node can all be brought to their end, so that each notifies a node of which it
      is the only dependency. */
  lemma Passes(d: Dag, r: Run, u: Node, v: Node) returns (q: Run)
    requires WellBuilt(d) && IsExecution(d, r) && u < |d.outs| && v in d.outs[u] && Single(d, v)
    ensures IsExecution(d, q)
    ensures Count(q.states[|q.events|], v) >= Count(r.states[|r.events|], u) + if v == ROOT then 1 else 0
  {
    hide WellBuilt, StepsTo, Init, InDegree, Total;
    q := DriveAll(d, r, |r.states[|r.events|].calls|);
    var s, t := r.states[|r.events|], q.states[|q.events|];
    RunInv(d, q, |q.events|);
    var i :| 0 <= i < |d.outs[u]| && d.outs[u][i] == v;
    AllPassed(d, s, t, u, i, v);
  }

  lemma AllPassed(d: Dag, s: Exec, t: Exec, u: Node, i: nat, v: Node)
    requires Inv(d, t) && Keeps(s, t) && forall c :: 0 <= c < |s.calls| ==> t.calls[c].place.Done?
    requires u < |d.outs| && i < |d.outs[u]| && d.outs[u][i] == v && Single(d, v)
    ensures Count(t, v) >= Count(s, u) + if v == ROOT then 1 else 0
  {
    hide CountersLeft, Counts, Hands, History, InDegree, Total, InBounds;
    SingleReports(d, t, u, i, v);
    TotalGrows(IsAt(u), Passed(d, u, i), s.calls, t.calls);
  }

  /** The calls of a node can all be brought to begin its work. */
  lemma Begins(d: Dag, r: Run, v: Node) returns (q: Run)
    requires WellBuilt(d) && IsExecution(d, r)
    ensures IsExecution(d, q)
    ensures multiset(q.states[|q.events|].started)[v] >= Count(r.states[|r.events|], v)
  {
    hide WellBuilt, StepsTo, Init, Total, Activation, CountersLeft, Counts, Hands, InBounds;
    q := DriveAll(d, r, |r.states[|r.events|].calls|);
    RunInv(d, q, |q.events|);
    TotalGrows(IsAt(v), HasBegun(v), r.states[|r.events|].calls, q.states[|q.events|].calls);
  }

  // ---- the exact condition ----

  /** A node other than the root whose only dependency is the root. */
  ghost predicate OnlyAfterRoot(d: Dag, v: Node) {
    v != ROOT && Single(d, v) && ROOT < |d.outs| && v in d.outs[ROOT]
  }

  ghost predicate OthersOnce(s: Exec) {
    forall v :: v != ROOT ==> Count(s, v) <= 1
  }

  lemma StepOthersOnce(d: Dag, s: Exec, e: Event)
    requires WellBuilt(d) && Inv(d, s) && Enabled(d, s, e) && OthersOnce(s) && forall v :: !OnlyAfterRoot(d, v)
    ensures OthersOnce(Apply(d, s, e))
  {
    hide WellBuilt, Inv, Sane, Single, NotifyResult, Count, Apply, Enabled;
    StepSane(d, s);
    var r := Apply(d, s, e);
    if e.Notify? {
      TargetIsOut(d, s, e.call);
      var w, u := Target(d, s, e.call), s.calls[e.call].node;
      ReadyCount(d, s, e.call);
      assert !OnlyAfterRoot(d, w);
      forall v | v != ROOT ensures Count(r, v) <= 1 {
        NotifyNumbers(d, s, e.call, v);
      }
    } else {
      QuietSteady(d, s, e);
      SteadyKeeps(d, s, r);
    }
  }

  lemma {:induction false} RunOthersOnce(d: Dag, r: Run, k: nat)
    requires WellBuilt(d) && IsExecution(d, r) && k < |r.states| && forall v :: !OnlyAfterRoot(d, v)
    ensures OthersOnce(r.states[k])
  {
    hide WellBuilt, Inv, Sane, Apply, Enabled, OthersOnce, Init, OnlyAfterRoot;
    if k > 0 {
      RunOthersOnce(d, r, k - 1);
      RunInv(d, r, k - 1);
      assert StepsTo(d, r.states[k - 1], r.events[k - 1], r.states[k]);
      StepOthersOnce(d, r.states[k - 1], r.events[k - 1]);
    } else {
      FirstOthers(d, r.states[0]);
    }
  }

  lemma FirstOthers(d: Dag, s: Exec)
    requires Init(d, s)
    ensures OthersOnce(s)
  {
    hide OncePerNode, Total;
    FirstOnce(d, s, {ROOT});
    forall v ensures Count(s, v) <= 1 {
      OnceAt(s, v);
    }
  }

  lemma BegunIsCalled(d: Dag, s: Exec, v: Node)
    requires Inv(d, s)
    ensures multiset(s.started)[v] <= Count(s, v)
  {
    hide Activation, CountersLeft, Counts, Hands, Total, InBounds;
    TotalBound(HasBegun(v), IsAt(v), s.calls, s.calls);
  }

  /** The work of a node other than the root begins twice in some execution. */
  ghost predicate WorkRepeats(d: Dag) {
    exists r: Run, v: Node :: IsExecution(d, r) && v != ROOT && multiset(r.states[|r.events|].started)[v] >= 2
  }

  /** No node other than the root, which has no work, begins its work twice in any execution of a
      built graph if and only if the root is free, or is the only dependency of no other node. */
  lemma WorkBeginsOnce(d: Dag)
    requires WellBuilt(d)
    ensures !WorkRepeats(d) <==> RootIsFree(d) || forall v :: !OnlyAfterRoot(d, v)
  {
    hide WellBuilt, RootIsFree, StepsTo, Init, OncePerNode, Count, Inv, OnlyAfterRoot;
    if RootIsFree(d) || forall v :: !OnlyAfterRoot(d, v) {
      forall r: Run, v: Node | IsExecution(d, r) && v != ROOT ensures multiset(r.states[|r.events|].started)[v] <= 1 {
        var k := |r.events|;
        RunInv(d, r, k);
        BegunIsCalled(d, r.states[k], v);
        if RootIsFree(d) {
          RunOnce(d, r, k);
          OnceAt(r.states[k], v);
        } else {
          RunOthersOnce(d, r, k);
        }
      }
    } else {
      var v :| OnlyAfterRoot(d, v);
      var r := Repeats(d, v);
    }
  }

  lemma Repeats(d: Dag, v: Node) returns (r: Run)
    requires WellBuilt(d) && !RootIsFree(d) && OnlyAfterRoot(d, v)
    ensures IsExecution(d, r) && v != ROOT && multiset(r.states[|r.events|].started)[v] >= 2
  {
    hide WellBuilt, RootIsFree, StepsTo, Init, Count, Single;
    r := BackAtRoot(d);
    r := Passes(d, r, ROOT, v);
    r := Begins(d, r, v);
  }

  // ---- without end ----

  lemma {:induction false} AlongCycle(d: Dag, p: seq<Node>, r: Run, i: nat) returns (q: Run)
    requires WellBuilt(d) && IsExecution(d, r) && IsCycle(d, p) && i < |p|
    ensures IsExecution(d, q) && Count(q.states[|q.events|], ROOT) >= Count(r.states[|r.events|], p[i]) + 1
    decreases |p| - i
  {
    hide WellBuilt, StepsTo, Init, Count, IsCycle, Single;
    var j := NextOnCycle(d, p, i);
    q := Passes(d, r, p[i], Successor(p, i));
    if i + 1 < |p| {
      q := AlongCycle(d, p, q, i + 1);
    }
  }

  lemma {:induction false} ManyRounds(d: Dag, p: seq<Node>, n: nat) returns (r: Run)
    requires WellBuilt(d) && IsCycle(d, p)
    ensures IsExecution(d, r) && Count(r.states[|r.events|], ROOT) >= n
  {
    hide WellBuilt, StepsTo, Init, Count, IsCycle;
    if n == 0 {
      r := Start(d);
    } else {
      r := ManyRounds(d, p, n - 1);
      CycleStarts(d, p);
      r := AlongCycle(d, p, r, 0);
    }
  }

  /** If the root is on a cycle of nodes with one dependency each, the work of a node whose only
      dependency is the root begins as often as one likes. */
  lemma RepeatsWithoutEnd(d: Dag, v: Node, n: nat) returns (r: Run)
    requires WellBuilt(d) && RootLoops(d) && OnlyAfterRoot(d, v)
    ensures IsExecution(d, r) && multiset(r.states[|r.events|].started)[v] >= n
  {
    hide WellBuilt, StepsTo, Init, Count, Single;
    var p: seq<Node> :| SinglePath(d, p) && p[0] == ROOT;
    r := ManyRounds(d, p, n);
    r := Passes(d, r, ROOT, v);
    r := Begins(d, r, v);
  }
}

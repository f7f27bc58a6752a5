/** A graph on which `DAG::run()` returns after running a node without one of its dependencies: that
    the root is free is more than a convenience for the results about dependencies. */
module DagWitness {
  import opened Common
  import opened Sums
  import opened Dag
  import opened DagRun
  import opened DagTheorems

  /** The root depends on node 1, which depends on the root twice; node 2 depends on the root and on
      node 3, which is never invoked. */
  function Graph(): (d: Dag) {
    Dag([[1, 1, 2], [ROOT], [], [2]], [None, Some(0), Some(1), None], [2, 2])
  }

  lemma GraphIsBuilt()
    ensures WellBuilt(Graph())
  {
    hide InDegree;
    forall v: Node | v < 4 ensures InDegree(Graph().outs, v) == [1, 2, 2, 0][v] {
      GraphDegree(v);
    }
  }

  lemma GraphDegree(v: Node)
    requires v < 4
    ensures InDegree(Graph().outs, v) == [1, 2, 2, 0][v]
  {
    var es := Edges(Graph().outs, v);
    assert es == [es[0], es[1], es[2], es[3]];
    SumOfFour(es[0], es[1], es[2], es[3]);
  }

  lemma SumOfFour(a: nat, b: nat, c: nat, d: nat)
    ensures Sum([a, b, c, d]) == a + b + c + d
  {
    SumExtend([], a);
    SumExtend([a], b);
    SumExtend([a, b], c);
    SumExtend([a, b, c], d);
    assert [] + [a] == [a] && [a] + [b] == [a, b] && [a, b] + [c] == [a, b, c] && [a, b, c] + [d] == [a, b, c, d];
  }

  ghost predicate EndsIn(r: Run, s: Exec) {
    IsExecution(Graph(), r) && r.states[|r.events|] == s
  }

  lemma Go(r: Run, s: Exec, e: Event, t: Exec) returns (q: Run)
    requires EndsIn(r, s) && Sane(Graph(), s) && Enabled(Graph(), s, e)
    requires
      var u := Apply(Graph(), s, e);
      u.calls == t.calls && u.counters == t.counters && u.wg == t.wg && u.main == t.main && u.started == t.started
    ensures EndsIn(q, t)
  {
    hide Sane, Enabled, Apply, StepsTo, Init;
    q := Extend(Graph(), r, e);
  }

  const At := (next: nat, x: Option<CallId>) => Notifying(false, next, x, AtLoop)

  function State(calls: seq<Call>, a: int, b: int, started: seq<Node>): (s: Exec) {
    Exec(calls, [a, b], 0, Invoking, started)
  }

  /** The root is called, ... */
  lemma First() returns (r: Run)
    ensures EndsIn(r, State([Call(ROOT, At(3, Some(1))), Call(1, Held(0))], 0, 1, [ROOT]))
  {
    hide EndsIn;
    var s0 := State([Call(ROOT, Working(false))], 2, 2, [ROOT]);
    var s1 := State([Call(ROOT, At(0, None))], 2, 2, [ROOT]);
    var s2 := State([Call(ROOT, At(1, None))], 1, 2, [ROOT]);
    var s3 := State([Call(ROOT, At(2, Some(1))), Call(1, Held(0))], 0, 2, [ROOT]);
    var s4 := State([Call(ROOT, At(3, Some(1))), Call(1, Held(0))], 0, 1, [ROOT]);
    r := Begins();
    r := Go(r, s0, EndWork(0), s1);
    r := Go(r, s1, Notify(0), s2);
    r := Go(r, s2, Notify(0), s3);
    r := Go(r, s3, Notify(0), s4);
  }

  lemma Begins() returns (r: Run)
    ensures EndsIn(r, State([Call(ROOT, Working(false))], 2, 2, [ROOT]))
  {
    r := Run([State([Call(ROOT, Working(false))], 2, 2, [ROOT])], []);
  }

  /** ... then node 1, then the root again, ... */
  lemma Second() returns (r: Run)
    ensures EndsIn(r, State([Call(ROOT, Done), Call(1, Done), Call(ROOT, Working(false))], 0, 1, [ROOT, 1, ROOT]))
  {
    hide EndsIn;
    var s4 := State([Call(ROOT, At(3, Some(1))), Call(1, Held(0))], 0, 1, [ROOT]);
    var s5 := State([Call(ROOT, Done), Call(1, Working(false))], 0, 1, [ROOT, 1]);
    var s6 := State([Call(ROOT, Done), Call(1, At(0, None))], 0, 1, [ROOT, 1]);
    var s7 := State([Call(ROOT, Done), Call(1, At(1, Some(2))), Call(ROOT, Held(1))], 0, 1, [ROOT, 1]);
    var s8 := State([Call(ROOT, Done), Call(1, Done), Call(ROOT, Working(false))], 0, 1, [ROOT, 1, ROOT]);
    r := First();
    r := Go(r, s4, Inline(0), s5);
    r := Go(r, s5, EndWork(1), s6);
    r := Go(r, s6, Notify(1), s7);
    r := Go(r, s7, Inline(1), s8);
  }

  /** ... which takes the counter of node 2 to zero. */
  lemma Third() returns (r: Run)
    ensures EndsIn(r, State([Call(ROOT, Done), Call(1, Done), Call(ROOT, At(3, Some(3))), Call(2, Held(2))], -2, 0,
        [ROOT, 1, ROOT]))
  {
    hide EndsIn;
    var two := [Call(ROOT, Done), Call(1, Done)];
    var s8 := State([Call(ROOT, Done), Call(1, Done), Call(ROOT, Working(false))], 0, 1, [ROOT, 1, ROOT]);
    var s9 := State(two + [Call(ROOT, At(0, None))], 0, 1, [ROOT, 1, ROOT]);
    var s10 := State(two + [Call(ROOT, At(1, None))], -1, 1, [ROOT, 1, ROOT]);
    var s11 := State(two + [Call(ROOT, At(2, None))], -2, 1, [ROOT, 1, ROOT]);
    var s12 := State([Call(ROOT, Done), Call(1, Done), Call(ROOT, At(3, Some(3))), Call(2, Held(2))], -2, 0,
                     [ROOT, 1, ROOT]);
    r := Second();
    r := Go(r, s8, EndWork(2), s9);
    r := Go(r, s9, Notify(2), s10);
    r := Go(r, s10, Notify(2), s11);
    r := Go(r, s11, Notify(2), s12);
  }

  lemma Fourth() returns (r: Run)
    ensures EndsIn(r, Exec([Call(ROOT, Done), Call(1, Done), Call(ROOT, Done), Call(2, Done)], [-2, 0], 0, Returned,
        [ROOT, 1, ROOT, 2]))
  {
    hide EndsIn;
    var done, ran := [Call(ROOT, Done), Call(1, Done), Call(ROOT, Done)], [ROOT, 1, ROOT, 2];
    var s12 := State([Call(ROOT, Done), Call(1, Done), Call(ROOT, At(3, Some(3))), Call(2, Held(2))], -2, 0,
                     [ROOT, 1, ROOT]);
    var s13 := State(done + [Call(2, Working(false))], -2, 0, ran);
    var s14 := State(done + [Call(2, At(0, None))], -2, 0, ran);
    var s15 := State(done + [Call(2, Done)], -2, 0, ran).(main := InWait);
    var s16 := Exec([Call(ROOT, Done), Call(1, Done), Call(ROOT, Done), Call(2, Done)], [-2, 0], 0, Returned, ran);
    r := Third();
    r := Go(r, s12, Inline(2), s13);
    r := Go(r, s13, EndWork(3), s14);
    r := Go(r, s14, Return(3), s15);
    r := Go(r, s15, WaitReturn, s16);
  }

  /** `run()` returns having run node 2, but not node 3 on which node 2 depends. */
  lemma RunsWithoutDependency() returns (r: Run)
    ensures WellBuilt(Graph()) && IsExecution(Graph(), r)
    ensures
      var s := r.states[|r.events|];
      s.main.Returned? && 2 in Graph().outs[3] && 2 in s.started && 3 !in s.started
  {
    hide WellBuilt;
    GraphIsBuilt();
    r := Fourth();
  }
}

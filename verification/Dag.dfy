/** `marl::DAG`: the builder, and the graph that it hands to `run()`. */
module Dag {
  import opened Common
  import opened Sums

  type Node = nat

  const ROOT: Node := 0

  /** A built graph: the downstream nodes of every node, with one entry for each dependency, and a
      counter for every node with more than one dependency. */
  datatype Dag = Dag(outs: seq<seq<Node>>, counterIndex: seq<Option<nat>>, initialCounters: seq<nat>)

  /** How often `v` occurs among the outs of each node. */
  ghost function Edges(outs: seq<seq<Node>>, v: Node): (r: seq<nat>)
    ensures |r| == |outs|
  {
    seq(|outs|, u requires 0 <= u < |outs| => multiset(outs[u])[v])
  }

  /** The number of dependencies of `v`, counted with multiplicity. */
  ghost function InDegree(outs: seq<seq<Node>>, v: Node): (n: nat) {
    Sum(Edges(outs, v))
  }

  predicate InBounds(outs: seq<seq<Node>>) {
    forall u, i :: 0 <= u < |outs| && 0 <= i < |outs[u]| ==> outs[u][i] < |outs|
  }

  /** What `build()` guarantees: exactly the nodes with several dependencies have a counter, each
      its own, that starts at the number of dependencies. */
  ghost predicate WellBuilt(d: Dag) {
    && |d.outs| > 0 && InBounds(d.outs) && |d.counterIndex| == |d.outs|
    && (forall v :: 0 <= v < |d.outs| ==> (d.counterIndex[v].Some? <==> InDegree(d.outs, v) > 1))
    && (forall v :: 0 <= v < |d.outs| && d.counterIndex[v].Some? ==>
          && d.counterIndex[v].value < |d.initialCounters|
          && d.initialCounters[d.counterIndex[v].value] == InDegree(d.outs, v))
    && (forall v, w :: 0 <= v < w < |d.outs| && d.counterIndex[v].Some? ==> d.counterIndex[v] != d.counterIndex[w])
  }

  lemma PrefixCount(s: seq<Node>, i: nat, v: Node)
    requires i < |s|
    ensures multiset(s[..i + 1])[v] == multiset(s[..i])[v] + if s[i] == v then 1 else 0
  {
    assert s[..i + 1] == s[..i] + [s[i]];
  }

  lemma PrefixBound(s: seq<Node>, i: nat, v: Node)
    requires i <= |s|
    ensures multiset(s[..i])[v] <= multiset(s)[v]
  {
    assert s == s[..i] + s[i..];
  }

  /** An edge into `v` makes it a node with a dependency. */
  lemma EdgeDegree(outs: seq<seq<Node>>, u: Node, v: Node)
    requires u < |outs| && v in outs[u]
    ensures InDegree(outs, v) >= multiset(outs[u])[v] >= 1
  {
    SumAtLeast(Edges(outs, v), u);
  }

  /** The one edge into a node with a single dependency. */
  lemma SingleEdge(outs: seq<seq<Node>>, u: Node, i: nat, v: Node, u': Node, p: nat)
    requires InDegree(outs, v) == 1 && u < |outs| && i < |outs[u]| && outs[u][i] == v
    requires u' < |outs| && p <= |outs[u']|
    ensures multiset(outs[u'][..p])[v] == if u' == u && p > i then 1 else 0
  {
    var es, s := Edges(outs, v), outs[u'];
    PrefixBound(s, p, v);
    SumUpdate(es, u, 0);
    if u' != u {
      SumAtLeast(es[u := 0], u');
    } else {
      assert s == s[..p] + s[p..];
      if p > i {
        assert s[..p][i] == v;
      } else {
        assert s[p..][i - p] == v;
      }
    }
  }

  lemma AddEdgeDegree(outs: seq<seq<Node>>, parent: Node, child: Node, v: Node)
    requires parent < |outs|
    ensures InDegree(outs[parent := outs[parent] + [child]], v) == InDegree(outs, v) + if v == child then 1 else 0
  {
    var more := outs[parent := outs[parent] + [child]];
    var before := Edges(outs, v);
    var after := Edges(more, v);
    assert after == before[parent := before[parent] + if v == child then 1 else 0];
    SumUpdate(before, parent, after[parent]);
  }

  lemma AddNodeDegree(outs: seq<seq<Node>>, v: Node)
    ensures InDegree(outs + [[]], v) == InDegree(outs, v)
  {
    var before := Edges(outs, v);
    assert Edges(outs + [[]], v) == before + [0];
    SumExtend(before, 0);
  }

  lemma {:induction false} FreshNodeDegree(outs: seq<seq<Node>>, v: Node)
    requires InBounds(outs) && v >= |outs|
    ensures InDegree(outs, v) == 0
  {
    var es := Edges(outs, v);
    forall u | 0 <= u < |es| ensures es[u] == 0 {
      assert v !in outs[u];
    }
    if Sum(es) > 0 {
      SumPositive(es);
    }
  }

  /** `DAGBuilder`: nodes and dependencies are added in place, then frozen by `Build`. */
  class DAGBuilder {
    var outs: seq<seq<Node>>
    var numIns: seq<nat>

    ghost predicate Valid()
      reads this
    {
      && |outs| > 0 && |numIns| == |outs| && InBounds(outs)
      && forall v :: 0 <= v < |outs| ==> numIns[v] == InDegree(outs, v)
    }

    constructor ()
      ensures Valid() && outs == [[]]
    {
      outs := [[]];
      numIns := [0];
      new;
      FreshNodeDegree([], ROOT);
      AddNodeDegree([], ROOT);
      assert [] + [[]] == outs;
    }

    method AddDependency(parent: Node, child: Node)
      requires Valid() && parent < |outs| && child < |outs|
      modifies this
      ensures Valid() && outs == old(outs)[parent := old(outs)[parent] + [child]]
    {
      forall v {
        AddEdgeDegree(outs, parent, child, v);
      }
      numIns := numIns[child := numIns[child] + 1];
      outs := outs[parent := outs[parent] + [child]];
    }

    /** `node(work, after)`. */
    method AddNode(after: seq<Node>) returns (node: Node)
      requires Valid() && forall i :: 0 <= i < |after| ==> after[i] < |outs|
      modifies this
      ensures Valid() && node == |old(outs)| && |outs| == node + 1
      ensures forall u :: 0 <= u < |outs| ==>
                outs[u] == (if u < node then old(outs)[u] else []) + seq(multiset(after)[u], _ => node)
    {
      hide InDegree;
      forall v {
        AddNodeDegree(outs, v);
      }
      FreshNodeDegree(outs, |outs|);
      node := |outs|;
      numIns := numIns + [0];
      outs := outs + [[]];
      ghost var start := outs;
      for k := 0 to |after|
        invariant Valid() && |outs| == node + 1
        invariant forall u :: 0 <= u < |outs| ==> outs[u] == start[u] + seq(multiset(after[..k])[u], _ => node)
      {
        PrefixCountAll(after, k);
        AddDependency(after[k], node);
      }
      assert after[..|after|] == after;
    }

    method Build() returns (d: Dag)
      requires Valid()
      ensures WellBuilt(d) && d.outs == outs
    {
      var counterIndex: seq<Option<nat>> := [];
      var initialCounters: seq<nat> := [];
      for i := 0 to |outs|
        invariant |counterIndex| == i
        invariant forall v :: 0 <= v < i ==> (counterIndex[v].Some? <==> numIns[v] > 1)
        invariant forall v :: 0 <= v < i && counterIndex[v].Some? ==>
                    counterIndex[v].value < |initialCounters| && initialCounters[counterIndex[v].value] == numIns[v]
        invariant forall v, w :: 0 <= v < w < i && counterIndex[v].Some? ==> counterIndex[v] != counterIndex[w]
      {
        if numIns[i] > 1 {
          counterIndex := counterIndex + [Some(|initialCounters|)];
          initialCounters := initialCounters + [numIns[i]];
        } else {
          counterIndex := counterIndex + [None];
        }
      }
      d := Dag.Dag(outs, counterIndex, initialCounters);
    }
  }

  lemma PrefixCountAll(s: seq<Node>, i: nat)
    requires i < |s|
    ensures forall v :: multiset(s[..i + 1])[v] == multiset(s[..i])[v] + if s[i] == v then 1 else 0
  {
    forall v ensures multiset(s[..i + 1])[v] == multiset(s[..i])[v] + if s[i] == v then 1 else 0 {
      PrefixCount(s, i, v);
    }
  }
}

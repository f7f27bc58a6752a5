/** Neighbours in a doubly linked chain, described by the sequence of its nodes from front to back.
    `nil` is the null pointer. */
module Chains {

  function After<P>(q: seq<P>, i: int, nil: P): (p: P) {
    if 0 <= i < |q| - 1 then q[i + 1] else nil
  }

  function Before<P>(q: seq<P>, i: int, nil: P): (p: P) {
    if 0 < i <= |q| then q[i - 1] else nil
  }

  function Without<P>(q: seq<P>, i: nat): (r: seq<P>)
    requires i < |q|
    ensures |r| == |q| - 1 && forall k :: 0 <= k < |r| ==> r[k] == q[if k < i then k else k + 1]
  {
    q[..i] + q[i + 1..]
  }

  lemma Adjacent<P>(q: seq<P>, i: nat, nil: P)
    requires i < |q|
    ensures After(q, i, nil) == if i + 1 < |q| then q[i + 1] else nil
    ensures Before(q, i, nil) == if i > 0 then q[i - 1] else nil
  {
  }

  /** The neighbours of a node once node `i` is taken out. */
  lemma Neighbours<P>(q: seq<P>, i: nat, k: nat, nil: P)
    requires i < |q| && k < |q| - 1
    ensures
      var rest, j := Without(q, i), if k < i then k else k + 1;
      && rest[k] == q[j]
      && After(rest, k, nil) == After(q, if j + 1 == i then i else j, nil)
      && Before(rest, k, nil) == Before(q, if j == i + 1 then i else j, nil)
  {
  }

  /** The neighbours of a node once one chain is put behind another one. */
  lemma Joined<P>(q: seq<P>, p: seq<P>, k: nat, nil: P)
    requires k < |q| + |p|
    ensures k < |q| ==> After(q + p, k, nil) == (if k + 1 == |q| && p != [] then p[0] else After(q, k, nil))
    ensures k < |q| ==> Before(q + p, k, nil) == Before(q, k, nil)
    ensures k >= |q| ==> After(q + p, k, nil) == After(p, k - |q|, nil)
    ensures k >= |q| ==> Before(q + p, k, nil) == (if k == |q| && q != [] then q[|q| - 1] else Before(p, k - |q|, nil))
  {
  }

  /** The neighbours of a node once the chain `p` is put in front of the last node `t` of another one. */
  lemma Spliced<P>(q: seq<P>, p: seq<P>, t: P, k: nat, nil: P)
    requires p != [] && k < |q| + |p| + 1
    ensures
      var r, n := q + p + [t], |q| + |p|;
      && After(r, k, nil) == (if k < |q| then if k + 1 == |q| then p[0] else After(q + [t], k, nil)
                              else if k < n then if k + 1 == n then t else After(p, k - |q|, nil)
                              else nil)
      && Before(r, k, nil) == (if k < |q| then Before(q + [t], k, nil)
                               else if k == |q| then Before(q + [t], k, nil)
                               else if k < n then Before(p, k - |q|, nil)
                               else p[|p| - 1])
  {
  }
}

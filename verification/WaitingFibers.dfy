/** `Scheduler::WaitingFibers`: the fibers that wait on a timeout, indexed twice. */
module WaitingFibers {
  import opened Common
  import opened WorkerModel

  datatype Timeout = Timeout(timepoint: TimePoint, fiber: FiberId)

  predicate Less(a: Timeout, b: Timeout) {
    if a.timepoint != b.timepoint then a.timepoint < b.timepoint else a.fiber < b.fiber
  }

  predicate Sorted(q: seq<Timeout>) {
    forall i, j :: 0 <= i < j < |q| ==> Less(q[i], q[j])
  }

  /** The two indices agree: a timeout is in one exactly when the other maps its fiber to it. */
  ghost predicate Agree(q: seq<Timeout>, m: map<FiberId, TimePoint>) {
    forall t :: t in q <==> t.fiber in m && m[t.fiber] == t.timepoint
  }

  lemma SortedInsert(q: seq<Timeout>, i: nat, t: Timeout, m: map<FiberId, TimePoint>)
    requires Sorted(q) && Agree(q, m) && t.fiber !in m && i <= |q|
    requires forall k :: 0 <= k < i ==> Less(q[k], t)
    requires i < |q| ==> !Less(q[i], t)
    ensures Sorted(q[..i] + [t] + q[i..]) && Agree(q[..i] + [t] + q[i..], m[t.fiber := t.timepoint])
  {
    InsertAgrees(q, i, t, m);
    assert i < |q| ==> q[i] in q;
    hide Agree;
    InsertSorted(q, i, t);
  }

  lemma InsertSorted(q: seq<Timeout>, i: nat, t: Timeout)
    requires Sorted(q) && i <= |q| && (forall k :: 0 <= k < i ==> Less(q[k], t)) && (i < |q| ==> Less(t, q[i]))
    ensures Sorted(q[..i] + [t] + q[i..])
  {
    var r := q[..i] + [t] + q[i..];
    forall j, k | 0 <= j < k < |r| ensures Less(r[j], r[k]) {
      assert r[j] == if j < i then q[j] else if j == i then t else q[j - 1];
      assert r[k] == if k < i then q[k] else if k == i then t else q[k - 1];
    }
  }

  lemma InsertAgrees(q: seq<Timeout>, i: nat, t: Timeout, m: map<FiberId, TimePoint>)
    requires Agree(q, m) && t.fiber !in m && i <= |q|
    ensures Agree(q[..i] + [t] + q[i..], m[t.fiber := t.timepoint])
  {
    var r := q[..i] + [t] + q[i..];
    assert q == q[..i] + q[i..];
    assert forall u :: u in r <==> u in q || u == t;
  }

  lemma SortedRemove(q: seq<Timeout>, i: nat, m: map<FiberId, TimePoint>)
    requires Sorted(q) && Agree(q, m) && i < |q|
    ensures Sorted(q[..i] + q[i + 1..]) && Agree(q[..i] + q[i + 1..], m - {q[i].fiber})
  {
    RemoveSorted(q, i);
    var r, t := q[..i] + q[i + 1..], q[i];
    assert t in q;
    assert t !in r && forall u :: u in q <==> u in r || u == t by { RemoveMembers(q, i); }
    hide Sorted, Less;
  }

  lemma RemoveSorted(q: seq<Timeout>, i: nat)
    requires Sorted(q) && i < |q|
    ensures Sorted(q[..i] + q[i + 1..])
  {
    hide Less;
  }

  lemma RemoveMembers(q: seq<Timeout>, i: nat)
    requires Sorted(q) && i < |q|
    ensures q[i] !in q[..i] + q[i + 1..] && forall u :: u in q <==> u in q[..i] + q[i + 1..] || u == q[i]
  {
    var r := q[..i] + q[i + 1..];
    assert q == q[..i] + [q[i]] + q[i + 1..];
    assert forall k :: 0 <= k < |r| ==> r[k] == if k < i then q[k] else q[k + 1];
  }

  /** The first timeout is the one of the fiber that comes before all others. */
  lemma FirstIsNext(q: seq<Timeout>, m: map<FiberId, TimePoint>)
    requires Sorted(q) && Agree(q, m) && m != map[]
    ensures |q| > 0 && q[0].fiber in m && m[q[0].fiber] == q[0].timepoint
    ensures forall f :: f in m && f != q[0].fiber ==> Before(m, q[0].fiber, f)
  {
    var f :| f in m;
    assert Timeout(m[f], f) in q;
    assert q[0] in q;
    forall f | f in m && f != q[0].fiber ensures Before(m, q[0].fiber, f) {
      var i :| 0 <= i < |q| && q[i] == Timeout(m[f], f);
    }
  }

  class WaitingFibers {
    var timeouts: seq<Timeout>                  // std::set<Timeout>, in iteration order
    var fibers: map<FiberId, TimePoint>         // std::unordered_map

    ghost predicate Valid()
      reads this
    {
      Sorted(timeouts) && Agree(timeouts, fibers)
    }

    constructor ()
      ensures Valid() && fibers == map[]
    {
      timeouts, fibers := [], map[];
    }

    /** `operator bool`. */
    method Any() returns (r: bool)
      requires Valid()
      ensures r <==> fibers != map[]
    {
      r := |fibers| != 0;
    }

    method Contains(fiber: FiberId) returns (r: bool)
      requires Valid()
      ensures r <==> fiber in fibers && Timeout(fibers[fiber], fiber) in timeouts
    {
      r := fiber in fibers;
    }

    method Next() returns (r: TimePoint)
      requires Valid() && fibers != map[]
      ensures IsDeadline(fibers, Some(r))
    {
      FirstIsNext(timeouts, fibers);
      r := timeouts[0].timepoint;
    }

    method Add(timeout: TimePoint, fiber: FiberId)
      requires Valid() && fiber !in fibers
      modifies this
      ensures Valid() && fibers == old(fibers)[fiber := timeout]
    {
      var t, i := Timeout(timeout, fiber), 0;
      while i < |timeouts| && Less(timeouts[i], t)
        invariant 0 <= i <= |timeouts|
        invariant forall k :: 0 <= k < i ==> Less(timeouts[k], t)
      {
        i := i + 1;
      }
      SortedInsert(timeouts, i, t, fibers);
      timeouts := timeouts[..i] + [t] + timeouts[i..];
      fibers := fibers[fiber := timeout];
    }

    method Erase(fiber: FiberId)
      requires Valid()
      modifies this
      ensures Valid() && fibers == old(fibers) - {fiber}
    {
      if fiber in fibers {
        var t, i := Timeout(fibers[fiber], fiber), 0;
        while i < |timeouts| && timeouts[i] != t
          invariant 0 <= i <= |timeouts|
          invariant t !in timeouts[..i]
        {
          i := i + 1;
        }
        assert i < |timeouts|;                  // maps in sync
        SortedRemove(timeouts, i, fibers);
        timeouts := timeouts[..i] + timeouts[i + 1..];
        fibers := fibers - {fiber};
      }
    }

    /** Takes the first fiber in timeout order whose timeout has been reached. */
    method Take(now: TimePoint) returns (fiber: Option<FiberId>)
      requires Valid()
      modifies this
      ensures Valid()
      ensures fiber.None? ==> fibers == old(fibers) && forall f :: f in fibers ==> now < fibers[f]
      ensures fiber.Some? ==>
        var f := fiber.value;
        && f in old(fibers) && old(fibers)[f] <= now && fibers == old(fibers) - {f}
        && forall g :: g in fibers ==> Before(old(fibers), f, g)
    {
      hide Agree, Sorted, Less;
      if |fibers| == 0 {
        return None;
      }
      FirstIsNext(timeouts, fibers);
      var it := timeouts[0];
      if now < it.timepoint {
        return None;
      }
      SortedRemove(timeouts, 0, fibers);
      assert timeouts[..0] + timeouts[1..] == timeouts[1..];
      timeouts := timeouts[1..];
      fibers := fibers - {it.fiber};
      return Some(it.fiber);
    }
  }
}

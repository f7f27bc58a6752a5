/** No notification is lost, no cycle of lock waits arises, and `wait()` returns what it promises. */
module HandshakeSafety {
  import opened Common
  import opened Handshake

  predicate HoldsM(p: FiberPc) {
    match p
    case Entry | CountIn | WantList | Test | WantWork | HasWork | CheckTime | WantErase(_) | CountOut(_) => true
    case _ => false
  }

  predicate HoldsWork(p: FiberPc) {
    p.HasWork? || p.Parking?
  }

  predicate Counted(p: FiberPc) {
    !p.Out? && !p.Entry? && !p.CountIn?
  }

  predicate Listed(p: FiberPc) {
    Counted(p) && !p.WantList? && !p.CountOut?
  }

  /** The fiber sleeps, or will without looking at the predicate again. */
  predicate Sleeping(x: Fiber) {
    x.pc.Parking? || (x.pc.Parked? && !x.state.Queued?)
  }

  /** The fiber has seen the predicate false and has not yet given up M. */
  predicate Deciding(x: Fiber) {
    x.pc.WantWork? || x.pc.HasWork?
  }

  // ---- the invariant ----

  // Who holds which mutex follows from where everyone is.

  ghost predicate MHeld(m: Option<Actor>, fibers: seq<Fiber>, notifiers: seq<Notifier>) {
    && (forall f :: 0 <= f < |fibers| && HoldsM(fibers[f].pc) ==> m == Some(F(f)))
    && (forall f :: 0 <= f < |fibers| && !HoldsM(fibers[f].pc) && !fibers[f].pc.Out? ==> m != Some(F(f)))
    && (forall k :: 0 <= k < |notifiers| && notifiers[k].pc.Holding? ==> m == Some(N(k)))
    && (forall k :: 0 <= k < |notifiers| && (notifiers[k].pc.Idle? || notifiers[k].pc.Changed?) ==> m != Some(N(k)))
  }

  ghost predicate WorkHeld(work: seq<Option<Actor>>, fibers: seq<Fiber>) {
    && (forall f :: 0 <= f < |fibers| ==> fibers[f].worker < |work|)
    && (forall f :: 0 <= f < |fibers| && HoldsWork(fibers[f].pc) ==> work[fibers[f].worker] == Some(F(f)))
    && (forall i :: 0 <= i < |work| && work[i].Some? ==>
          match work[i].value
          case F(f) => f < |fibers| && HoldsWork(fibers[f].pc) && fibers[f].worker == i
          case N(_) => false
          case T(_) => true)
  }

  /** A thread that waits for a mutex is in no work mutex, nor does it hold the one it waits for. */
  predicate Waits(m: Option<Actor>, workers: nat, t: nat, x: Thread) {
    match x.wants
    case None => true
    case Some(MLock) => x.inWork.None? && m != Some(T(t))
    case Some(CLock) => false
    case Some(WorkLock(i)) => x.inWork.None? && i < workers
  }

  ghost predicate ThreadsHeld(m: Option<Actor>, work: seq<Option<Actor>>, threads: seq<Thread>) {
    && (forall t :: 0 <= t < |threads| ==> Waits(m, |work|, t, threads[t]))
    && (forall t :: 0 <= t < |threads| && threads[t].inWork.Some? ==>
          threads[t].inWork.value < |work| && work[threads[t].inWork.value] == Some(T(t)))
    && (forall i :: 0 <= i < |work| && work[i].Some? && work[i].value.T? ==>
          work[i].value.thread < |threads| && threads[work[i].value.thread].inWork == Some(i))
  }

  ghost predicate CHeld(c: Option<Actor>, notifiers: seq<Notifier>) {
    && (forall k :: 0 <= k < |notifiers| && notifiers[k].pc.Iterating? ==> c == Some(N(k)))
    && (c.Some? ==> c.value.N? && c.value.notifier < |notifiers| && notifiers[c.value.notifier].pc.Iterating?)
  }

  ghost predicate Locks(s: System) {
    && MHeld(s.m, s.fibers, s.notifiers) && WorkHeld(s.work, s.fibers) && CHeld(s.c, s.notifiers)
    && ThreadsHeld(s.m, s.work, s.threads)
  }

  predicate StatesMatch(fibers: seq<Fiber>) {
    forall f :: 0 <= f < |fibers| ==> (fibers[f].state.Running? <==> !fibers[f].pc.Parked?)
  }

  ghost predicate ListMatches(list: seq<FiberId>, fibers: seq<Fiber>) {
    && (forall i, j :: 0 <= i < j < |list| ==> list[i] != list[j])
    && (forall f: FiberId :: f in list <==> f < |fibers| && Listed(fibers[f].pc))
  }

  ghost function CountedFibers(fibers: seq<Fiber>): (r: set<FiberId>) {
    set f | 0 <= f < |fibers| && Counted(fibers[f].pc)
  }

  ghost predicate Seen(s: System) {
    && (forall f :: 0 <= f < |s.fibers| ==> s.fibers[f].seen <= s.changes)
    && (forall k :: 0 <= k < |s.notifiers| ==> s.notifiers[k].change <= s.changes)
  }

  /** A fiber whose last look at the predicate is older than the notifier's change. */
  predicate Stale(x: Fiber, k: Notifier) {
    x.seen < k.change
  }

  /** A notifier that held M after its change leaves no stale fiber deciding; while it walks the
      list, none that it has passed sleeps; and in the end none sleeps at all. */
  ghost predicate Rule(list: seq<FiberId>, fibers: seq<Fiber>, k: Notifier) {
    k.ruled ==>
      && (forall f :: 0 <= f < |fibers| && Stale(fibers[f], k) ==> !Deciding(fibers[f]))
      && (k.pc.Iterating? ==>
            && k.pc.next <= |list|
            && forall i :: 0 <= i < k.pc.next && list[i] < |fibers| && Stale(fibers[list[i]], k) ==>
                 !Sleeping(fibers[list[i]]))
      && (k.pc.Notified? ==> forall f :: 0 <= f < |fibers| && Stale(fibers[f], k) ==> !Sleeping(fibers[f]))
  }

  ghost predicate Rules(s: System) {
    forall k :: 0 <= k < |s.notifiers| ==> Rule(s.list, s.fibers, s.notifiers[k])
  }

  /** What a fiber on its way out of `wait()` will return is justified. */
  ghost predicate Justified(s: System, x: Fiber) {
    match x.pc
    case WantErase(ok) => Result(s, x, ok)
    case CountOut(ok) => Result(s, x, ok)
    case _ => true
  }

  ghost predicate Result(s: System, x: Fiber, ok: bool) {
    if ok then HeldAtLastLook(s, x) else x.deadline.Some? && x.deadline.value <= s.now
  }

  /** The predicate was true when the fiber last looked: it still is unless it has been changed
      since, and then only by actors that did not hold M. */
  ghost predicate HeldAtLastLook(s: System, x: Fiber) {
    && (x.seen == s.changes ==> s.predicateHolds)
    && (forall c :: x.seen < c <= s.changes ==> c in s.unlocked)
  }

  ghost predicate Inv(s: System) {
    && Locks(s)
    && StatesMatch(s.fibers)
    && ListMatches(s.list, s.fibers)
    && s.numWaiting == |CountedFibers(s.fibers)|
    && Seen(s)
    && Rules(s)
    && (forall f :: 0 <= f < |s.fibers| ==> Justified(s, s.fibers[f]))
  }

  lemma InitInv(s: System)
    requires Init(s)
    ensures Inv(s)
  {
    assert CountedFibers(s.fibers) == {};
  }

  // ---- the list ----

  lemma {:induction false} RemoveOneFacts(q: seq<FiberId>, f: FiberId)
    requires forall i, j :: 0 <= i < j < |q| ==> q[i] != q[j]
    ensures
      var r := RemoveOne(q, f);
      && (forall i, j :: 0 <= i < j < |r| ==> r[i] != r[j])
      && (forall g :: g in r <==> g in q && g != f)
  {
    if q != [] {
      RemoveOneFacts(q[1..], f);
      assert q == [q[0]] + q[1..];
      if q[0] == f {
        assert forall g :: g in q[1..] ==> g != f;
      } else {
        var r := RemoveOne(q[1..], f);
        assert q[0] !in r;
        assert RemoveOne(q, f) == [q[0]] + r;
      }
    }
  }

  lemma CountedUpdate(fibers: seq<Fiber>, f: FiberId, x: Fiber)
    requires f < |fibers|
    ensures |CountedFibers(fibers[f := x])| ==
            |CountedFibers(fibers)| - (if Counted(fibers[f].pc) then 1 else 0) + (if Counted(x.pc) then 1 else 0)
  {
    var others := set g | 0 <= g < |fibers| && g != f && Counted(fibers[g].pc);
    assert CountedFibers(fibers) == if Counted(fibers[f].pc) then others + {f} else others;
    assert CountedFibers(fibers[f := x]) == if Counted(x.pc) then others + {f} else others;
  }

  lemma Range(s: System)
    requires WorkHeld(s.work, s.fibers) && ListMatches(s.list, s.fibers)
    ensures InRange(s)
  {
    assert forall i :: 0 <= i < |s.list| ==> s.list[i] in s.list;
  }

  // ---- one fiber or one notifier moves ----

  lemma FiberM(m: Option<Actor>, fibers: seq<Fiber>, notifiers: seq<Notifier>, f: FiberId, x: Fiber, m': Option<Actor>)
    requires MHeld(m, fibers, notifiers) && f < |fibers|
    requires m' == m || (m == Some(F(f)) && m'.None?) || (m.None? && m' == Some(F(f)))
    requires x.pc.Out? || (HoldsM(x.pc) <==> m' == Some(F(f)))
    ensures MHeld(m', fibers[f := x], notifiers)
  {
  }

  lemma NotifierM(m: Option<Actor>, fibers: seq<Fiber>, notifiers: seq<Notifier>, k: nat, x: Notifier,
      m': Option<Actor>)
    requires MHeld(m, fibers, notifiers) && k < |notifiers|
    requires m' == m || (m == Some(N(k)) && m'.None?) || (m.None? && m' == Some(N(k)))
    requires x.pc.Holding? ==> m' == Some(N(k))
    requires x.pc.Idle? || x.pc.Changed? ==> m' != Some(N(k))
    ensures MHeld(m', fibers, notifiers[k := x])
  {
  }

  lemma FiberWork(work: seq<Option<Actor>>, fibers: seq<Fiber>, f: FiberId, x: Fiber, w: Option<Actor>)
    requires WorkHeld(work, fibers) && f < |fibers| && x.worker == fibers[f].worker
    requires
      var held := work[x.worker];
      w == held || (held == Some(F(f)) && w.None?) || (held.None? && w == Some(F(f)))
    requires HoldsWork(x.pc) <==> w == Some(F(f))
    ensures WorkHeld(work[x.worker := w], fibers[f := x])
  {
  }

  lemma NotifierC(c: Option<Actor>, notifiers: seq<Notifier>, k: nat, x: Notifier, c': Option<Actor>)
    requires CHeld(c, notifiers) && k < |notifiers|
    requires c' == c || (c == Some(N(k)) && c'.None?) || (c.None? && c' == Some(N(k)))
    requires x.pc.Iterating? <==> c' == Some(N(k))
    ensures CHeld(c', notifiers[k := x])
  {
  }

  /** Fibers and notifiers pass mutexes among themselves without touching those of threads. */
  lemma OthersLock(m: Option<Actor>, work: seq<Option<Actor>>, threads: seq<Thread>,
                   m': Option<Actor>, i: nat, w: Option<Actor>)
    requires ThreadsHeld(m, work, threads) && i < |work|
    requires m' == m || m'.None? || !m'.value.T?
    requires w == work[i] || ((work[i].None? || !work[i].value.T?) && (w.None? || !w.value.T?))
    ensures ThreadsHeld(m', work[i := w], threads)
  {
  }

  lemma OthersLockM(m: Option<Actor>, work: seq<Option<Actor>>, threads: seq<Thread>, m': Option<Actor>)
    requires ThreadsHeld(m, work, threads) && (m' == m || m'.None? || !m'.value.T?)
    ensures ThreadsHeld(m', work, threads)
  {
  }

  lemma HeldAt(s: System, f: FiberId)
    requires Locks(s) && f < |s.fibers|
    ensures
      var x := s.fibers[f];
      && x.worker < |s.work| && (x.pc.Out? || (HoldsM(x.pc) <==> s.m == Some(F(f))))
      && (HoldsWork(x.pc) <==> s.work[x.worker] == Some(F(f)))
  {
  }

  // ---- steps of a fiber ----

  lemma FiberStepM(s: System, f: FiberId)
    requires Locks(s) && InRange(s) && Enabled(s, Step(f))
    ensures MHeld(Apply(s, Step(f)).m, Apply(s, Step(f)).fibers, Apply(s, Step(f)).notifiers)
  {
    hide MHeld, WorkHeld, CHeld, ThreadsHeld, NextList, NextCount, NextWork;
    HeldAt(s, f);
    var r := Apply(s, Step(f));
    FiberM(s.m, s.fibers, s.notifiers, f, r.fibers[f], r.m);
  }

  lemma FiberStepWork(s: System, f: FiberId)
    requires Locks(s) && InRange(s) && Enabled(s, Step(f))
    ensures WorkHeld(Apply(s, Step(f)).work, Apply(s, Step(f)).fibers)
    ensures ThreadsHeld(Apply(s, Step(f)).m, Apply(s, Step(f)).work, Apply(s, Step(f)).threads)
  {
    hide MHeld, WorkHeld, CHeld, ThreadsHeld, NextList, NextCount;
    HeldAt(s, f);
    var r, i := Apply(s, Step(f)), s.fibers[f].worker;
    FiberWork(s.work, s.fibers, f, r.fibers[f], r.work[i]);
    OthersLock(s.m, s.work, s.threads, r.m, i, r.work[i]);
  }

  lemma FiberStepStates(s: System, f: FiberId)
    requires StatesMatch(s.fibers) && InRange(s) && Enabled(s, Step(f))
    ensures StatesMatch(Apply(s, Step(f)).fibers)
  {
    hide StatesMatch, NextList, NextCount, NextWork, NextM;
    StateAt(s.fibers, f);
    StateSet(s.fibers, f, Apply(s, Step(f)).fibers[f]);
  }

  lemma StateAt(fibers: seq<Fiber>, f: FiberId)
    requires StatesMatch(fibers) && f < |fibers|
    ensures fibers[f].state.Running? <==> !fibers[f].pc.Parked?
  {
  }

  lemma StateSet(fibers: seq<Fiber>, f: FiberId, x: Fiber)
    requires StatesMatch(fibers) && f < |fibers| && (x.state.Running? <==> !x.pc.Parked?)
    ensures StatesMatch(fibers[f := x])
  {
  }

  lemma SameListed(list: seq<FiberId>, fibers: seq<Fiber>, f: FiberId, x: Fiber)
    requires ListMatches(list, fibers) && f < |fibers| && Listed(x.pc) == Listed(fibers[f].pc)
    ensures ListMatches(list, fibers[f := x])
  {
  }

  lemma FiberList(s: System, f: FiberId)
    requires Inv(s) && InRange(s) && Enabled(s, Step(f))
    ensures ListMatches(Apply(s, Step(f)).list, Apply(s, Step(f)).fibers)
  {
    hide CountedFibers, Seen, Rules, Justified, Locks, StatesMatch, ListMatches, NextCount, NextWork, NextM;
    var x := Apply(s, Step(f)).fibers[f];
    match s.fibers[f].pc
    case WantList => ListIn(s.list, s.fibers, f, x);
    case WantErase(_) => ListOut(s.list, s.fibers, f, x);
    case _ => SameListed(s.list, s.fibers, f, x);
  }

  lemma ListIn(list: seq<FiberId>, fibers: seq<Fiber>, f: FiberId, x: Fiber)
    requires ListMatches(list, fibers) && f < |fibers| && !Listed(fibers[f].pc) && Listed(x.pc)
    ensures ListMatches([f] + list, fibers[f := x])
  {
  }

  lemma ListOut(list: seq<FiberId>, fibers: seq<Fiber>, f: FiberId, x: Fiber)
    requires ListMatches(list, fibers) && f < |fibers| && !Listed(x.pc)
    ensures ListMatches(RemoveOne(list, f), fibers[f := x])
  {
    hide RemoveOne;
    RemoveOneFacts(list, f);
    var after := fibers[f := x];
    forall g: FiberId ensures g in RemoveOne(list, f) <==> g < |after| && Listed(after[g].pc) {
      assert g != f ==> (g in list <==> g < |fibers| && Listed(fibers[g].pc));
    }
  }

  lemma FiberCount(s: System, f: FiberId)
    requires InRange(s) && Enabled(s, Step(f)) && s.numWaiting == |CountedFibers(s.fibers)|
    ensures Apply(s, Step(f)).numWaiting == |CountedFibers(Apply(s, Step(f)).fibers)|
  {
    hide CountedFibers, NextList, NextWork, NextM, RemoveOne;
    CountedUpdate(s.fibers, f, Apply(s, Step(f)).fibers[f]);
  }

  lemma FiberSeen(s: System, f: FiberId)
    requires Seen(s) && InRange(s) && Enabled(s, Step(f))
    ensures Seen(Apply(s, Step(f)))
  {
    hide NextList, NextCount, NextWork, NextM;
  }

  /** A fiber starts deciding only after a fresh look, and starts sleeping only after deciding. */
  lemma FiberRule(list: seq<FiberId>, fibers: seq<Fiber>, k: Notifier, f: FiberId, x: Fiber)
    requires Rule(list, fibers, k) && f < |fibers| && fibers[f].seen <= x.seen
    requires Deciding(x) && Stale(x, k) ==> Deciding(fibers[f]) && Stale(fibers[f], k)
    requires Sleeping(x) && Stale(x, k) ==> (Deciding(fibers[f]) || Sleeping(fibers[f])) && Stale(fibers[f], k)
    ensures Rule(list, fibers[f := x], k)
  {
  }

  /** The list changes only while no one walks it. */
  lemma ListRule(list: seq<FiberId>, fibers: seq<Fiber>, k: Notifier, list': seq<FiberId>)
    requires Rule(list, fibers, k) && !k.pc.Iterating?
    ensures Rule(list', fibers, k)
  {
  }

  lemma FiberStepRule(s: System, f: FiberId, k: nat)
    requires InRange(s) && Enabled(s, Step(f)) && Seen(s) && StatesMatch(s.fibers) && CHeld(s.c, s.notifiers)
    requires k < |s.notifiers| && Rule(s.list, s.fibers, s.notifiers[k])
    ensures Rule(Apply(s, Step(f)).list, Apply(s, Step(f)).fibers, s.notifiers[k])
  {
    hide Rule, NextCount, NextWork, NextM, RemoveOne;
    var r := Apply(s, Step(f));
    FiberRule(s.list, s.fibers, s.notifiers[k], f, r.fibers[f]);
    if r.list != s.list {
      ListRule(s.list, r.fibers, s.notifiers[k], r.list);
    }
  }

  lemma FiberStepJustified(s: System, f: FiberId)
    requires InRange(s) && Enabled(s, Step(f)) && forall g :: 0 <= g < |s.fibers| ==> Justified(s, s.fibers[g])
    ensures
      var r := Apply(s, Step(f));
      forall g :: 0 <= g < |r.fibers| ==> Justified(r, r.fibers[g])
  {
    hide NextList, NextCount, NextWork, NextM;
    var r := Apply(s, Step(f));
    forall g | 0 <= g < |r.fibers| ensures Justified(r, r.fibers[g]) {
      if g == f {
        LookedAt(s, r, f);
      } else {
        SameJustified(s, r, s.fibers[g]);
      }
    }
  }

  lemma LookedAt(s: System, r: System, f: FiberId)
    requires f < |s.fibers| && Justified(s, s.fibers[f])
    requires r.predicateHolds == s.predicateHolds && r.unlocked == s.unlocked && r.changes == s.changes
    requires r.now == s.now
    ensures Justified(r, NextFiber(s.fibers[f], s.predicateHolds, s.changes, s.now))
  {
  }

  lemma FiberStepInv(s: System, f: FiberId)
    requires Inv(s) && InRange(s) && Enabled(s, Step(f))
    ensures Inv(Apply(s, Step(f)))
  {
    hide MHeld, WorkHeld, CHeld, ThreadsHeld, StatesMatch, ListMatches, CountedFibers, Rule, Justified, Seen, Enabled;
    var r := Apply(s, Step(f));
    FiberStepM(s, f);
    FiberStepWork(s, f);
    FiberStepStates(s, f);
    FiberList(s, f);
    FiberCount(s, f);
    FiberSeen(s, f);
    FiberStepJustified(s, f);
    FiberStepOthers(s, f);
    forall k | 0 <= k < |s.notifiers| ensures Rule(r.list, r.fibers, s.notifiers[k]) {
      FiberStepRule(s, f, k);
    }
  }

  lemma FiberStepOthers(s: System, f: FiberId)
    requires InRange(s) && Enabled(s, Step(f))
    ensures Apply(s, Step(f)).notifiers == s.notifiers && Apply(s, Step(f)).c == s.c
  {
    hide NextFiber, NextList, NextCount, NextWork, NextM;
  }

  // ---- other steps that concern one fiber ----

  /** `r` is `s` with fiber `f` replaced by `x`, which holds and is listed as before. */
  ghost predicate OneFiber(s: System, r: System, f: FiberId, x: Fiber) {
    && f < |s.fibers| && r == s.(fibers := s.fibers[f := x])
    && x.worker == s.fibers[f].worker && x.seen == s.fibers[f].seen
    && (x.state.Running? <==> !x.pc.Parked?)
    && Counted(x.pc) == Counted(s.fibers[f].pc) && Listed(x.pc) == Listed(s.fibers[f].pc)
    && HoldsWork(x.pc) == HoldsWork(s.fibers[f].pc)
    && (HoldsM(x.pc) <==> s.m == Some(F(f)))
    && (Deciding(x) ==> Deciding(s.fibers[f])) && (Sleeping(x) ==> Sleeping(s.fibers[f]))
    && Justified(r, x)
  }

  lemma OneFiberInv(s: System, r: System, f: FiberId, x: Fiber)
    requires Inv(s) && OneFiber(s, r, f, x)
    ensures Inv(r)
  {
    hide MHeld, WorkHeld, CHeld, ThreadsHeld, StatesMatch, ListMatches, CountedFibers, Rule, Justified;
    HeldAt(s, f);
    FiberM(s.m, s.fibers, s.notifiers, f, x, s.m);
    FiberWork(s.work, s.fibers, f, x, s.work[x.worker]);
    assert s.work[x.worker := s.work[x.worker]] == s.work;
    StateSet(s.fibers, f, x);
    SameListed(s.list, s.fibers, f, x);
    CountedUpdate(s.fibers, f, x);
    forall k | 0 <= k < |s.notifiers| ensures Rule(r.list, r.fibers, s.notifiers[k]) {
      FiberRule(s.list, s.fibers, s.notifiers[k], f, x);
    }
    forall g | 0 <= g < |r.fibers| ensures Justified(r, r.fibers[g]) {
      SameJustified(s, r, r.fibers[g]);
    }
  }

  lemma SameJustified(s: System, r: System, x: Fiber)
    requires r.predicateHolds == s.predicateHolds && r.unlocked == s.unlocked && r.changes == s.changes
    requires s.now <= r.now
    ensures Justified(s, x) ==> Justified(r, x)
  {
  }

  lemma WaitInv(s: System, e: Event)
    requires Inv(s) && InRange(s) && Enabled(s, e) && (e.StartWait? || e.TimeOut?)
    ensures Inv(Apply(s, e))
  {
    hide Inv, MHeld, WorkHeld, CHeld, ThreadsHeld, ListMatches, Rule;
    FiberFacts(s, e.fiber);
    OneFiberInv(s, Apply(s, e), e.fiber, Apply(s, e).fibers[e.fiber]);
  }

  lemma FiberFacts(s: System, f: FiberId)
    requires Inv(s) && f < |s.fibers|
    ensures
      var x := s.fibers[f];
      && (x.pc.Out? || (HoldsM(x.pc) <==> s.m == Some(F(f))))
      && (x.state.Running? <==> !x.pc.Parked?) && Justified(s, x) && x.seen <= s.changes
      && x.worker < |s.work| && (HoldsWork(x.pc) <==> s.work[x.worker] == Some(F(f)))
  {
    hide ListMatches, Rule, CountedFibers, ThreadsHeld;
  }

  // ---- steps of a notifier ----

  /** `r` is `s` with notifier `k` replaced by `x` and mutexes passed as its new place says. */
  ghost predicate OneNotifier(s: System, r: System, k: nat, x: Notifier) {
    && k < |s.notifiers| && r.notifiers == s.notifiers[k := x] && r.fibers == s.fibers && r.list == s.list
    && r.work == s.work && r.threads == s.threads
    && r.numWaiting == s.numWaiting && r.changes >= s.changes && x.change <= r.changes
    && (r.m == s.m || (s.m == Some(N(k)) && r.m.None?) || (s.m.None? && r.m == Some(N(k))))
    && (x.pc.Holding? ==> r.m == Some(N(k)))
    && (x.pc.Idle? || x.pc.Changed? ==> r.m != Some(N(k)))
    && (r.c == s.c || (s.c == Some(N(k)) && r.c.None?) || (s.c.None? && r.c == Some(N(k))))
    && (x.pc.Iterating? <==> r.c == Some(N(k)))
    && Rule(s.list, s.fibers, x)
    && forall f :: 0 <= f < |s.fibers| ==> Justified(r, s.fibers[f])
  }

  lemma OneNotifierInv(s: System, r: System, k: nat, x: Notifier)
    requires Inv(s) && OneNotifier(s, r, k, x)
    ensures Inv(r)
  {
    hide MHeld, WorkHeld, CHeld, ThreadsHeld, StatesMatch, ListMatches, CountedFibers, Rule, Justified;
    OthersLockM(s.m, s.work, s.threads, r.m);
    NotifierM(s.m, s.fibers, s.notifiers, k, x, r.m);
    NotifierC(s.c, s.notifiers, k, x, r.c);
  }

  lemma NotifierFacts(s: System, k: nat)
    requires Inv(s) && k < |s.notifiers|
    ensures
      var x := s.notifiers[k];
      && Rule(s.list, s.fibers, x) && x.change <= s.changes
      && (x.pc.Holding? ==> s.m == Some(N(k))) && (x.pc.Idle? || x.pc.Changed? ==> s.m != Some(N(k)))
      && (x.pc.Iterating? <==> s.c == Some(N(k)))
      && forall f :: 0 <= f < |s.fibers| ==> Justified(s, s.fibers[f])
  {
    hide ListMatches, Rule, CountedFibers, WorkHeld;
  }

  /** While no fiber holds M, none is deciding and none is on its way out of `wait()`. */
  lemma NoFiberHoldsM(s: System)
    requires Inv(s) && (s.m.None? || !s.m.value.F?)
    ensures forall f :: 0 <= f < |s.fibers| ==> !HoldsM(s.fibers[f].pc) && !Deciding(s.fibers[f])
  {
    hide ListMatches, Rule, CountedFibers, WorkHeld, CHeld;
  }

  lemma AcquireInv(s: System, k: nat)
    requires Inv(s) && InRange(s) && Enabled(s, Acquire(N(k)))
    ensures Inv(Apply(s, Acquire(N(k))))
  {
    hide Inv, Justified;
    NotifierFacts(s, k);
    NoFiberHoldsM(s);
    var r := Apply(s, Acquire(N(k)));
    forall f | 0 <= f < |s.fibers| ensures Justified(r, s.fibers[f]) {
      SameJustified(s, r, s.fibers[f]);
    }
    OneNotifierInv(s, r, k, r.notifiers[k]);
  }

  lemma ChangeInv(s: System, k: nat, value: bool)
    requires Inv(s) && InRange(s) && Enabled(s, Change(k, value))
    ensures Inv(Apply(s, Change(k, value)))
  {
    hide Inv, Rule;
    NotifierFacts(s, k);
    var r := Apply(s, Change(k, value));
    if s.notifiers[k].pc.Holding? {
      NoFiberHoldsM(s);
      NobodyDecides(s.list, s.fibers, r.notifiers[k]);
    } else {
      Unruled(s.list, s.fibers, r.notifiers[k]);
      forall f | 0 <= f < |s.fibers| ensures Justified(r, s.fibers[f]) {
        FiberFacts(s, f);
      }
    }
    OneNotifierInv(s, r, k, r.notifiers[k]);
  }

  lemma NobodyDecides(list: seq<FiberId>, fibers: seq<Fiber>, k: Notifier)
    requires !k.pc.Iterating? && !k.pc.Notified? && forall f :: 0 <= f < |fibers| ==> !Deciding(fibers[f])
    ensures Rule(list, fibers, k)
  {
  }

  lemma Unruled(list: seq<FiberId>, fibers: seq<Fiber>, k: Notifier)
    requires !k.ruled
    ensures Rule(list, fibers, k)
  {
  }

  lemma ReleaseInv(s: System, e: Event)
    requires Inv(s) && InRange(s) && Enabled(s, e)
    requires (e.Release? && e.actor.N?) || e.SkipLock?
    ensures Inv(Apply(s, e))
  {
    hide Inv, Justified;
    var k := if e.Release? then e.actor.notifier else e.notifier;
    NotifierFacts(s, k);
    var r := Apply(s, e);
    forall f | 0 <= f < |s.fibers| ensures Justified(r, s.fibers[f]) {
      SameJustified(s, r, s.fibers[f]);
    }
    assert s.notifiers[k := s.notifiers[k]] == s.notifiers;
    OneNotifierInv(s, r, k, r.notifiers[k]);
  }

  lemma NobodyCounted(s: System)
    requires Inv(s) && s.numWaiting == 0
    ensures forall f :: 0 <= f < |s.fibers| ==> !Sleeping(s.fibers[f])
  {
    hide ListMatches, Rule, WorkHeld, CHeld, MHeld;
    forall f | 0 <= f < |s.fibers| ensures !Counted(s.fibers[f].pc) {
      assert Counted(s.fibers[f].pc) ==> f in CountedFibers(s.fibers);
    }
  }

  lemma StartNotifyInv(s: System, k: nat)
    requires Inv(s) && InRange(s) && Enabled(s, StartNotify(k))
    ensures Inv(Apply(s, StartNotify(k)))
  {
    hide Inv, Justified;
    NotifierFacts(s, k);
    var r := Apply(s, StartNotify(k));
    if s.numWaiting == 0 {
      NobodyCounted(s);
    }
    forall f | 0 <= f < |s.fibers| ensures Justified(r, s.fibers[f]) {
      SameJustified(s, r, s.fibers[f]);
    }
    OneNotifierInv(s, r, k, r.notifiers[k]);
  }

  /** Every sleeping fiber is in the list. */
  lemma SleepersListed(s: System)
    requires Inv(s)
    ensures forall f :: 0 <= f < |s.fibers| && Sleeping(s.fibers[f]) ==> f in s.list
  {
    hide Rule, WorkHeld, CHeld, MHeld, CountedFibers;
  }

  lemma LastStepInv(s: System, k: nat)
    requires Inv(s) && InRange(s) && Enabled(s, NotifyStep(k))
    requires s.notifiers[k].pc.WantC? || s.notifiers[k].pc.next >= |s.list|
    ensures Inv(Apply(s, NotifyStep(k)))
  {
    hide Inv, Justified;
    NotifierFacts(s, k);
    SleepersListed(s);
    var r := Apply(s, NotifyStep(k));
    forall f | 0 <= f < |s.fibers| ensures Justified(r, s.fibers[f]) {
      SameJustified(s, r, s.fibers[f]);
    }
    OneNotifierInv(s, r, k, r.notifiers[k]);
  }

  lemma WakeOneInv(s: System, k: nat)
    requires Inv(s) && InRange(s) && Enabled(s, NotifyStep(k))
    requires s.notifiers[k].pc.Iterating? && s.notifiers[k].pc.next < |s.list|
    ensures Inv(Apply(s, NotifyStep(k)))
  {
    hide Inv, MHeld, WorkHeld, CHeld, ListMatches, CountedFibers, Justified;
    var i := s.notifiers[k].pc.next;
    var f := s.list[i];
    var mid := Notify(s, f);
    FiberFacts(s, f);
    if mid != s {
      SameJustified(s, mid, mid.fibers[f]);
      ParkedNotJustified(s, mid.fibers[f]);
      OneFiberInv(s, mid, f, mid.fibers[f]);
    }
    NotifierFacts(mid, k);
    assert !Sleeping(mid.fibers[f]);
    var r := Apply(s, NotifyStep(k));
    forall g | 0 <= g < |mid.fibers| ensures Justified(r, mid.fibers[g]) {
      SameJustified(mid, r, mid.fibers[g]);
    }
    OneNotifierInv(mid, r, k, r.notifiers[k]);
  }

  lemma ParkedNotJustified(s: System, x: Fiber)
    requires x.pc.Parked?
    ensures Justified(s, x)
  {
  }

  lemma PlainInv(s: System, e: Event)
    requires Inv(s) && InRange(s) && Enabled(s, e)
    requires e.Tick? || (e.Acquire? && e.actor.F?) || (e.Release? && e.actor.F?)
    ensures Inv(Apply(s, e))
  {
    hide WorkHeld, CHeld, ThreadsHeld, StatesMatch, ListMatches, CountedFibers, Rule, Justified;
    var r := Apply(s, e);
    OthersLockM(s.m, s.work, s.threads, r.m);
    forall f | 0 <= f < |s.fibers| ensures Justified(r, s.fibers[f]) {
      SameJustified(s, r, s.fibers[f]);
    }
  }

  // ---- steps of other threads ----

  lemma ThreadM(m: Option<Actor>, fibers: seq<Fiber>, notifiers: seq<Notifier>, t: nat, m': Option<Actor>)
    requires MHeld(m, fibers, notifiers)
    requires m' == m || (m == Some(T(t)) && m'.None?) || (m.None? && m' == Some(T(t)))
    ensures MHeld(m', fibers, notifiers)
  {
  }

  lemma ThreadWork(work: seq<Option<Actor>>, fibers: seq<Fiber>, t: nat, i: nat, w: Option<Actor>)
    requires WorkHeld(work, fibers) && i < |work|
    requires (work[i] == Some(T(t)) && w.None?) || (work[i].None? && w == Some(T(t)))
    ensures WorkHeld(work[i := w], fibers)
  {
  }

  /** `r` is `s` up to the mutexes that thread `t` locks or unlocks. */
  ghost predicate OneThread(s: System, r: System, t: nat) {
    && r == s.(m := r.m, work := r.work, threads := r.threads)
    && MHeld(r.m, s.fibers, s.notifiers) && WorkHeld(r.work, s.fibers) && ThreadsHeld(r.m, r.work, r.threads)
  }

  lemma OneThreadInv(s: System, r: System, t: nat)
    requires Inv(s) && OneThread(s, r, t)
    ensures Inv(r)
  {
    hide MHeld, WorkHeld, CHeld, ThreadsHeld, StatesMatch, ListMatches, CountedFibers, Rule, Justified;
    forall f | 0 <= f < |s.fibers| ensures Justified(r, s.fibers[f]) {
      SameJustified(s, r, s.fibers[f]);
    }
  }

  lemma ThreadWantsInv(s: System, t: nat, lock: Lock)
    requires Inv(s) && InRange(s) && Enabled(s, ThreadWants(t, lock))
    ensures Inv(Apply(s, ThreadWants(t, lock)))
  {
    hide MHeld, WorkHeld, CHeld, StatesMatch, ListMatches, CountedFibers, Rule, Justified;
    OneThreadInv(s, Apply(s, ThreadWants(t, lock)), t);
  }

  lemma ThreadLocksInv(s: System, t: nat)
    requires Inv(s) && InRange(s) && Enabled(s, ThreadLocks(t))
    ensures Inv(Apply(s, ThreadLocks(t)))
  {
    hide MHeld, WorkHeld, CHeld, StatesMatch, ListMatches, CountedFibers, Rule, Justified;
    var r := Apply(s, ThreadLocks(t));
    if s.threads[t].wants.value.MLock? {
      ThreadM(s.m, s.fibers, s.notifiers, t, r.m);
    } else {
      ThreadWork(s.work, s.fibers, t, s.threads[t].wants.value.worker, Some(T(t)));
    }
    OneThreadInv(s, r, t);
  }

  lemma ThreadUnlocksInv(s: System, t: nat, lock: Lock)
    requires Inv(s) && InRange(s) && Enabled(s, ThreadUnlocks(t, lock))
    ensures Inv(Apply(s, ThreadUnlocks(t, lock)))
  {
    hide MHeld, WorkHeld, CHeld, StatesMatch, ListMatches, CountedFibers, Rule, Justified;
    var r := Apply(s, ThreadUnlocks(t, lock));
    if lock.MLock? {
      ThreadM(s.m, s.fibers, s.notifiers, t, r.m);
    } else {
      ThreadWork(s.work, s.fibers, t, lock.worker, None);
    }
    OneThreadInv(s, r, t);
  }

  lemma StepInv(s: System, e: Event)
    requires Inv(s) && InRange(s) && Enabled(s, e)
    ensures Inv(Apply(s, e))
  {
    hide Inv, Enabled, Apply;
    match e
    case Tick(_) => PlainInv(s, e);
    case Acquire(F(_)) => PlainInv(s, e);
    case Release(F(_)) => PlainInv(s, e);
    case Acquire(N(k)) => AcquireInv(s, k);
    case Release(N(_)) => ReleaseInv(s, e);
    case SkipLock(_) => ReleaseInv(s, e);
    case Change(k, value) => ChangeInv(s, k, value);
    case StartWait(_, _) => WaitInv(s, e);
    case TimeOut(_) => WaitInv(s, e);
    case Step(f) => FiberStepInv(s, f);
    case StartNotify(k) => StartNotifyInv(s, k);
    case ThreadWants(t, lock) => ThreadWantsInv(s, t, lock);
    case ThreadLocks(t) => ThreadLocksInv(s, t);
    case ThreadUnlocks(t, lock) => ThreadUnlocksInv(s, t, lock);
    case Acquire(T(_)) => NotByThread(s, e);
    case Release(T(_)) => NotByThread(s, e);
    case NotifyStep(k) =>
      Walking(s, k);
      if s.notifiers[k].pc.Iterating? && s.notifiers[k].pc.next < |s.list| {
        WakeOneInv(s, k);
      } else {
        LastStepInv(s, k);
      }
  }

  lemma NotByThread(s: System, e: Event)
    requires InRange(s) && (e.Acquire? || e.Release?) && e.actor.T?
    ensures !Enabled(s, e)
  {
  }

  lemma Walking(s: System, k: nat)
    requires InRange(s) && Enabled(s, NotifyStep(k))
    ensures k < |s.notifiers| && (s.notifiers[k].pc.WantC? || s.notifiers[k].pc.Iterating?)
  {
  }
}

/** The main results about the suspend/notify handshake, over every run. */
module HandshakeTheorems {
  import opened Common
  import opened Handshake
  import opened HandshakeSafety

  datatype Run = Run(states: seq<System>, events: seq<Event>)

  ghost predicate IsRun(r: Run) {
    && |r.states| == |r.events| + 1
    && Init(r.states[0])
    && forall k :: 0 <= k < |r.events| ==> StepsTo(r.states[k], r.events[k], r.states[k + 1])
  }

  ghost predicate StepsTo(s: System, e: Event, s': System) {
    InRange(s) && Enabled(s, e) && s' == Apply(s, e)
  }

  lemma {:induction false} RunInv(r: Run, i: nat)
    requires IsRun(r) && i < |r.states|
    ensures Inv(r.states[i])
  {
    hide Inv, Apply, Enabled, InRange;
    if i == 0 {
      InitInv(r.states[0]);
    } else {
      RunInv(r, i - 1);
      assert StepsTo(r.states[i - 1], r.events[i - 1], r.states[i]);
      StepInv(r.states[i - 1], r.events[i - 1]);
    }
  }

  // ---- wake-ups ----

  /** When `notify_all()` has returned to a notifier that held M at or after its change, no fiber
      whose last look at the predicate came before that change sleeps or is about to. */
  lemma NoLostWakeup(r: Run, i: nat, k: nat, f: FiberId)
    requires IsRun(r) && i < |r.states| && k < |r.states[i].notifiers| && f < |r.states[i].fibers|
    requires r.states[i].notifiers[k].pc.Notified? && r.states[i].notifiers[k].ruled
    requires r.states[i].fibers[f].seen < r.states[i].notifiers[k].change
    ensures
      var x := r.states[i].fibers[f];
      !x.state.Yielded? && !x.state.Waiting? && !x.pc.Parking? && !x.pc.WantWork? && !x.pc.HasWork?
  {
    hide IsRun, Apply, Enabled, MHeld, WorkHeld, CHeld, ListMatches, CountedFibers;
    RunInv(r, i);
    NotifierFacts(r.states[i], k);
  }

  /** A notifier follows the rule unless it skips the mutex: changing the predicate under M, as
      events and tickets do, and changing it first and then taking M, as `WaitGroup::done()` does
      with its atomic count, are both enough. */
  lemma {:induction false} LockedNotifiersAreRuled(r: Run, i: nat, k: nat)
    requires IsRun(r) && i < |r.states| && k < |r.states[i].notifiers|
    requires forall j :: 0 <= j < i ==> r.events[j] != SkipLock(k)
    ensures
      var p := r.states[i].notifiers[k].pc;
      p.Ready? || p.WantC? || p.Iterating? || p.Notified? ==> r.states[i].notifiers[k].ruled
  {
    if i > 0 {
      var s, e := r.states[i - 1], r.events[i - 1];
      assert StepsTo(s, e, r.states[i]);
      SameNotifiers(s, e);
      LockedNotifiersAreRuled(r, i - 1, k);
      RuledStep(s, e, k);
    }
  }

  lemma SameNotifiers(s: System, e: Event)
    requires InRange(s) && Enabled(s, e)
    ensures |Apply(s, e).notifiers| == |s.notifiers|
  {
  }

  lemma RuledStep(s: System, e: Event, k: nat)
    requires InRange(s) && Enabled(s, e) && k < |s.notifiers| && e != SkipLock(k)
    requires !s.notifiers[k].pc.Idle? && !s.notifiers[k].pc.Changed? && !s.notifiers[k].pc.Holding? ==>
        s.notifiers[k].ruled
    ensures |Apply(s, e).notifiers| == |s.notifiers|
    ensures
      var x := Apply(s, e).notifiers[k];
      !x.pc.Idle? && !x.pc.Changed? && !x.pc.Holding? ==> x.ruled
  {
    if e.Step? {
      FiberStepOthers(s, e.fiber);
    }
  }

  // ---- what wait() returns ----

  /** The step lets `wait()` return, after its first look at the predicate or in the end. */
  predicate Returns(s: System, f: FiberId) {
    f < |s.fibers| && (s.fibers[f].pc.CountOut? || (s.fibers[f].pc.Entry? && s.predicateHolds))
  }

  /** `wait()` returns with the wait mutex held.  True means that the predicate was true at the
      fiber's last look: it still is, unless it has been changed since by actors without the mutex,
      and all changes since then were of that kind.  False means that the deadline has passed. */
  lemma WaitReturns(r: Run, i: nat, f: FiberId)
    requires IsRun(r) && i < |r.events| && r.events[i] == Step(f) && Returns(r.states[i], f)
    ensures
      var s, s' := r.states[i], r.states[i + 1];
      && f < |s'.fibers| && s'.fibers[f].pc.Out? && s'.m == Some(F(f))
      && (if s.fibers[f].pc == CountOut(false) then s.fibers[f].deadline.Some? && s.fibers[f].deadline.value <= s'.now
          else
            && (s'.fibers[f].seen == s'.changes ==> s'.predicateHolds)
            && (forall c :: s'.fibers[f].seen < c <= s'.changes ==> c in s'.unlocked))
  {
    hide MHeld, WorkHeld, CHeld, ThreadsHeld, ListMatches, CountedFibers, Rule;
    RunInv(r, i);
    FiberFacts(r.states[i], f);
    assert StepsTo(r.states[i], r.events[i], r.states[i + 1]);
  }

  /** Event `j` is change number `c` of the predicate, by a notifier that does not hold M. */
  ghost predicate ChangesWithoutM(r: Run, j: nat, c: nat)
    requires j < |r.events| && j < |r.states|
  {
    r.events[j].Change? && r.states[j].changes + 1 == c && r.states[j].m != Some(N(r.events[j].notifier))
  }

  /** `unlocked` records exactly the changes made without the wait mutex. */
  lemma {:induction false} UnlockedChanges(r: Run, i: nat, c: nat)
    requires IsRun(r) && i < |r.states|
    ensures c in r.states[i].unlocked <==> exists j :: 0 <= j < i && ChangesWithoutM(r, j, c)
  {
    hide Inv;
    if i > 0 {
      UnlockedChanges(r, i - 1, c);
      RunInv(r, i - 1);
      assert StepsTo(r.states[i - 1], r.events[i - 1], r.states[i]);
      UnlockedStep(r.states[i - 1], r.events[i - 1], c);
      assert c in r.states[i].unlocked <==> c in r.states[i - 1].unlocked || ChangesWithoutM(r, i - 1, c);
    }
  }

  lemma UnlockedStep(s: System, e: Event, c: nat)
    requires Inv(s) && InRange(s) && Enabled(s, e)
    ensures c in Apply(s, e).unlocked <==>
            c in s.unlocked || (e.Change? && s.changes + 1 == c && s.m != Some(N(e.notifier)))
  {
    hide Inv, NextFiber, NextList, NextCount, NextWork, NextM, Rule, Justified;
    if e.Change? {
      NotifierFacts(s, e.notifier);
    }
  }

  /** `notify_all()` notifies only fibers that are inside `wait()`. */
  lemma NotifiesWaiters(r: Run, i: nat, k: nat)
    requires IsRun(r) && i < |r.states| && k < |r.states[i].notifiers|
    requires r.states[i].notifiers[k].pc.Iterating? && r.states[i].notifiers[k].pc.next < |r.states[i].list|
    ensures
      var s := r.states[i];
      var f := s.list[s.notifiers[k].pc.next];
      f < |s.fibers| && !s.fibers[f].pc.Out? && !s.fibers[f].pc.Entry?
  {
    hide IsRun, MHeld, WorkHeld, CHeld, ThreadsHeld, CountedFibers, Rule;
    RunInv(r, i);
    var s := r.states[i];
    assert s.list[s.notifiers[k].pc.next] in s.list;
  }

  // ---- lock order ----

  function Order(l: Lock): (n: nat) {
    match l
    case MLock => 0
    case CLock => 1
    case WorkLock(_) => 2
  }

  predicate Owns(s: System, a: Actor, l: Lock) {
    match l
    case MLock => s.m == Some(a)
    case CLock => s.c == Some(a)
    case WorkLock(i) => i < |s.work| && s.work[i] == Some(a)
  }

  function FiberWants(x: Fiber): (l: Option<Lock>) {
    match x.pc
    case WantList => Some(CLock)
    case WantErase(_) => Some(CLock)
    case WantWork => Some(WorkLock(x.worker))
    case WantLock => Some(MLock)
    case _ => None
  }

  /** The mutex that an actor is blocked on or about to lock. */
  function Wants(s: System, a: Actor): (l: Option<Lock>)
    requires InRange(s)
  {
    match a
    case F(f) => if f < |s.fibers| then FiberWants(s.fibers[f]) else None
    case N(k) =>
      if k >= |s.notifiers| then None
      else if s.notifiers[k].pc.Changed? then Some(MLock)
      else if s.notifiers[k].pc.WantC? then Some(CLock)
      else if s.notifiers[k].pc.Iterating? && s.notifiers[k].pc.next < |s.list| then
        Some(WorkLock(s.fibers[s.list[s.notifiers[k].pc.next]].worker))
      else None
    case T(t) => if t < |s.threads| then s.threads[t].wants else None
  }

  /** Everyone locks upwards: first M, then C, then a work mutex. */
  lemma LocksUpwards(s: System, a: Actor, l: Lock)
    requires Inv(s) && InRange(s) && Owns(s, a, l) && Wants(s, a).Some?
    ensures Order(l) < Order(Wants(s, a).value)
  {
    hide ListMatches, CountedFibers, Rule, StatesMatch, Justified;
    if a.F? {
      FiberFacts(s, a.fiber);
    }
  }

  /** `chain[i]` waits for a mutex that `chain[i + 1]` owns. */
  ghost predicate WaitChain(s: System, chain: seq<Actor>)
    requires InRange(s)
  {
    forall i :: 0 <= i < |chain| - 1 ==> Wants(s, chain[i]).Some? && Owns(s, chain[i + 1], Wants(s, chain[i]).value)
  }

  lemma {:induction false} ChainClimbs(s: System, chain: seq<Actor>, i: nat)
    requires Inv(s) && InRange(s) && WaitChain(s, chain) && i < |chain|
    requires forall j :: 0 <= j < |chain| ==> Wants(s, chain[j]).Some?
    ensures Order(Wants(s, chain[0]).value) + i <= Order(Wants(s, chain[i]).value)
  {
    hide Inv, Owns, Wants;
    if i > 0 {
      ChainClimbs(s, chain, i - 1);
      LocksUpwards(s, chain[i], Wants(s, chain[i - 1]).value);
    }
  }

  /** No cycle of lock waits in any reachable state. */
  lemma NoLockCycle(r: Run, k: nat, chain: seq<Actor>)
    requires IsRun(r) && k < |r.states| && InRange(r.states[k]) && chain != []
    ensures !WaitChain(r.states[k], chain + [chain[0]])
  {
    hide Inv, Owns, Wants, Init;
    var s := r.states[k];
    RunInv(r, k);
    var closed := chain + [chain[0]];
    if WaitChain(s, closed) {
      assert closed[|chain|] == closed[0];
      ChainClimbs(s, closed, |chain|);
    }
  }

  // ---- the rule is needed ----

  ghost function Last(r: Run): (s: System)
    requires IsRun(r)
  {
    r.states[|r.states| - 1]
  }

  lemma Extend(r: Run, e: Event) returns (q: Run)
    requires IsRun(r) && InRange(Last(r)) && Enabled(Last(r), e)
    ensures IsRun(q) && q.states[|q.states| - 1] == Apply(Last(r), e)
  {
    q := Run(r.states + [Apply(Last(r), e)], r.events + [e]);
  }

  /** One fiber on one worker, and one notifier. */
  function Small(): (s: System) {
    System(false, 0, {}, None, None, [None], 0, [], [Fiber(Out, Running, 0, None, 0)], [Notifier(Idle, 0, false)],
        [], 0)
  }

  /** A notifier that changes the predicate without ever holding the wait mutex can notify a fiber
      between its look at the predicate and its suspension: the call returns, the predicate is true,
      and the fiber sleeps. */
  lemma SkippingTheMutexLosesAWakeup() returns (r: Run)
    ensures IsRun(r)
    ensures
      var s := Last(r);
      && |s.notifiers| == 1 && s.notifiers[0].pc.Notified? && !s.notifiers[0].ruled
      && |s.fibers| == 1 && s.fibers[0].state.Yielded? && s.fibers[0].seen < s.notifiers[0].change
      && s.predicateHolds
  {
    hide IsRun;
    r := Ignored();
    r := Extend(r, Step(0));
    r := Extend(r, Step(0));
    r := Extend(r, Step(0));
  }

  /** The notification came too early, while the fiber was still running. */
  lemma Ignored() returns (r: Run)
    ensures IsRun(r)
    ensures Last(r) == Small().(
                         predicateHolds := true, changes := 1, unlocked := {1},
                         m := Some(F(0)), numWaiting := 1, list := [0],
                         fibers := [Fiber(WantWork, Running, 0, None, 0)], notifiers := [Notifier(Notified, 1, false)])
  {
    hide IsRun;
    r := Unlocked();
    r := Extend(r, NotifyStep(0));
    r := Extend(r, NotifyStep(0));
    r := Extend(r, NotifyStep(0));
  }

  lemma Unlocked() returns (r: Run)
    ensures IsRun(r)
    ensures Last(r) == Small().(
                         predicateHolds := true, changes := 1, unlocked := {1},
                         m := Some(F(0)), numWaiting := 1, list := [0],
                         fibers := [Fiber(WantWork, Running, 0, None, 0)], notifiers := [Notifier(WantC, 1, false)])
  {
    hide IsRun;
    r := Undecided();
    r := Extend(r, Change(0, true));
    r := Extend(r, SkipLock(0));
    r := Extend(r, StartNotify(0));
  }

  /** The fiber has found the predicate false and is about to lock the work mutex. */
  lemma Undecided() returns (r: Run)
    ensures IsRun(r)
    ensures Last(r) == Small().(m := Some(F(0)), numWaiting := 1, list := [0],
                                fibers := [Fiber(WantWork, Running, 0, None, 0)])
  {
    hide IsRun;
    r := Entering();
    r := Extend(r, Step(0));
    r := Extend(r, Step(0));
    r := Extend(r, Step(0));
    r := Extend(r, Step(0));
  }

  lemma Entering() returns (r: Run)
    ensures IsRun(r)
    ensures Last(r) == Small().(m := Some(F(0)), fibers := [Fiber(Entry, Running, 0, None, 0)])
  {
    r := Run([Small()], []);
    r := Extend(r, Acquire(F(0)));
    r := Extend(r, StartWait(0, None));
  }
}

/** That a wait ends when it should, and what the steps of the handshake did, over every run. */
module HandshakeProgress {
  import opened Common
  import opened Handshake
  import opened HandshakeSafety
  import opened HandshakeTheorems

  // ---- a fiber waits only for a predicate that was false ----

  /** Inside `wait()`, between a look at the predicate and the next one. */
  predicate BetweenLooks(p: FiberPc) {
    p.CountIn? || p.WantList? || p.WantWork? || p.HasWork? || p.Parking? || p.Parked?
  }

  /** The fiber has found the predicate false, and a suspended fiber can time out exactly if its wait
      has a deadline. */
  predicate Honest(s: System, x: Fiber) {
    && (BetweenLooks(x.pc) && x.seen == s.changes ==> !s.predicateHolds)
    && (x.pc.Parked? && !x.state.Queued? ==> (x.state.Waiting? <==> x.deadline.Some?))
  }

  ghost predicate AllHonest(s: System) {
    forall f :: 0 <= f < |s.fibers| ==> Honest(s, s.fibers[f])
  }

  lemma StepHonest(s: System, e: Event)
    requires Inv(s) && InRange(s) && Enabled(s, e) && AllHonest(s)
    ensures AllHonest(Apply(s, e))
  {
    hide Inv, InRange, NextList, NextCount, NextWork, NextM, Honest, Enabled, Apply;
    var r := Apply(s, e);
    forall f | 0 <= f < |r.fibers| ensures Honest(r, r.fibers[f]) {
      SameFibers(s, e);
      FiberFacts(s, f);
      if e == Step(f) {
        OwnHonest(s, f);
      } else {
        OtherHonest(s, e, f);
      }
    }
  }

  lemma SameFibers(s: System, e: Event)
    requires InRange(s) && Enabled(s, e)
    ensures |Apply(s, e).fibers| == |s.fibers|
  {
    hide NextFiber, NextList, NextCount, NextWork, NextM;
  }

  lemma OwnHonest(s: System, f: FiberId)
    requires InRange(s) && Enabled(s, Step(f)) && Honest(s, s.fibers[f])
    ensures f < |Apply(s, Step(f)).fibers| && Honest(Apply(s, Step(f)), Apply(s, Step(f)).fibers[f])
  {
    hide NextList, NextCount, NextWork, NextM;
  }

  /** Steps of others change a fiber only by notifying it, by its timeout, or by starting its wait. */
  lemma OtherHonest(s: System, e: Event, f: FiberId)
    requires InRange(s) && Enabled(s, e) && e != Step(f) && f < |s.fibers| && s.fibers[f].seen <= s.changes
    requires Honest(s, s.fibers[f])
    ensures f < |Apply(s, e).fibers| && Honest(Apply(s, e), Apply(s, e).fibers[f])
  {
    hide InRange, Enabled, Apply, Honest;
    if e.NotifyStep? {
      NotifyHonest(s, e, f);
    } else if e.ThreadLocks? || e.ThreadUnlocks? || e.Step? || e.Acquire? || e.Release? {
      LockHonest(s, e, f);
    } else {
      EventHonest(s, e, f);
    }
  }

  lemma NotifyHonest(s: System, e: Event, f: FiberId)
    requires InRange(s) && Enabled(s, e) && e != Step(f) && f < |s.fibers| && s.fibers[f].seen <= s.changes
    requires Honest(s, s.fibers[f])
    requires e.NotifyStep?
    ensures f < |Apply(s, e).fibers| && Honest(Apply(s, e), Apply(s, e).fibers[f])
  {
    hide FiberStep, LockStep, UnlockStep;
  }

  lemma LockHonest(s: System, e: Event, f: FiberId)
    requires InRange(s) && Enabled(s, e) && e != Step(f) && f < |s.fibers| && s.fibers[f].seen <= s.changes
    requires Honest(s, s.fibers[f])
    requires e.ThreadLocks? || e.ThreadUnlocks? || e.Step? || e.Acquire? || e.Release?
    ensures f < |Apply(s, e).fibers| && Honest(Apply(s, e), Apply(s, e).fibers[f])
  {
    hide NextFiber, NextList, NextCount, NextWork, NextM, NotifierStep, CanNotifyStep, MayWant;
  }

  lemma EventHonest(s: System, e: Event, f: FiberId)
    requires InRange(s) && Enabled(s, e) && e != Step(f) && f < |s.fibers| && s.fibers[f].seen <= s.changes
    requires Honest(s, s.fibers[f])
    requires !(e.NotifyStep? || e.ThreadLocks? || e.ThreadUnlocks? || e.Step? || e.Acquire? || e.Release?)
    ensures f < |Apply(s, e).fibers| && Honest(Apply(s, e), Apply(s, e).fibers[f])
  {
    hide FiberStep, LockStep, UnlockStep, NotifierStep, CanLock, CanUnlock, CanStep, CanNotifyStep, MayWant;
  }

  lemma {:induction false} RunHonest(r: Run, i: nat)
    requires IsRun(r) && i < |r.states|
    ensures AllHonest(r.states[i])
  {
    hide Inv, Apply, Enabled, InRange, AllHonest;
    if i == 0 {
      InitHonest(r.states[0]);
    } else {
      RunHonest(r, i - 1);
      RunInv(r, i - 1);
      assert StepsTo(r.states[i - 1], r.events[i - 1], r.states[i]);
      StepHonest(r.states[i - 1], r.events[i - 1]);
    }
  }

  lemma InitHonest(s: System)
    requires Init(s)
    ensures AllHonest(s)
  {
  }

  /** A fiber that is going to suspend or is suspended, and has seen all changes, waits for a predicate
      that is false: `wait()` never suspends on a predicate that it finds true. */
  lemma WaitsOnlyWhileFalse(r: Run, i: nat, f: FiberId)
    requires IsRun(r) && i < |r.states| && f < |r.states[i].fibers|
    requires BetweenLooks(r.states[i].fibers[f].pc) && r.states[i].fibers[f].seen == r.states[i].changes
    ensures !r.states[i].predicateHolds
  {
    hide IsRun;
    RunHonest(r, i);
    assert Honest(r.states[i], r.states[i].fibers[f]);
  }

  // ---- a wait returns ----

  /** `t` is where `n` steps of fiber `f` lead to from `s`, without a step of anyone else. */
  ghost predicate OwnSteps(s: System, f: FiberId, n: nat, t: System)
    decreases n
  {
    if n == 0 then s == t
    else InRange(s) && Enabled(s, Step(f)) && OwnSteps(Apply(s, Step(f)), f, n - 1, t)
  }

  predicate DeadlinePassed(x: Fiber, now: int) {
    x.deadline.Some? && x.deadline.value <= now
  }

  /** Where a fiber can be once it has been resumed, or when it is about to look at the predicate. */
  predicate OnItsWay(s: System, f: FiberId) {
    && f < |s.fibers|
    && var x := s.fibers[f];
       || x.pc.WantErase?
       || (x.pc.Test? && s.predicateHolds)
       || (x.pc.CheckTime? && (s.predicateHolds || DeadlinePassed(x, s.now)))
       || (x.pc.WantLock? && s.m.None? && (s.predicateHolds || DeadlinePassed(x, s.now)))
  }

  /** What `wait()` is going to return. */
  function Outcome(s: System, f: FiberId): (ok: bool)
    requires OnItsWay(s, f)
  {
    match s.fibers[f].pc
    case WantErase(ok) => ok
    case Test => true
    case _ => !DeadlinePassed(s.fibers[f], s.now)
  }

  function StepsLeft(p: FiberPc): (n: nat) {
    match p
    case WantLock => 4
    case CheckTime => 3
    case Test => 2
    case _ => 1
  }

  lemma OnItsWayStep(s: System, f: FiberId)
    requires InRange(s) && s.c.None? && OnItsWay(s, f) && !s.fibers[f].pc.WantErase?
    ensures
      var r := Apply(s, Step(f));
      && Enabled(s, Step(f)) && InRange(r) && r.c.None? && OnItsWay(r, f) && Outcome(r, f) == Outcome(s, f)
      && StepsLeft(r.fibers[f].pc) < StepsLeft(s.fibers[f].pc)
      && r.changes == s.changes && r.predicateHolds == s.predicateHolds && r.now == s.now
  {
    hide RemoveOne;
  }

  /** A fiber on its way leaves `wait()` by its own steps, if no one else takes the locks: with true
      if the predicate holds, and with false if the deadline had passed when it was resumed. */
  lemma {:induction false} LeavesWait(s: System, f: FiberId) returns (n: nat, t: System)
    requires InRange(s) && s.c.None? && OnItsWay(s, f)
    ensures OwnSteps(s, f, n, t) && f < |t.fibers| && t.fibers[f].pc == CountOut(Outcome(s, f))
    decreases StepsLeft(s.fibers[f].pc)
  {
    hide Apply, Enabled, InRange;
    if s.fibers[f].pc.WantErase? {
      Erases(s, f);
      n, t := 1, Apply(s, Step(f));
    } else {
      OnItsWayStep(s, f);
      n, t := LeavesWait(Apply(s, Step(f)), f);
      n := n + 1;
    }
  }

  lemma Erases(s: System, f: FiberId)
    requires InRange(s) && s.c.None? && f < |s.fibers| && s.fibers[f].pc.WantErase?
    ensures
      var r := Apply(s, Step(f));
      && Enabled(s, Step(f)) && f < |r.fibers| && r.fibers[f].pc == CountOut(s.fibers[f].pc.ok)
      && OwnSteps(s, f, 1, r)
  {
    hide RemoveOne;
    assert OwnSteps(Apply(s, Step(f)), f, 0, Apply(s, Step(f)));
  }

  /** A suspended fiber that has been notified, or whose timeout has been processed, is resumed and
      leaves `wait()` by its own steps if the predicate holds or its deadline has passed. */
  lemma ResumedReturns(r: Run, i: nat, f: FiberId) returns (n: nat, t: System)
    requires IsRun(r) && i < |r.states| && f < |r.states[i].fibers| && r.states[i].fibers[f].pc.Parked?
    requires
      var s := r.states[i];
      && s.fibers[f].state.Queued? && InRange(s) && WorkOf(s, f).None? && s.m.None? && s.c.None?
      && (s.predicateHolds || DeadlinePassed(s.fibers[f], s.now))
    ensures OwnSteps(r.states[i], f, n, t) && f < |t.fibers|
    ensures t.fibers[f].pc == CountOut(!DeadlinePassed(r.states[i].fibers[f], r.states[i].now))
  {
    hide OwnSteps;
    var s := r.states[i];
    Resumes(s, f);
    n, t := LeavesWait(Apply(s, Step(f)), f);
    OneMore(s, f, n, t);
    n := n + 1;
  }

  lemma Resumes(s: System, f: FiberId)
    requires InRange(s) && f < |s.fibers| && s.fibers[f].pc.Parked? && s.fibers[f].state.Queued? && WorkOf(s, f).None?
    requires s.m.None? && s.c.None? && (s.predicateHolds || DeadlinePassed(s.fibers[f], s.now))
    ensures
      var r := Apply(s, Step(f));
      && Enabled(s, Step(f)) && InRange(r) && r.c.None? && OnItsWay(r, f)
      && Outcome(r, f) == !DeadlinePassed(s.fibers[f], s.now)
  {
    hide RemoveOne;
  }

  lemma OneMore(s: System, f: FiberId, n: nat, t: System)
    requires InRange(s) && Enabled(s, Step(f)) && OwnSteps(Apply(s, Step(f)), f, n, t)
    ensures OwnSteps(s, f, n + 1, t)
  {
    hide Apply, Enabled, InRange;
  }

  /** A suspended fiber with a deadline can be made ready by its timeout once the clock has reached it. */
  lemma CanTimeOut(r: Run, i: nat, f: FiberId, time: int)
    requires IsRun(r) && i < |r.states| && InRange(r.states[i]) && f < |r.states[i].fibers|
    requires
      var s := r.states[i];
      && s.fibers[f].pc.Parked? && !s.fibers[f].state.Queued? && WorkOf(s, f).None?
      && s.fibers[f].deadline.Some? && s.fibers[f].deadline.value <= time && s.now <= time
    ensures
      var s := r.states[i];
      && Enabled(s, Tick(time))
      && var t := Apply(s, Tick(time));
      && InRange(t) && Enabled(t, TimeOut(f)) && Apply(t, TimeOut(f)).fibers[f].state.Queued?
  {
    hide IsRun;
    RunHonest(r, i);
    RunInv(r, i);
    FiberFacts(r.states[i], f);
    assert Honest(r.states[i], r.states[i].fibers[f]);
  }

  // ---- a wait on a false predicate suspends ----

  /** How many steps a fiber that finds the predicate false makes until it is suspended. */
  function StepsToPark(p: FiberPc): (n: nat) {
    match p
    case Entry => 7
    case CountIn => 6
    case WantList => 5
    case Test => 4
    case WantWork => 3
    case HasWork => 2
    case Parking => 1
    case _ => 0
  }

  /** The fiber holds what it needs, and the locks that it still has to take are free. */
  predicate Parks(s: System, f: FiberId)
    requires InRange(s)
  {
    && f < |s.fibers| && !s.predicateHolds && StepsToPark(s.fibers[f].pc) > 0
    && (if s.fibers[f].pc.Parking? then s.m.None? else s.m == Some(F(f)))
    && (StepsToPark(s.fibers[f].pc) > 4 ==> s.c.None?)
    && (if HoldsWork(s.fibers[f].pc) then WorkOf(s, f) == Some(F(f)) else WorkOf(s, f).None?)
  }

  predicate IsParked(s: System, f: FiberId)
    requires InRange(s)
  {
    && f < |s.fibers| && s.fibers[f].pc.Parked? && s.m.None? && WorkOf(s, f).None?
    && s.fibers[f].state == if s.fibers[f].deadline.Some? then Waiting else Yielded
  }

  lemma ParksStep(s: System, f: FiberId)
    requires InRange(s) && Parks(s, f)
    ensures
      var r := Apply(s, Step(f));
      && Enabled(s, Step(f)) && InRange(r) && f < |r.fibers|
      && (if s.fibers[f].pc.Parking? then IsParked(r, f)
          else Parks(r, f) && StepsToPark(r.fibers[f].pc) < StepsToPark(s.fibers[f].pc))
  {
    hide RemoveOne;
  }

  /** A fiber that enters `wait()` while the predicate is false is suspended by its own steps, if no one
      else takes the locks and the predicate does not change: it gives up the wait mutex, and waits
      with a timeout exactly if it has a deadline. */
  lemma {:induction false} SuspendsIfFalse(s: System, f: FiberId) returns (n: nat, t: System)
    requires InRange(s) && Parks(s, f)
    ensures OwnSteps(s, f, n, t) && InRange(t) && IsParked(t, f)
    decreases StepsToPark(s.fibers[f].pc)
  {
    hide Apply, Enabled, InRange, IsParked;
    ParksStep(s, f);
    var r := Apply(s, Step(f));
    if s.fibers[f].pc.Parking? {
      n, t := 0, r;
    } else {
      n, t := SuspendsIfFalse(r, f);
    }
    OneMore(s, f, n, t);
    n := n + 1;
  }

  // ---- notify_all() returns ----

  ghost predicate NotifySteps(s: System, k: nat, n: nat, t: System)
    decreases n
  {
    if n == 0 then s == t
    else InRange(s) && Enabled(s, NotifyStep(k)) && NotifySteps(Apply(s, NotifyStep(k)), k, n - 1, t)
  }

  /** The notifier is inside `notify_all()`, and the mutexes that it needs are free. */
  predicate Notifying(s: System, k: nat) {
    && k < |s.notifiers| && (forall i :: 0 <= i < |s.work| ==> s.work[i].None?)
    && ((s.notifiers[k].pc.WantC? && s.c.None?) || (s.notifiers[k].pc.Iterating? && s.notifiers[k].pc.next <= |s.list|))
  }

  function NotifiesLeft(s: System, k: nat): (n: nat)
    requires Notifying(s, k)
  {
    match s.notifiers[k].pc
    case Iterating(i) => |s.list| - i
    case _ => |s.list| + 1
  }

  lemma NotifyingStep(s: System, k: nat)
    requires InRange(s) && Notifying(s, k)
    ensures
      var r := Apply(s, NotifyStep(k));
      && Enabled(s, NotifyStep(k)) && InRange(r) && k < |r.notifiers|
      && (r.notifiers[k].pc.Notified? || (Notifying(r, k) && NotifiesLeft(r, k) < NotifiesLeft(s, k)))
  {
  }

  /** `notify_all()` returns by the notifier's own steps, if no one else takes the locks. */
  lemma {:induction false} NotifyAllReturns(s: System, k: nat) returns (n: nat, t: System)
    requires InRange(s) && Notifying(s, k)
    ensures NotifySteps(s, k, n, t) && k < |t.notifiers| && t.notifiers[k].pc.Notified?
    decreases NotifiesLeft(s, k)
  {
    hide Apply, Enabled, InRange, Notifying;
    NotifyingStep(s, k);
    var r := Apply(s, NotifyStep(k));
    if r.notifiers[k].pc.Notified? {
      n, t := 0, r;
    } else {
      n, t := NotifyAllReturns(r, k);
    }
    n := n + 1;
  }

  // ---- what the steps did ----

  /** The deadline of a wait is the one it was started with. */
  lemma {:induction false} DeadlineIsKept(r: Run, j: nat, k: nat, f: FiberId)
    requires IsRun(r) && j < k < |r.states| && r.events[j].StartWait? && r.events[j].fiber == f
    requires forall i :: j < i < k ==> f < |r.states[i].fibers| && !r.states[i].fibers[f].pc.Out?
    ensures f < |r.states[k].fibers| && r.states[k].fibers[f].deadline == r.events[j].deadline
    decreases k
  {
    hide Apply, Enabled, InRange;
    assert StepsTo(r.states[k - 1], r.events[k - 1], r.states[k]);
    if j < k - 1 {
      DeadlineIsKept(r, j, k - 1, f);
      DeadlineStep(r.states[k - 1], r.events[k - 1], f);
    } else {
      DeadlineStart(r.states[j], r.events[j]);
    }
  }

  lemma DeadlineStart(s: System, e: Event)
    requires InRange(s) && Enabled(s, e) && e.StartWait?
    ensures e.fiber < |Apply(s, e).fibers| && Apply(s, e).fibers[e.fiber].deadline == e.deadline
  {
  }

  lemma DeadlineStep(s: System, e: Event, f: FiberId)
    requires InRange(s) && Enabled(s, e) && f < |s.fibers| && !s.fibers[f].pc.Out?
    ensures f < |Apply(s, e).fibers| && Apply(s, e).fibers[f].deadline == s.fibers[f].deadline
  {
    hide NextList, NextCount, NextWork, NextM;
  }

  /** The predicate is what the last change made it. */
  lemma {:induction false} PredicateIsLastChange(r: Run, j: nat, k: nat)
    requires IsRun(r) && j < k < |r.states| && r.events[j].Change? && forall i :: j < i < k ==> !r.events[i].Change?
    ensures r.states[k].predicateHolds == r.events[j].value
    decreases k
  {
    hide Apply, Enabled, InRange;
    assert StepsTo(r.states[k - 1], r.events[k - 1], r.states[k]);
    if j < k - 1 {
      PredicateIsLastChange(r, j, k - 1);
    }
    PredicateStep(r.states[k - 1], r.events[k - 1]);
  }

  lemma PredicateStep(s: System, e: Event)
    requires InRange(s) && Enabled(s, e)
    ensures Apply(s, e).predicateHolds == if e.Change? then e.value else s.predicateHolds
  {
    hide NextFiber, NextList, NextCount, NextWork, NextM;
  }
}

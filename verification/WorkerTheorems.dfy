/** The main results about one worker, each over every run of its transition system. */
module WorkerTheorems {
  import opened Common
  import opened WorkerModel
  import opened WorkerSafety

  lemma StepInv(s: Worker, e: Event)
    requires Inv(s) && Enabled(s, e)
    ensures Inv(Apply(s, e))
  {
    hide Inv, Apply, Enabled;
    match e
    case EnqueueTask(_) => OutsideInv(s, e);
    case StealOut => OutsideInv(s, e);
    case NotifyOne => OutsideInv(s, e);
    case Tick(_) => OutsideInv(s, e);
    case SetShutdown => OutsideInv(s, e);
    case EnqueueFiber(f) => NotifyInv(s, f);
    case ThreadStart => ThreadStartInv(s);
    case EnterRun => EnterRunInv(s);
    case Reawake => ReawakeInv(s);
    case TestLoop => TestLoopInv(s);
    case EnterWait => EnterWaitInv(s);
    case SpinSteal(t) => SpinStealInv(s, t);
    case SpinLock => SpinLockInv(s);
    case EnterWorkWait => EnterWorkWaitInv(s);
    case AfterWork(moved) => AfterWorkInv(s, moved);
    case RunIdle => RunIdleInv(s);
    case ResumeIdle => ResumeIdleInv(s);
    case StartSuspend(timeout) => StartSuspendInv(s, timeout);
    case SwitchOut(reused) => SwitchOutInv(s, reused);
    case ResumeSuspended => ResumeSuspendedInv(s);
    case EndJob => EndJobInv(s);
    case StopSingle => StopSingleInv(s);
    case LeaveRun => LeaveRunInv(s);
  }

  lemma {:induction false} RunInv(r: Run, k: nat)
    requires IsRun(r) && k < |r.states|
    ensures Inv(r.states[k])
  {
    hide Inv, Apply, Enabled;
    if k == 0 {
      InitInv(r.states[0]);
    } else {
      RunInv(r, k - 1);
      assert StepsTo(r.states[k - 1], r.events[k - 1], r.states[k]);
      StepInv(r.states[k - 1], r.events[k - 1]);
    }
  }

  // ---- the assertions in the code ----

  lemma SwitchAsserts(s: Worker, e: Event)
    requires Inv(s) && Enabled(s, e) && (e.RunIdle? || e.SwitchOut?)
    ensures Asserts(s, e)
  {
    hide SuspendedFibers, HandedBack;
    if s.fibers != [] {
      ReadyHead(s.pc, s.state, s.current, s.fibers, s.waiting, s.idle);
    }
  }

  lemma OtherAsserts(s: Worker, e: Event)
    requires Inv(s) && Enabled(s, e) && !e.RunIdle? && !e.SwitchOut?
    ensures Asserts(s, e)
  {
    hide SuspendedFibers, HandedBack;
  }

  /** No assertion in the worker's code fires in any run. */
  lemma NoAssertionFires(r: Run, k: nat)
    requires IsRun(r) && k < |r.events|
    ensures WellFormed(r.states[k]) && Asserts(r.states[k], r.events[k])
  {
    hide Inv, Apply, Enabled, Asserts;
    RunInv(r, k);
    var s, e := r.states[k], r.events[k];
    assert StepsTo(s, e, r.states[k + 1]);
    if e.RunIdle? || e.SwitchOut? {
      SwitchAsserts(s, e);
    } else {
      OtherAsserts(s, e);
    }
  }

  // ---- where a fiber is ----

  ghost predicate InReadyQueueOnce(s: Worker, f: FiberId) {
    exists i :: 0 <= i < |s.fibers| && s.fibers[i] == f &&
                forall j :: 0 <= j < |s.fibers| && j != i ==> s.fibers[j] != f
  }

  /** A fiber that is not current is in the one place that its state names, and in no other. */
  ghost predicate InItsPlace(s: Worker, f: FiberId)
    requires f < |s.state|
  {
    match s.state[f]
    case Queued => InReadyQueueOnce(s, f) && f !in s.waiting && f !in s.idle
    case Waiting => f !in s.fibers && f in s.waiting && f !in s.idle
    case Idle => f !in s.fibers && f !in s.waiting && f in s.idle
    case Yielded => f !in s.fibers && f !in s.waiting && f !in s.idle
    case Running => f < |s.pc| && s.pc[f].Gone? && f !in s.fibers && f !in s.waiting && f !in s.idle
  }

  /** Fiber placement in every reachable state.  A fiber other than the current one is Running only
      after it has handed the thread back to the main fiber for good. */
  lemma FiberPlacement(r: Run, k: nat, f: FiberId)
    requires IsRun(r) && k < |r.states| && f < |r.states[k].pc| && f != r.states[k].current
    ensures |r.states[k].state| == |r.states[k].pc| && InItsPlace(r.states[k], f)
  {
    hide IsRun, Placed, HandedBack, SuspendedFibers, SleepsSafely, WorkFound;
    RunInv(r, k);
    PlacedInItsPlace(r.states[k], f);
  }

  lemma PlacedInItsPlace(s: Worker, f: FiberId)
    requires Placement(s) && f < |s.pc| && f != s.current && (HandedBack(s.pc) ==> s.current == MAIN)
    ensures |s.state| == |s.pc| && InItsPlace(s, f)
  {
    hide HandedBack, InReadyQueueOnce, NoDuplicates;
    if s.state[f].Queued? {
      QueuedOnce(s, f);
    }
  }

  lemma QueuedOnce(s: Worker, f: FiberId)
    requires NoDuplicates(s.fibers) && f in s.fibers
    ensures InReadyQueueOnce(s, f)
  {
    var i :| 0 <= i < |s.fibers| && s.fibers[i] == f;
    assert forall j :: 0 <= j < |s.fibers| && j != i ==> s.fibers[j] != f;
  }

  /** `work.num` is exact in every state, and `numBlockedFibers` counts the non-current fibers
      parked inside `suspend()` whenever the mutex is free. */
  lemma CountersExact(r: Run, k: nat)
    requires IsRun(r) && k < |r.states|
    ensures
      var s := r.states[k];
      && s.num == |s.fibers| + |s.tasks|
      && (!s.locked ==> s.numBlocked == |set f | 0 <= f < |s.pc| && f != s.current && s.pc[f].Suspended?|)
  {
    hide IsRun, Apply, Enabled, HandedBack;
    RunInv(r, k);
    var s := r.states[k];
    if !s.locked {
      assert SuspendedFibers(s.pc) == set f | 0 <= f < |s.pc| && f != s.current && s.pc[f].Suspended?;
    }
  }

  // ---- draining ----

  /** `runUntilShutdown()` has just returned on the current fiber. */
  ghost predicate LoopReturned(s: Worker, s': Worker) {
    && WellFormed(s) && At(s).LoopHead?
    && WellFormed(s') && s'.current == s.current && (At(s').Exit? || At(s').Finished?)
  }

  /** When `runUntilShutdown()` returns, the worker has no queued task, no ready fiber, no waiting
      fiber and no fiber inside a job; and if a worker fiber made the exit, the switch to the main
      fiber resumes it where it parked idle. */
  lemma Drains(r: Run, k: nat)
    requires IsRun(r) && k < |r.events| && LoopReturned(r.states[k], r.states[k + 1])
    ensures
      var s := r.states[k + 1];
      && s.shutdown && s.tasks == [] && s.fibers == [] && s.waiting == map[]
      && (forall f :: 0 <= f < |s.pc| ==> JobOf(s.pc[f]).None?)
      && (s.current != MAIN ==> s.pc[MAIN].IdleParked? && s.state[MAIN].Idle?)
  {
    hide Apply, Enabled, HandedBack;
    RunInv(r, k);
    RunInv(r, k + 1);
    var s := r.states[k + 1];
    LoopExit(r, k);
    forall f | 0 <= f < |s.pc| ensures JobOf(s.pc[f]).None? {
      assert s.pc[f].Suspended? ==> f in SuspendedFibers(s.pc);
    }
    assert forall f :: f in s.waiting ==> InSuspend(s.pc[f]);
    if s.current != MAIN {
      MainIsIdle(s);
    }
  }

  lemma LoopExit(r: Run, k: nat)
    requires IsRun(r) && k < |r.events| && LoopReturned(r.states[k], r.states[k + 1]) && Inv(r.states[k])
    ensures
      var s := r.states[k + 1];
      s.shutdown && s.num == 0 && s.numBlocked == 0 && (s.current != MAIN ==> At(s).Exit?)
  {
    hide Placed, SuspendedFibers, HandedBack;
    assert StepsTo(r.states[k], r.events[k], r.states[k + 1]);
  }

  // ---- sleeping ----

  /** While the worker thread is parked in `Work::wait()`: enqueuers are told to notify it; if it
      has not been signalled although there is work, some enqueuer still owes a `notify_one()`;
      and it wakes by itself no later than the earliest timeout that is left. */
  lemma NeverSleepsThroughWork(r: Run, k: nat)
    requires IsRun(r) && k < |r.states| && WellFormed(r.states[k]) && Parked(At(r.states[k]))
    ensures
      var s := r.states[k];
      && s.notifyAdded
      && (s.asleep && s.num > 0 ==> s.owed > 0 && Enabled(s, NotifyOne))
      && (forall f :: f in s.waiting ==> At(s).deadline.Some? && At(s).deadline.value <= s.waiting[f])
  {
    hide IsRun, Apply, Placed, SuspendedFibers, HandedBack;
    RunInv(r, k);
  }

  /** `suspend()` switches away only to do something: when `waitForWork()` returns to it there is a
      task or a ready fiber, unless the worker shuts down with nothing else blocked. */
  lemma SuspendFindsWork(r: Run, k: nat)
    requires IsRun(r) && k < |r.states| && WellFormed(r.states[k]) && At(r.states[k]).SuspendSwitch?
    ensures
      var s := r.states[k];
      s.tasks != [] || s.fibers != [] || (s.shutdown && s.numBlocked == 0)
  {
    hide IsRun, Apply, Enabled, Placed, SuspendedFibers, HandedBack;
    RunInv(r, k);
  }

  // ---- notify() ----

  /** A fiber that has been notified is in the ready queue unless it runs, and its worker is not left
      asleep: if the thread is parked and has not been signalled, a `notify_one()` is still owed. */
  lemma NotifiedIsServed(r: Run, k: nat, f: FiberId)
    requires IsRun(r) && k < |r.events| && r.events[k] == EnqueueFiber(f)
    ensures
      var s := r.states[k + 1];
      && WellFormed(s) && f < |s.state| && (s.state[f].Running? || f in s.fibers)
      && (Parked(At(s)) && s.asleep ==> s.owed > 0 || s.state[f].Running?)
  {
    hide Placed, SuspendedFibers, HandedBack;
    RunInv(r, k);
    RunInv(r, k + 1);
    assert StepsTo(r.states[k], r.events[k], r.states[k + 1]);
    NotifiedIsQueued(r.states[k], f);
  }

  lemma NotifiedIsQueued(s: Worker, f: FiberId)
    requires Inv(s) && Enabled(s, EnqueueFiber(f))
    ensures
      var t := EnqueueFiberAction(s, f);
      t.state[f].Running? || f in t.fibers
  {
    hide HandedBack, SuspendedFibers, SleepsSafely, WorkFound, Ending;
    var t := EnqueueFiberAction(s, f);
    if !s.state[f].Running? && !s.state[f].Queued? {
      assert t.fibers[|s.fibers|] == f;
    }
  }

  /** `Fiber::notify()` on any fiber keeps fiber placement exactly when the fiber is not idle; a
      notification of an idle fiber queues it while it is still in the idle set. */
  lemma NotifyPlacementExact(s: Worker, f: FiberId)
    requires Inv(s) && !s.locked && f < |s.pc|
    ensures Placement(EnqueueFiberAction(s, f)) <==> !s.state[f].Idle?
    ensures !s.state[f].Idle? ==> Inv(EnqueueFiberAction(s, f))
    ensures s.state[f].Idle? ==> f in EnqueueFiberAction(s, f).fibers && f in EnqueueFiberAction(s, f).idle
  {
    if s.state[f].Idle? {
      IdleIsNotCurrent(s, f);
      NotifyIdle(s, f);
    } else {
      hide Placed, SuspendedFibers, ThreadOk;
      EnqueueFiberInv(s, f);
    }
  }

  lemma NotifyIdle(s: Worker, f: FiberId)
    requires WellFormed(s) && Placement(s) && f < |s.pc| && s.state[f].Idle? && f != s.current
    ensures var r := EnqueueFiberAction(s, f); !Placement(r) && f in r.fibers && f in r.idle
  {
    hide HandedBack;
    var r := EnqueueFiberAction(s, f);
    assert r.pc[f].IdleParked? && r.state[f].Queued?;
    assert r.fibers[|s.fibers|] == f;
  }

  lemma IdleIsNotCurrent(s: Worker, f: FiberId)
    requires Inv(s) && !s.locked && f < |s.pc| && s.state[f].Idle?
    ensures f != s.current
  {
    hide HandedBack, SuspendedFibers, SleepsSafely, WorkFound, Ending;
  }

  // ---- the mutex across fiber switches ----

  /** A fiber switch happens with `work.mutex` held, and the fiber that is switched to continues
      with it held: at the return of `suspend()` or `runUntilIdle()`, or at the entry of `run()`. */
  lemma SwitchHoldsMutex(r: Run, k: nat)
    requires IsRun(r) && k < |r.events| && r.states[k].current != r.states[k + 1].current
    ensures
      var s, s' := r.states[k], r.states[k + 1];
      s.locked && s'.locked && WellFormed(s') && ResumePoint(At(s'))
  {
    hide Placed, SuspendedFibers, HandedBack;
    RunInv(r, k);
    assert StepsTo(r.states[k], r.events[k], r.states[k + 1]);
    SwitchTarget(r.states[k], r.events[k]);
  }

  predicate ResumePoint(p: Pc) {
    p.Suspended? || p.IdleParked? || p.RunEntry?
  }

  lemma RunIdleTarget(s: Worker)
    requires Inv(s) && Enabled(s, RunIdle) && s.fibers != []
    ensures WellFormed(Apply(s, RunIdle)) && At(Apply(s, RunIdle)).Suspended?
  {
    hide Placed, SuspendedFibers, HandedBack;
    ReadyHead(s.pc, s.state, s.current, s.fibers, s.waiting, s.idle);
  }

  lemma SwitchOutTarget(s: Worker, reused: FiberId)
    requires Inv(s) && Enabled(s, SwitchOut(reused))
    ensures WellFormed(Apply(s, SwitchOut(reused))) && ResumePoint(At(Apply(s, SwitchOut(reused))))
  {
    hide Placed, SuspendedFibers, HandedBack;
    if s.fibers != [] {
      ReadyHead(s.pc, s.state, s.current, s.fibers, s.waiting, s.idle);
    } else if s.idle != {} {
      SwitchIdlePlaced(s.pc, s.state, s.current, s.fibers, s.waiting, s.idle, At(s).job, reused);
    }
  }

  lemma OthersStay(s: Worker, e: Event)
    requires WellFormed(s) && Enabled(s, e) && !e.RunIdle? && !e.SwitchOut? && !e.LeaveRun?
    ensures Apply(s, e).current == s.current
  {
    hide Apply, Enabled;
    if e.EnterRun? || e.Reawake? || e.TestLoop? || e.EnterWait? || e.EnterWorkWait? || e.AfterWork? {
      LoopStays(s, e);
    } else {
      JobStays(s, e);
    }
  }

  lemma LoopStays(s: Worker, e: Event)
    requires WellFormed(s) && Enabled(s, e)
    requires e.EnterRun? || e.Reawake? || e.TestLoop? || e.EnterWait? || e.EnterWorkWait? || e.AfterWork?
    ensures Apply(s, e).current == s.current
  {
    hide QueueAll, RemoveAll, ExpiredOrder, NextDeadline, JobOf, ReturnTo, WakeCondition, StartCondition, WorkCondition;
  }

  lemma JobStays(s: Worker, e: Event)
    requires WellFormed(s) && Enabled(s, e) && !e.RunIdle? && !e.SwitchOut? && !e.LeaveRun?
    requires !e.EnterRun? && !e.Reawake? && !e.TestLoop? && !e.EnterWait? && !e.EnterWorkWait? && !e.AfterWork?
    ensures Apply(s, e).current == s.current
  {
    hide JobOf;
  }

  lemma LeaveRunTarget(s: Worker)
    requires Inv(s) && Enabled(s, LeaveRun) && s.current != MAIN
    ensures var s' := Apply(s, LeaveRun); s.locked && s'.locked && WellFormed(s') && ResumePoint(At(s'))
  {
    hide Placed, SuspendedFibers, HandedBack, SleepsSafely, WorkFound;
    MainIsIdle(s);
  }

  lemma SwitchTarget(s: Worker, e: Event)
    requires Inv(s) && Enabled(s, e) && Apply(s, e).current != s.current
    ensures
      var s' := Apply(s, e);
      s.locked && s'.locked && WellFormed(s') && ResumePoint(At(s'))
  {
    hide Placed, SuspendedFibers, HandedBack, ThreadOk;
    if e.RunIdle? {
      RunIdleTarget(s);
    } else if e.SwitchOut? {
      SwitchOutTarget(s, e.reused);
    } else if e.LeaveRun? {
      LeaveRunTarget(s);
    } else {
      hide Apply, Enabled;
      OthersStay(s, e);
    }
  }

  /** A bound on the steps that the worker thread can still make before it releases the mutex. */
  function Rank(s: Worker): (n: nat)
    requires WellFormed(s)
  {
    var drained := s.shutdown && s.num == 0 && s.numBlocked == 0;
    match At(s)
    case WaitEntry(FromSuspend(_)) => 43
    case WorkWait(FromSuspend(_)) => 42
    case Woken(FromSuspend(_)) => 41
    case SuspendSwitch(_) => 40
    case RunEntry => 36
    case WaitEntry(FromLoop) => if s.num > 0 then 4 else 31
    case WorkWait(FromLoop) => 30
    case Woken(FromLoop) => 29
    case IdleParked => 1 + IdleRank(s, drained)
    case IdleHead => IdleRank(s, drained)
    case LoopHead => IdleRank(s, drained) - 1 + if s.num > 0 then 3 else 0
    case Exit => if s.current == MAIN then 7 else 11
    case _ => 1
  }

  function IdleRank(s: Worker, drained: bool): (n: nat)
    ensures n >= 1
  {
    if s.num > 0 then 3 else if !drained then 33 else if s.current == MAIN then 9 else 13
  }

  /** The events of the thread that holds the mutex. */
  predicate ByHolder(e: Event) {
    match e
    case EnterRun | TestLoop | EnterWait | EnterWorkWait | AfterWork(_) | RunIdle | ResumeIdle | SwitchOut(_)
      | ResumeSuspended | LeaveRun => true
    case _ => false
  }

  /** The step releases the mutex or brings its release closer. */
  ghost predicate NearsRelease(s: Worker, e: Event)
    requires WellFormed(s) && Enabled(s, e)
  {
    var r := Apply(s, e);
    WellFormed(r) && (r.locked ==> Rank(r) < Rank(s))
  }

  lemma LoopNearsRelease(s: Worker, e: Event)
    requires Inv(s) && s.locked && Enabled(s, e)
    requires e.EnterRun? || e.TestLoop?
    ensures NearsRelease(s, e)
  {
    hide Placed, SuspendedFibers, HandedBack, SleepsSafely, WorkFound, NextDeadline, ExpiredOrder, QueueAll, RemoveAll;
  }

  lemma ResumeNearsRelease(s: Worker, e: Event)
    requires Inv(s) && s.locked && Enabled(s, e) && (e.EnterWait? || e.ResumeIdle? || e.ResumeSuspended?)
    ensures NearsRelease(s, e)
  {
    hide Placed, SuspendedFibers, HandedBack, SleepsSafely, WorkFound, NextDeadline, ExpiredOrder, QueueAll, RemoveAll;
  }

  lemma WaitNearsRelease(s: Worker, e: Event)
    requires Inv(s) && s.locked && Enabled(s, e) && (e.EnterWorkWait? || e.AfterWork?)
    ensures NearsRelease(s, e)
  {
    hide Placed, SuspendedFibers, HandedBack, SleepsSafely;
  }

  lemma SwitchNearsRelease(s: Worker, e: Event)
    requires Inv(s) && s.locked && Enabled(s, e) && (e.RunIdle? || e.SwitchOut? || e.LeaveRun?)
    ensures NearsRelease(s, e)
  {
    hide Placed, SuspendedFibers, HandedBack, SleepsSafely, WorkFound;
    match e
    case RunIdle =>
      if s.fibers != [] {
        RunIdleTarget(s);
      }
    case SwitchOut(reused) => SwitchOutTarget(s, reused);
    case LeaveRun =>
      if s.current != MAIN {
        MainIsIdle(s);
      }
  }

  /** The worker thread cannot hold `work.mutex` forever: each of its steps releases the mutex or
      lowers `Rank`, whatever fibers it switches between on the way. */
  lemma MutexIsReleased(s: Worker, e: Event)
    requires Inv(s) && s.locked && Enabled(s, e) && ByHolder(e)
    ensures NearsRelease(s, e)
  {
    hide Inv, Enabled, NearsRelease;
    match e
    case EnterWorkWait => WaitNearsRelease(s, e);
    case AfterWork(_) => WaitNearsRelease(s, e);
    case RunIdle => SwitchNearsRelease(s, e);
    case SwitchOut(_) => SwitchNearsRelease(s, e);
    case LeaveRun => SwitchNearsRelease(s, e);
    case EnterRun => LoopNearsRelease(s, e);
    case TestLoop => LoopNearsRelease(s, e);
    case _ => ResumeNearsRelease(s, e);
  }

  lemma {:induction false} FirstExpired(w: map<FiberId, TimePoint>, keys: set<FiberId>) returns (f: FiberId)
    requires keys != {} && keys <= w.Keys
    ensures f in keys && forall g :: g in keys && g != f ==> Before(w, f, g)
    decreases keys
  {
    f :| f in keys;
    var rest := keys - {f};
    assert forall g :: g in keys ==> g == f || g in rest;
    if rest != {} {
      var h := FirstExpired(w, rest);
      if Before(w, h, f) {
        f := h;
      } else {
        assert Before(w, f, h);
      }
    }
  }

  lemma {:induction false} InTimeoutOrder(w: map<FiberId, TimePoint>, keys: set<FiberId>) returns (q: seq<FiberId>)
    requires keys <= w.Keys
    ensures forall f :: f in q <==> f in keys
    ensures forall i, j :: 0 <= i < j < |q| ==> Before(w, q[i], q[j])
    decreases keys
  {
    q := [];
    if keys != {} {
      var f := FirstExpired(w, keys);
      var rest := InTimeoutOrder(w, keys - {f});
      assert forall i :: 0 <= i < |rest| ==> rest[i] in keys - {f};
      q := [f] + rest;
    }
  }

  lemma NotGone(s: Worker)
    requires WellFormed(s) && Placement(s)
    ensures !At(s).Gone?
  {
  }

  lemma Shape(s: Worker)
    requires Inv(s)
    ensures WellFormed(s) && s.num == |s.fibers| + |s.tasks|
  {
  }

  /** The thread that holds `work.mutex` is never stuck: it can make a step. */
  lemma HolderCanStep(s: Worker) returns (e: Event)
    requires Inv(s) && s.locked
    ensures Enabled(s, e) && ByHolder(e)
  {
    hide Placed, SuspendedFibers, HandedBack, SleepsSafely, WorkFound, Ending;
    match At(s)
    case RunEntry => e := EnterRun;
    case LoopHead => e := TestLoop;
    case WaitEntry(_) => e := EnterWait;
    case WorkWait(_) => e := EnterWorkWait;
    case Woken(_) =>
      var moved := InTimeoutOrder(s.waiting, set f | f in s.waiting && s.waiting[f] <= s.now);
      e := AfterWork(moved);
    case IdleHead => e := RunIdle;
    case IdleParked => e := ResumeIdle;
    case SuspendSwitch(_) =>
      var reused :| s.idle != {} ==> reused in s.idle;
      e := SwitchOut(reused);
    case Suspended(_) => e := ResumeSuspended;
    case Exit => e := LeaveRun;
    case Gone =>
      NotGone(s);
      assert false;
  }

  /** From every reachable state in which the worker thread holds the mutex, its own next steps,
      however they switch between fibers, lead to a state in which it does not. */
  lemma {:induction false} ReleaseReached(s: Worker) returns (events: seq<Event>, last: Worker)
    requires Inv(s)
    ensures Leads(s, events, last) && Inv(last) && !last.locked
    decreases s.locked, Rank(s)
  {
    hide Inv, Enabled, Apply, Rank, NearsRelease;
    if !s.locked {
      return [], s;
    }
    Shape(s);
    var e := HolderCanStep(s);
    var r := Apply(s, e);
    StepInv(s, e);
    assert r.locked ==> Rank(r) < Rank(s) by { MutexNears(s, e); }
    var more: seq<Event>;
    more, last := ReleaseReached(r);
    events := [e] + more;
  }

  lemma MutexNears(s: Worker, e: Event)
    requires Inv(s) && s.locked && Enabled(s, e) && ByHolder(e)
    ensures WellFormed(Apply(s, e)) && (Apply(s, e).locked ==> Rank(Apply(s, e)) < Rank(s))
  {
    hide Inv, Enabled, Apply, Rank;
    MutexIsReleased(s, e);
  }

  /** Steps of the holder of the mutex that lead from `s` to `last`. */
  ghost predicate Leads(s: Worker, events: seq<Event>, last: Worker)
    decreases |events|
  {
    if events == [] then s == last
    else
      && WellFormed(s) && s.locked && Enabled(s, events[0]) && ByHolder(events[0])
      && Leads(Apply(s, events[0]), events[1..], last)
  }
}

/** That a worker gets on with its work, and what the events of a worker did, over every run. */
module WorkerProgress {
  import opened Common
  import opened WorkerModel
  import opened WorkerSafety
  import opened WorkerTheorems

  /** The events lead from `s` to `last`. */
  ghost predicate Path(s: Worker, events: seq<Event>, last: Worker)
    decreases |events|
  {
    if events == [] then s == last
    else WellFormed(s) && Enabled(s, events[0]) && Path(Apply(s, events[0]), events[1..], last)
  }

  /** An event of the worker thread itself. */
  predicate Own(e: Event) {
    match e
    case EnqueueTask(_) | EnqueueFiber(_) | StealOut | NotifyOne | Tick(_) => false
    case _ => true
  }

  ghost predicate OwnPath(s: Worker, events: seq<Event>, last: Worker) {
    Path(s, events, last) && forall i :: 0 <= i < |events| ==> Own(events[i])
  }

  lemma Prepend(s: Worker, e: Event, events: seq<Event>, last: Worker)
    requires WellFormed(s) && Enabled(s, e) && Path(Apply(s, e), events, last)
    ensures Path(s, [e] + events, last)
  {
    hide Enabled, Apply;
    assert ([e] + events)[1..] == events;
  }

  lemma PrependOwn(s: Worker, e: Event, events: seq<Event>, last: Worker)
    requires WellFormed(s) && Enabled(s, e) && Own(e) && OwnPath(Apply(s, e), events, last)
    ensures OwnPath(s, [e] + events, last)
  {
    hide Enabled, Apply, Path;
    Prepend(s, e, events, last);
  }

  predicate InLoop(e: Event) {
    e.EnterRun? || e.Reawake? || e.TestLoop? || e.EnterWait? || e.EnterWorkWait?
  }

  predicate FromOutside(e: Event) {
    e.EnqueueTask? || e.EnqueueFiber? || e.StealOut? || e.NotifyOne? || e.Tick? || e.SetShutdown?
  }

  // ---- timeouts ----

  /** A thread that is parked at the start of `run()` has no waiting fiber. */
  predicate StartsEmpty(s: Worker) {
    s.current < |s.pc| && (At(s).ParkedAtStart? ==> s.waiting == map[])
  }

  lemma StepStartsEmpty(s: Worker, e: Event)
    requires Inv(s) && Enabled(s, e) && StartsEmpty(s)
    ensures StartsEmpty(Apply(s, e))
  {
    hide Inv, Apply, Enabled;
    Shape(s);
    StepInv(s, e);
    Shape(Apply(s, e));
    if e.RunIdle? || e.SwitchOut? || e.LeaveRun? {
      SwitchStarts(s, e);
    } else {
      OtherStarts(s, e);
    }
  }

  lemma SwitchStarts(s: Worker, e: Event)
    requires Inv(s) && Enabled(s, e) && (e.RunIdle? || e.SwitchOut? || e.LeaveRun?)
    ensures WellFormed(Apply(s, e)) && !At(Apply(s, e)).ParkedAtStart?
  {
    hide Placed, SuspendedFibers, HandedBack, SleepsSafely, WorkFound;
    if Apply(s, e).current != s.current {
      SwitchTarget(s, e);
    }
  }

  lemma OtherStarts(s: Worker, e: Event)
    requires WellFormed(s) && Enabled(s, e) && !e.RunIdle? && !e.SwitchOut? && !e.LeaveRun? && StartsEmpty(s)
    ensures StartsEmpty(Apply(s, e))
  {
    hide Apply, Enabled, StartsEmpty;
    if InLoop(e) {
      LoopStarts(s, e);
    } else if FromOutside(e) {
      OutsideStarts(s, e);
    } else {
      JobStarts(s, e);
    }
  }

  lemma LoopStarts(s: Worker, e: Event)
    requires WellFormed(s) && Enabled(s, e) && InLoop(e) && StartsEmpty(s)
    ensures StartsEmpty(Apply(s, e))
  {
    hide NextDeadline, JobOf, WorkCondition;
  }

  lemma OutsideStarts(s: Worker, e: Event)
    requires WellFormed(s) && Enabled(s, e) && FromOutside(e) && StartsEmpty(s)
    ensures StartsEmpty(Apply(s, e))
  {
    hide JobOf;
  }

  lemma JobStarts(s: Worker, e: Event)
    requires WellFormed(s) && Enabled(s, e) && !InLoop(e) && !FromOutside(e)
    requires !e.RunIdle? && !e.SwitchOut? && !e.LeaveRun?
    ensures StartsEmpty(Apply(s, e))
  {
    hide QueueAll, RemoveAll, ExpiredOrder, JobOf;
  }

  lemma {:induction false} RunStartsEmpty(r: Run, k: nat)
    requires IsRun(r) && k < |r.states|
    ensures StartsEmpty(r.states[k])
  {
    hide Inv, Apply, Enabled;
    if k > 0 {
      RunStartsEmpty(r, k - 1);
      RunInv(r, k - 1);
      assert StepsTo(r.states[k - 1], r.events[k - 1], r.states[k]);
      StepStartsEmpty(r.states[k - 1], r.events[k - 1]);
    }
  }

  lemma DeadlineBefore(s: Worker, f: FiberId)
    requires Inv(s) && Parked(At(s)) && f in s.waiting
    ensures At(s).deadline.Some? && At(s).deadline.value <= s.waiting[f]
  {
    hide Placed, SuspendedFibers, HandedBack, WorkFound, Ending;
  }

  /** While the thread is parked, every waiting fiber is made ready by the thread's own next two steps
      once the clock has reached its timeout. */
  lemma TimeoutIsServed(r: Run, k: nat, f: FiberId, time: TimePoint) returns (moved: seq<FiberId>, last: Worker)
    requires IsRun(r) && k < |r.states| && WellFormed(r.states[k])
    requires
      var s := r.states[k];
      !s.locked && Parked(At(s)) && f in s.waiting && s.now <= time && s.waiting[f] <= time
    ensures Path(r.states[k], [Tick(time), Reawake, AfterWork(moved)], last) && f in last.fibers
  {
    hide IsRun, Path, Apply, Enabled, Inv;
    var s := r.states[k];
    RunInv(r, k);
    RunStartsEmpty(r, k);
    DeadlineBefore(s, f);
    var t, u := AtDeadline(s, f, time);
    moved := InTimeoutOrder(u.waiting, set g | g in u.waiting && u.waiting[g] <= u.now);
    last := Moved(u, moved, f);
    ThreeSteps(s, Tick(time), t, Reawake, u, AfterWork(moved), last);
  }

  lemma ThreeSteps(s: Worker, e: Event, t: Worker, e': Event, u: Worker, e'': Event, last: Worker)
    requires StepsTo(s, e, t) && StepsTo(t, e', u) && StepsTo(u, e'', last)
    ensures Path(s, [e, e', e''], last)
  {
    hide Apply, Enabled;
    Nowhere(last);
    Prepend(u, e'', [], last);
    assert [e''] + [] == [e''];
    Prepend(t, e', [e''], last);
    assert [e'] + [e''] == [e', e''];
    Prepend(s, e, [e', e''], last);
    assert [e] + [e', e''] == [e, e', e''];
  }

  lemma Nowhere(s: Worker)
    ensures Path(s, [], s)
  {
  }

  /** At its deadline the thread leaves `Work::wait()`. */
  lemma AtDeadline(s: Worker, f: FiberId, time: TimePoint) returns (t: Worker, u: Worker)
    requires WellFormed(s) && !s.locked && At(s).ParkedForWork? && f in s.waiting && s.waiting[f] <= time
    requires At(s).deadline.Some? && At(s).deadline.value <= s.waiting[f] && s.now <= time
    ensures StepsTo(s, Tick(time), t) && StepsTo(t, Reawake, u) && WellFormed(u) && u.locked && At(u).Woken?
    ensures u.waiting == s.waiting && u.now == time
  {
    t := Apply(s, Tick(time));
    u := Apply(t, Reawake);
  }

  lemma Moved(u: Worker, moved: seq<FiberId>, f: FiberId) returns (last: Worker)
    requires WellFormed(u) && u.locked && At(u).Woken? && ExpiredOrder(u.waiting, u.now, moved)
    requires f in u.waiting && u.waiting[f] <= u.now
    ensures StepsTo(u, AfterWork(moved), last) && f in last.fibers
  {
    hide QueueAll, RemoveAll;
    last := Apply(u, AfterWork(moved));
  }

  // ---- what suspend() did with its timeout ----

  /** Fiber `f` is suspended as `suspend(timeout)` left it. */
  predicate SuspendedAs(s: Worker, f: FiberId, timeout: Option<TimePoint>) {
    && f < |s.state| == |s.pc| && InSuspend(s.pc[f])
    && (match timeout
        case None => s.state[f].Yielded? && f !in s.waiting
        case Some(time) => s.state[f].Waiting? && f in s.waiting && s.waiting[f] == time)
  }

  /** The event makes fiber `f` ready. */
  predicate Readies(e: Event, f: FiberId) {
    match e
    case EnqueueFiber(g) => g == f
    case AfterWork(moved) => f in moved
    case _ => false
  }

  lemma SuspendStarts(s: Worker, timeout: Option<TimePoint>)
    requires Inv(s) && Enabled(s, StartSuspend(timeout))
    ensures SuspendedAs(Apply(s, StartSuspend(timeout)), s.current, timeout)
  {
    hide Placed, SuspendedFibers, HandedBack, ThreadOk;
    JobIsNotWaiting(s);
  }

  lemma JobIsNotWaiting(s: Worker)
    requires WellFormed(s) && Placement(s) && At(s).InJob?
    ensures s.current !in s.waiting
  {
    hide HandedBack;
  }

  lemma CurrentIsAwake(s: Worker, f: FiberId)
    requires Inv(s) && f < |s.state| && !s.state[f].Queued? && InSuspend(s.pc[f])
    requires At(s).InJob? || At(s).IdleHead? || At(s).IdleParked? || At(s).Suspended? || At(s).Exit?
    ensures f != s.current
  {
    hide SuspendedFibers, HandedBack, SleepsSafely, WorkFound, Ending;
  }

  lemma StaysSuspended(s: Worker, e: Event, f: FiberId, timeout: Option<TimePoint>)
    requires Inv(s) && Enabled(s, e) && SuspendedAs(s, f, timeout) && !Readies(e, f)
    ensures SuspendedAs(Apply(s, e), f, timeout)
  {
    hide Inv, Apply, Enabled;
    Shape(s);
    match e
    case RunIdle => StaysInSwitch(s, e, f, timeout);
    case SwitchOut(_) => StaysInSwitch(s, e, f, timeout);
    case LeaveRun => StaysAtExit(s, f, timeout);
    case ResumeIdle => StaysInJob(s, e, f, timeout);
    case StartSuspend(_) => StaysInJob(s, e, f, timeout);
    case ResumeSuspended => StaysInJob(s, e, f, timeout);
    case EndJob => StaysInJob(s, e, f, timeout);
    case StopSingle => StaysInJob(s, e, f, timeout);
    case AfterWork(_) => StaysInLoop(s, e, f, timeout);
    case EnqueueTask(_) => StaysOutside(s, e, f, timeout);
    case EnqueueFiber(_) => StaysOutside(s, e, f, timeout);
    case StealOut => StaysOutside(s, e, f, timeout);
    case NotifyOne => StaysOutside(s, e, f, timeout);
    case Tick(_) => StaysOutside(s, e, f, timeout);
    case SetShutdown => StaysOutside(s, e, f, timeout);
    case ThreadStart => StaysAtLoop(s, e, f, timeout);
    case EnterRun => StaysAtLoop(s, e, f, timeout);
    case Reawake => StaysAtLoop(s, e, f, timeout);
    case TestLoop => StaysAtLoop(s, e, f, timeout);
    case SpinSteal(_) => StaysInSpin(s, e, f, timeout);
    case SpinLock => StaysInSpin(s, e, f, timeout);
    case _ => StaysInWait(s, e, f, timeout);
  }

  lemma StaysInSwitch(s: Worker, e: Event, f: FiberId, timeout: Option<TimePoint>)
    requires Inv(s) && Enabled(s, e) && SuspendedAs(s, f, timeout) && (e.RunIdle? || e.SwitchOut?)
    ensures SuspendedAs(Apply(s, e), f, timeout)
  {
    hide Inv, Apply, SuspendedAs;
    Shape(s);
    if e.RunIdle? {
      AwakeAtIdle(s, f, timeout);
      StaysAtIdle(s, f, timeout);
    } else {
      StaysAtSwitch(s, e, f, timeout);
    }
  }

  lemma AwakeAtIdle(s: Worker, f: FiberId, timeout: Option<TimePoint>)
    requires Inv(s) && Enabled(s, RunIdle) && SuspendedAs(s, f, timeout)
    ensures f != s.current
  {
    hide Placed, SuspendedFibers, HandedBack, ThreadOk;
    CurrentIsAwake(s, f);
  }

  lemma StaysAtIdle(s: Worker, f: FiberId, timeout: Option<TimePoint>)
    requires WellFormed(s) && Enabled(s, RunIdle) && SuspendedAs(s, f, timeout) && f != s.current
    ensures SuspendedAs(Apply(s, RunIdle), f, timeout)
  {
  }

  lemma StaysAtSwitch(s: Worker, e: Event, f: FiberId, timeout: Option<TimePoint>)
    requires WellFormed(s) && Enabled(s, e) && SuspendedAs(s, f, timeout) && e.SwitchOut?
    ensures SuspendedAs(Apply(s, e), f, timeout)
  {
  }

  lemma StaysAtExit(s: Worker, f: FiberId, timeout: Option<TimePoint>)
    requires Inv(s) && Enabled(s, LeaveRun) && SuspendedAs(s, f, timeout)
    ensures SuspendedAs(Apply(s, LeaveRun), f, timeout)
  {
    hide Placed, SuspendedFibers, HandedBack, SleepsSafely, WorkFound, Ending;
    CurrentIsAwake(s, f);
  }

  lemma StaysInJob(s: Worker, e: Event, f: FiberId, timeout: Option<TimePoint>)
    requires Inv(s) && Enabled(s, e) && SuspendedAs(s, f, timeout)
    requires e.ResumeIdle? || e.StartSuspend? || e.ResumeSuspended? || e.EndJob? || e.StopSingle?
    ensures SuspendedAs(Apply(s, e), f, timeout)
  {
    assert f != s.current by { Shape(s); AwakeInJob(s, e, f); }
    hide Inv;
    Shape(s);
    if e.ResumeIdle? || e.StartSuspend? {
      StaysBehind(s, e, f, timeout);
    } else {
      StaysBeside(s, e, f, timeout);
    }
  }

  lemma AwakeInJob(s: Worker, e: Event, f: FiberId)
    requires Inv(s) && Enabled(s, e) && f < |s.state| && !s.state[f].Queued? && InSuspend(s.pc[f])
    requires e.ResumeIdle? || e.StartSuspend? || e.ResumeSuspended? || e.EndJob? || e.StopSingle?
    ensures f != s.current
  {
    hide Placed, SuspendedFibers, HandedBack, ThreadOk;
    CurrentIsAwake(s, f);
  }

  lemma StaysBehind(s: Worker, e: Event, f: FiberId, timeout: Option<TimePoint>)
    requires WellFormed(s) && Enabled(s, e) && SuspendedAs(s, f, timeout) && f != s.current
    requires e.ResumeIdle? || e.StartSuspend?
    ensures SuspendedAs(Apply(s, e), f, timeout)
  {
  }

  lemma StaysBeside(s: Worker, e: Event, f: FiberId, timeout: Option<TimePoint>)
    requires WellFormed(s) && Enabled(s, e) && SuspendedAs(s, f, timeout) && f != s.current
    requires e.ResumeSuspended? || e.EndJob? || e.StopSingle?
    ensures SuspendedAs(Apply(s, e), f, timeout)
  {
  }

  lemma StaysInLoop(s: Worker, e: Event, f: FiberId, timeout: Option<TimePoint>)
    requires WellFormed(s) && Enabled(s, e) && SuspendedAs(s, f, timeout) && e.AfterWork? && f !in e.moved
    ensures SuspendedAs(Apply(s, e), f, timeout)
  {
    hide ExpiredOrder;
  }

  lemma StaysOutside(s: Worker, e: Event, f: FiberId, timeout: Option<TimePoint>)
    requires WellFormed(s) && Enabled(s, e) && SuspendedAs(s, f, timeout) && !Readies(e, f)
    requires e.EnqueueTask? || e.EnqueueFiber? || e.StealOut? || e.NotifyOne? || e.Tick? || e.SetShutdown?
    ensures SuspendedAs(Apply(s, e), f, timeout)
  {
  }

  /** Only the program counter of the current fiber changes, and not out of `suspend()`. */
  lemma StaysIfMoved(s: Worker, r: Worker, f: FiberId, timeout: Option<TimePoint>)
    requires WellFormed(s) && SuspendedAs(s, f, timeout) && r.state == s.state && r.waiting == s.waiting
    requires |r.pc| == |s.pc| && r.pc == s.pc[s.current := r.pc[s.current]]
    requires InSuspend(At(s)) ==> InSuspend(r.pc[s.current])
    ensures SuspendedAs(r, f, timeout)
  {
  }

  lemma StaysAtLoop(s: Worker, e: Event, f: FiberId, timeout: Option<TimePoint>)
    requires WellFormed(s) && Enabled(s, e) && SuspendedAs(s, f, timeout)
    requires e.ThreadStart? || e.EnterRun? || e.Reawake? || e.TestLoop?
    ensures SuspendedAs(Apply(s, e), f, timeout)
  {
    hide NextDeadline, WakeCondition, StartCondition, WorkCondition, SuspendedAs;
    assert s.pc[s.current := At(s)] == s.pc;
    StaysIfMoved(s, Apply(s, e), f, timeout);
  }

  lemma StaysInWait(s: Worker, e: Event, f: FiberId, timeout: Option<TimePoint>)
    requires WellFormed(s) && Enabled(s, e) && SuspendedAs(s, f, timeout)
    requires e.EnterWait? || e.EnterWorkWait?
    ensures SuspendedAs(Apply(s, e), f, timeout)
  {
    hide NextDeadline, WakeCondition, StartCondition, WorkCondition, SuspendedAs;
    StaysIfMoved(s, Apply(s, e), f, timeout);
  }

  lemma StaysInSpin(s: Worker, e: Event, f: FiberId, timeout: Option<TimePoint>)
    requires WellFormed(s) && Enabled(s, e) && SuspendedAs(s, f, timeout) && (e.SpinSteal? || e.SpinLock?)
    ensures SuspendedAs(Apply(s, e), f, timeout)
  {
    hide NextDeadline, WakeCondition, StartCondition, WorkCondition, SuspendedAs;
    StaysIfMoved(s, Apply(s, e), f, timeout);
  }

  /** From its call of `suspend(timeout)` on, a fiber is Yielded if there is no timeout, and else
      Waiting with exactly that timeout, until a notification or its timeout makes it ready. */
  lemma {:induction false} SuspendKeepsTimeout(r: Run, j: nat, k: nat)
    requires IsRun(r) && j < k < |r.states| && r.events[j].StartSuspend?
    requires forall i :: j < i < k ==> !Readies(r.events[i], r.states[j].current)
    ensures SuspendedAs(r.states[k], r.states[j].current, r.events[j].timeout)
    decreases k
  {
    hide Inv, Apply, Enabled, Init;
    RunInv(r, k - 1);
    assert StepsTo(r.states[k - 1], r.events[k - 1], r.states[k]);
    if j < k - 1 {
      SuspendKeepsTimeout(r, j, k - 1);
      StaysSuspended(r.states[k - 1], r.events[k - 1], r.states[j].current, r.events[j].timeout);
    } else {
      SuspendStarts(r.states[j], r.events[j].timeout);
    }
  }

  /** So the first processing of timeouts at or after the fiber's own makes it ready. */
  lemma TimeoutMakesReady(r: Run, j: nat, k: nat)
    requires IsRun(r) && j < k < |r.events| && r.events[j].StartSuspend? && r.events[k].AfterWork?
    requires forall i :: j < i < k ==> !Readies(r.events[i], r.states[j].current)
    ensures r.states[j].current in r.events[k].moved <==>
            r.events[j].timeout.Some? && r.events[j].timeout.value <= r.states[k].now
  {
    hide Apply, Init;
    SuspendKeepsTimeout(r, j, k);
    assert StepsTo(r.states[k], r.events[k], r.states[k + 1]);
  }

  // ---- work is started ----

  /** There is work, or the current fiber has just been resumed to do its own. */
  predicate Busy(s: Worker)
    requires WellFormed(s)
  {
    s.num > 0 || At(s).Suspended?
  }

  /** The thread runs code outside the scheduler. */
  predicate Runs(s: Worker)
    requires WellFormed(s)
  {
    !s.locked && At(s).InJob?
  }

  lemma BusyAtLoop(s: Worker, e: Event)
    requires Inv(s) && s.locked && Enabled(s, e) && Busy(s) && (e.EnterRun? || e.TestLoop? || e.EnterWait?)
    ensures WellFormed(Apply(s, e)) && Apply(s, e).locked && Busy(Apply(s, e))
  {
    hide Placed, SuspendedFibers, HandedBack, SleepsSafely, WorkFound, NextDeadline;
  }

  lemma BusyInWait(s: Worker, e: Event)
    requires Inv(s) && s.locked && Enabled(s, e) && Busy(s) && (e.EnterWorkWait? || e.AfterWork? || e.ResumeIdle?)
    ensures WellFormed(Apply(s, e)) && Apply(s, e).locked && Busy(Apply(s, e))
  {
    hide Placed, SuspendedFibers, HandedBack, SleepsSafely, WorkFound, NextDeadline, QueueAll, RemoveAll, ExpiredOrder;
  }

  lemma BusyRunIdle(s: Worker)
    requires Inv(s) && s.locked && Enabled(s, RunIdle) && Busy(s)
    ensures
      var r := Apply(s, RunIdle);
      WellFormed(r) && ((r.locked && Busy(r)) || Runs(r))
  {
    hide Placed, SuspendedFibers, HandedBack, SleepsSafely, WorkFound;
    if s.fibers != [] {
      RunIdleTarget(s);
    }
  }

  lemma BusySwitch(s: Worker, reused: FiberId)
    requires Inv(s) && s.locked && Enabled(s, SwitchOut(reused)) && Busy(s)
    ensures
      var r := Apply(s, SwitchOut(reused));
      WellFormed(r) && r.locked && Busy(r)
  {
    hide Placed, SuspendedFibers, HandedBack, SleepsSafely, WorkFound;
    SwitchOutTarget(s, reused);
    if s.fibers != [] {
      ReadyHead(s.pc, s.state, s.current, s.fibers, s.waiting, s.idle);
    }
  }

  lemma BusyResume(s: Worker, e: Event)
    requires Inv(s) && s.locked && Enabled(s, e) && Busy(s) && (e.ResumeSuspended? || e.LeaveRun?)
    ensures WellFormed(Apply(s, e)) && Runs(Apply(s, e))
  {
    hide Placed, SuspendedFibers, HandedBack, SleepsSafely, WorkFound;
  }

  lemma BusyStep(s: Worker, e: Event)
    requires Inv(s) && s.locked && Enabled(s, e) && ByHolder(e) && WellFormed(s) && Busy(s)
    ensures
      var r := Apply(s, e);
      WellFormed(r) && ((r.locked && Busy(r)) || Runs(r))
  {
    hide Inv, Enabled, Apply, Busy, Runs;
    match e
    case EnterRun => BusyAtLoop(s, e);
    case TestLoop => BusyAtLoop(s, e);
    case EnterWait => BusyAtLoop(s, e);
    case EnterWorkWait => BusyInWait(s, e);
    case AfterWork(_) => BusyInWait(s, e);
    case ResumeIdle => BusyInWait(s, e);
    case RunIdle => BusyRunIdle(s);
    case SwitchOut(reused) => BusySwitch(s, reused);
    case ResumeSuspended => BusyResume(s, e);
    case LeaveRun => BusyResume(s, e);
  }

  lemma HolderIsOwn(e: Event)
    requires ByHolder(e)
    ensures Own(e)
  {
  }

  lemma {:induction false} HolderStartsWork(s: Worker) returns (events: seq<Event>, last: Worker)
    requires Inv(s) && s.locked && Busy(s)
    ensures OwnPath(s, events, last) && Inv(last) && Runs(last)
    decreases Rank(s)
  {
    hide Inv, Enabled, Apply, Rank, Busy, Runs, Path;
    Shape(s);
    var e := HolderCanStep(s);
    HolderIsOwn(e);
    var r := Apply(s, e);
    StepInv(s, e);
    BusyStep(s, e);
    MutexNears(s, e);
    if Runs(r) {
      Nowhere(r);
      events, last := [], r;
    } else {
      events, last := HolderStartsWork(r);
    }
    PrependOwn(s, e, events, last);
    events := [e] + events;
  }

  /** The first step of a thread that does not hold the mutex and is not in a job. */
  lemma WakeUp(s: Worker) returns (e: Event)
    requires Inv(s) && !s.locked && !At(s).InJob? && !At(s).Finished?
    requires s.num > 0 || (At(s).Spinning? && At(s).hand.Some?)
    ensures Enabled(s, e) && Own(e) && WellFormed(Apply(s, e)) && Apply(s, e).locked && Busy(Apply(s, e))
  {
    hide Placed, SuspendedFibers, HandedBack, SleepsSafely, WorkFound, NextDeadline;
    e := if At(s).NotStarted? then ThreadStart else if At(s).Spinning? then SpinLock else Reawake;
  }

  /** Whenever there is a task or a ready fiber, or a thief has a task in hand, the worker thread's own
      steps lead to it running a task, wherever it is asleep, spinning or inside the scheduler. */
  lemma WorkIsStarted(r: Run, k: nat) returns (events: seq<Event>, last: Worker)
    requires IsRun(r) && k < |r.states| && WellFormed(r.states[k])
    requires
      var s := r.states[k];
      && !At(s).InJob? && !At(s).Finished?
      && (s.tasks != [] || s.fibers != [] || (At(s).Spinning? && At(s).hand.Some?))
    ensures OwnPath(r.states[k], events, last) && WellFormed(last) && At(last).InJob?
  {
    hide IsRun, Inv, Enabled, Apply, Path;
    var s := r.states[k];
    RunInv(r, k);
    Shape(s);
    if s.locked {
      LockedElsewhere(s);
      events, last := HolderStartsWork(s);
    } else {
      var e := WakeUp(s);
      StepInv(s, e);
      events, last := HolderStartsWork(Apply(s, e));
      PrependOwn(s, e, events, last);
      events := [e] + events;
    }
    Shape(last);
  }

  lemma LockedElsewhere(s: Worker)
    requires Inv(s) && s.locked
    ensures !At(s).Spinning?
  {
    hide Placed, SuspendedFibers, HandedBack, SleepsSafely, WorkFound, Ending;
  }

  // ---- the worker ends ----

  /** The thread is in its loop with nothing left to do. */
  predicate Leaving(s: Worker)
    requires WellFormed(s)
  {
    Drained(s) && (At(s).IdleParked? || At(s).IdleHead? || At(s).LoopHead? || At(s).Exit?)
  }

  lemma LeavingStep(s: Worker, e: Event)
    requires Inv(s) && s.locked && Enabled(s, e) && ByHolder(e) && Leaving(s)
    ensures
      var r := Apply(s, e);
      WellFormed(r) && ((r.locked && Leaving(r)) || At(r).Finished?)
  {
    hide Placed, SuspendedFibers, HandedBack, SleepsSafely, WorkFound, NextDeadline;
    if e.LeaveRun? && s.current != MAIN {
      MainIsIdle(s);
    }
  }

  lemma {:induction false} HolderFinishes(s: Worker) returns (events: seq<Event>, last: Worker)
    requires Inv(s) && s.locked && Leaving(s)
    ensures OwnPath(s, events, last) && WellFormed(last) && At(last).Finished?
    decreases Rank(s)
  {
    hide Inv, Enabled, Apply, Rank, Leaving, Path;
    Shape(s);
    var e := HolderCanStep(s);
    HolderIsOwn(e);
    var r := Apply(s, e);
    StepInv(s, e);
    LeavingStep(s, e);
    MutexNears(s, e);
    if At(r).Finished? {
      Nowhere(r);
      events, last := [], r;
    } else {
      events, last := HolderFinishes(r);
    }
    PrependOwn(s, e, events, last);
    events := [e] + events;
  }

  /** A worker that runs its stop task, or whose thread stops it, with nothing else left, ends by its
      own steps: the thread leaves the scheduler. */
  lemma WorkerEnds(r: Run, k: nat) returns (events: seq<Event>, last: Worker)
    requires IsRun(r) && k < |r.states| && WellFormed(r.states[k])
    requires
      var s := r.states[k];
      && !s.locked && s.tasks == [] && s.fibers == [] && s.numBlocked == 0
      && (Enabled(s, SetShutdown) || Enabled(s, StopSingle))
    ensures OwnPath(r.states[k], events, last) && WellFormed(last) && At(last).Finished?
  {
    hide IsRun, Inv, Path;
    var s := r.states[k];
    RunInv(r, k);
    if Enabled(s, StopSingle) {
      StepInv(s, StopSingle);
      events, last := HolderFinishes(Apply(s, StopSingle));
      PrependOwn(s, StopSingle, events, last);
      events := [StopSingle] + events;
    } else {
      var t := Apply(s, SetShutdown);
      StepInv(s, SetShutdown);
      StepInv(t, EndJob);
      events, last := HolderFinishes(Apply(t, EndJob));
      PrependOwn(t, EndJob, events, last);
      PrependOwn(s, SetShutdown, [EndJob] + events, last);
      events := [SetShutdown] + ([EndJob] + events);
    }
  }

  // ---- spinning, and new fibers ----

  /** Only a multi-threaded worker ever spins for work to steal. */
  lemma {:induction false} OnlyMultiThreadedSpins(r: Run, k: nat)
    requires IsRun(r) && k < |r.states|
    ensures WellFormed(r.states[k]) && (At(r.states[k]).Spinning? ==> r.states[k].mode.MultiThreaded?)
    ensures r.states[k].mode == r.states[0].mode
  {
    hide Inv, Apply, Enabled;
    RunInv(r, k);
    Shape(r.states[k]);
    if k > 0 {
      OnlyMultiThreadedSpins(r, k - 1);
      var s, e := r.states[k - 1], r.events[k - 1];
      assert StepsTo(s, e, r.states[k]);
      RunInv(r, k - 1);
      if At(r.states[k]).Spinning? {
        SpinStep(s, e);
      }
      StepFrame(s, e);
    } else {
      NotSpinning(r.states[0]);
    }
  }

  lemma NotSpinning(s: Worker)
    requires Init(s)
    ensures !At(s).Spinning?
  {
  }

  /** How a step treats the mode, the number of fibers, and the way into spinning and sleeping. */
  predicate Frame(s: Worker, e: Event, r: Worker)
    requires WellFormed(s)
  {
    && r.mode == s.mode
    && |r.pc| == |s.pc| + (if e.SwitchOut? && s.fibers == [] && s.idle == {} then 1 else 0)
    && (r.current == s.current && r.pc[s.current].Spinning? ==>
          At(s).Spinning? || (e.EnterWait? && s.mode.MultiThreaded?))
    && (r.current == s.current && r.pc[s.current].WorkWait? ==>
          At(s).WorkWait? || (e.SpinLock? && At(s).Spinning?) || (e.EnterWait? && s.mode.SingleThreaded?))
  }

  lemma OutsideFrame(s: Worker, e: Event)
    requires WellFormed(s) && Enabled(s, e) && FromOutside(e)
    ensures Frame(s, e, Apply(s, e))
  {
    hide JobOf;
  }

  lemma SleepFrame(s: Worker, e: Event)
    requires WellFormed(s) && Enabled(s, e) && (e.EnterRun? || e.Reawake?)
    ensures Frame(s, e, Apply(s, e))
  {
    hide NextDeadline, JobOf, WakeCondition, StartCondition, WorkCondition;
  }

  lemma WaitFrame(s: Worker, e: Event)
    requires WellFormed(s) && Enabled(s, e) && (e.TestLoop? || e.EnterWait? || e.EnterWorkWait?)
    ensures Frame(s, e, Apply(s, e))
  {
    hide NextDeadline, JobOf, WakeCondition, StartCondition, WorkCondition;
  }

  lemma SpinFrame(s: Worker, e: Event)
    requires WellFormed(s) && Enabled(s, e) && (e.ThreadStart? || e.SpinSteal? || e.SpinLock? || e.AfterWork?)
    ensures Frame(s, e, Apply(s, e))
  {
    hide JobOf, QueueAll, RemoveAll, ExpiredOrder;
  }

  lemma JobFrame(s: Worker, e: Event)
    requires WellFormed(s) && Enabled(s, e)
    requires e.ResumeIdle? || e.StartSuspend? || e.ResumeSuspended? || e.EndJob? || e.StopSingle?
    ensures Frame(s, e, Apply(s, e))
  {
    hide JobOf;
  }

  lemma SwitchFrame(s: Worker, e: Event)
    requires WellFormed(s) && Enabled(s, e) && e.SwitchOut?
    ensures Frame(s, e, Apply(s, e))
  {
    hide JobOf;
  }

  lemma IdleFrame(s: Worker, e: Event)
    requires WellFormed(s) && Enabled(s, e) && (e.RunIdle? || e.LeaveRun?)
    ensures Frame(s, e, Apply(s, e))
  {
    hide JobOf;
  }

  lemma StepFrame(s: Worker, e: Event)
    requires WellFormed(s) && Enabled(s, e)
    ensures Frame(s, e, Apply(s, e))
  {
    hide Apply, Enabled, Frame;
    match e
    case EnterRun | Reawake => SleepFrame(s, e);
    case TestLoop | EnterWait | EnterWorkWait => WaitFrame(s, e);
    case ThreadStart | SpinSteal(_) | SpinLock | AfterWork(_) => SpinFrame(s, e);
    case ResumeIdle | StartSuspend(_) | ResumeSuspended | EndJob | StopSingle => JobFrame(s, e);
    case RunIdle | LeaveRun => IdleFrame(s, e);
    case SwitchOut(_) => SwitchFrame(s, e);
    case _ => OutsideFrame(s, e);
  }

  lemma SpinStep(s: Worker, e: Event)
    requires Inv(s) && Enabled(s, e) && WellFormed(Apply(s, e)) && At(Apply(s, e)).Spinning?
    ensures At(s).Spinning? || (e.EnterWait? && s.mode.MultiThreaded?)
  {
    hide Inv, Apply, Enabled;
    Shape(s);
    if Apply(s, e).current != s.current {
      SwitchTarget(s, e);
    } else {
      StepFrame(s, e);
    }
  }

  /** A multi-threaded worker that runs out of work spins, when it may steal, before it goes to sleep; a
      single-threaded one goes to sleep at once. */
  lemma SpinsBeforeSleep(r: Run, k: nat)
    requires IsRun(r) && k < |r.events| && WellFormed(r.states[k]) && WellFormed(r.states[k + 1])
    requires !At(r.states[k]).WorkWait? && At(r.states[k + 1]).WorkWait?
    ensures r.events[k] == if r.states[0].mode.MultiThreaded? then SpinLock else EnterWait
  {
    hide Inv, Apply, Enabled, Init;
    var s, e := r.states[k], r.events[k];
    assert StepsTo(s, e, r.states[k + 1]);
    RunInv(r, k);
    OnlyMultiThreadedSpins(r, k);
    if r.states[k + 1].current != s.current {
      SwitchTarget(s, e);
    } else {
      StepFrame(s, e);
    }
  }

  /** A new fiber is created only when a fiber suspends while no other one is ready or idle. */
  lemma FibersAreReused(r: Run, k: nat)
    requires IsRun(r) && k < |r.events|
    ensures |r.states[k].pc| <= |r.states[k + 1].pc| <= |r.states[k].pc| + 1
    ensures |r.states[k + 1].pc| > |r.states[k].pc| <==>
            r.events[k].SwitchOut? && r.states[k].fibers == [] && r.states[k].idle == {}
  {
    hide Inv, Apply, Enabled, Init;
    assert StepsTo(r.states[k], r.events[k], r.states[k + 1]);
    StepFrame(r.states[k], r.events[k]);
  }

  // ---- first in, first out ----

  /** The fibers that an event puts into the ready queue, and the one that it takes out. */
  function Adds(s: Worker, e: Event): (q: seq<FiberId>) {
    match e
    case EnqueueFiber(f) => if f < |s.state| && (s.state[f].Running? || s.state[f].Queued?) then [] else [f]
    case AfterWork(moved) => moved
    case _ => []
  }

  function Removes(s: Worker, e: Event): (q: seq<FiberId>) {
    if (e.RunIdle? || e.SwitchOut?) && s.fibers != [] then [s.fibers[0]] else []
  }

  lemma LoopQueues(s: Worker, e: Event)
    requires WellFormed(s) && Enabled(s, e) && InLoop(e)
    ensures Apply(s, e).fibers == s.fibers && Apply(s, e).tasks == s.tasks
  {
    hide Apply, Enabled;
    if e.EnterRun? || e.Reawake? {
      SleepQueues(s, e);
    } else {
      WaitQueues(s, e);
    }
  }

  lemma SleepQueues(s: Worker, e: Event)
    requires WellFormed(s) && Enabled(s, e) && (e.EnterRun? || e.Reawake?)
    ensures Apply(s, e).fibers == s.fibers && Apply(s, e).tasks == s.tasks
  {
    hide NextDeadline, JobOf, WakeCondition, StartCondition, WorkCondition;
  }

  lemma WaitQueues(s: Worker, e: Event)
    requires WellFormed(s) && Enabled(s, e) && (e.TestLoop? || e.EnterWait? || e.EnterWorkWait?)
    ensures Apply(s, e).fibers == s.fibers && Apply(s, e).tasks == s.tasks
  {
    hide NextDeadline, JobOf, WakeCondition, StartCondition, WorkCondition;
  }

  lemma QuietQueue(s: Worker, e: Event)
    requires WellFormed(s) && Enabled(s, e) && !InLoop(e) && !FromOutside(e)
    requires !e.AfterWork? && !e.RunIdle? && !e.SwitchOut?
    ensures Apply(s, e).fibers == s.fibers
  {
    hide JobOf;
  }

  lemma QueueStep(s: Worker, e: Event)
    requires WellFormed(s) && Enabled(s, e)
    ensures s.fibers + Adds(s, e) == Removes(s, e) + Apply(s, e).fibers
  {
    if InLoop(e) {
      hide Apply, Enabled;
      LoopQueues(s, e);
    } else if !FromOutside(e) && !e.AfterWork? && !e.RunIdle? && !e.SwitchOut? {
      hide Apply, Enabled;
      QuietQueue(s, e);
    } else {
      hide QueueAll, RemoveAll, ExpiredOrder, JobOf;
    }
  }

  ghost function AllAdded(r: Run, k: nat): (q: seq<FiberId>)
    requires k <= |r.events| && |r.states| == |r.events| + 1
  {
    if k == 0 then [] else AllAdded(r, k - 1) + Adds(r.states[k - 1], r.events[k - 1])
  }

  ghost function AllRemoved(r: Run, k: nat): (q: seq<FiberId>)
    requires k <= |r.events| && |r.states| == |r.events| + 1
  {
    if k == 0 then [] else AllRemoved(r, k - 1) + Removes(r.states[k - 1], r.events[k - 1])
  }

  /** Fibers leave the ready queue in the order in which they entered it. */
  lemma {:induction false} ReadyQueueInOrder(r: Run, k: nat)
    requires IsRun(r) && k < |r.states|
    ensures AllAdded(r, k) == AllRemoved(r, k) + r.states[k].fibers
  {
    hide Apply, Enabled;
    if k > 0 {
      ReadyQueueInOrder(r, k - 1);
      var s, e := r.states[k - 1], r.events[k - 1];
      assert StepsTo(s, e, r.states[k]);
      QueueStep(s, e);
      var out, q, a, d := AllRemoved(r, k - 1), s.fibers, Adds(s, e), Removes(s, e);
      assert out + q + a == out + (q + a) == out + (d + r.states[k].fibers) == out + d + r.states[k].fibers;
    }
  }

  /** The tasks that an event puts into the task queue, and the one that it takes out. */
  function AddsTask(s: Worker, e: Event): (q: seq<Task>)
    requires WellFormed(s)
  {
    match e
    case EnqueueTask(t) => [t]
    case SpinLock => if At(s).Spinning? && At(s).hand.Some? then [At(s).hand.value] else []
    case _ => []
  }

  function RemovesTask(s: Worker, e: Event): (q: seq<Task>) {
    if s.tasks != [] && (e.StealOut? || (e.RunIdle? && s.fibers == [])) then [s.tasks[0]] else []
  }

  lemma QuietTasks(s: Worker, e: Event)
    requires WellFormed(s) && Enabled(s, e) && !InLoop(e) && !FromOutside(e) && !e.SpinLock? && !e.RunIdle?
    ensures Apply(s, e).tasks == s.tasks
  {
    hide JobOf, QueueAll, RemoveAll, ExpiredOrder;
  }

  lemma TaskStep(s: Worker, e: Event)
    requires WellFormed(s) && Enabled(s, e)
    ensures s.tasks + AddsTask(s, e) == RemovesTask(s, e) + Apply(s, e).tasks
    ensures RemovesTask(s, e) != [] && e.RunIdle? ==>
              WellFormed(Apply(s, e)) && At(Apply(s, e)) == InJob(TaskCode(s.tasks[0]))
  {
    if InLoop(e) {
      hide Apply, Enabled;
      LoopQueues(s, e);
    } else if !FromOutside(e) && !e.SpinLock? && !e.RunIdle? {
      hide Apply, Enabled;
      QuietTasks(s, e);
    }
  }

  ghost function AllTasksAdded(r: Run, k: nat): (q: seq<Task>)
    requires IsRun(r) && k <= |r.events|
  {
    if k == 0 then []
    else
      assert StepsTo(r.states[k - 1], r.events[k - 1], r.states[k]);
      AllTasksAdded(r, k - 1) + AddsTask(r.states[k - 1], r.events[k - 1])
  }

  ghost function AllTasksRemoved(r: Run, k: nat): (q: seq<Task>)
    requires IsRun(r) && k <= |r.events|
  {
    if k == 0 then [] else AllTasksRemoved(r, k - 1) + RemovesTask(r.states[k - 1], r.events[k - 1])
  }

  /** Tasks leave the task queue, to run or to be stolen, in the order in which they entered it. */
  lemma {:induction false} TaskQueueInOrder(r: Run, k: nat)
    requires IsRun(r) && k < |r.states|
    ensures AllTasksAdded(r, k) == AllTasksRemoved(r, k) + r.states[k].tasks
  {
    hide Apply, Enabled;
    if k > 0 {
      TaskQueueInOrder(r, k - 1);
      var s, e := r.states[k - 1], r.events[k - 1];
      assert StepsTo(s, e, r.states[k]);
      TaskStep(s, e);
      var out, q, a, d := AllTasksRemoved(r, k - 1), s.tasks, AddsTask(s, e), RemovesTask(s, e);
      assert out + q + a == out + (q + a) == out + (d + r.states[k].tasks) == out + d + r.states[k].tasks;
    }
  }
}

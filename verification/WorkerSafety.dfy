/** What every run of a worker keeps: fiber placement, the two counters, the wake-up obligation,
    and with them every assertion that the scheduler's authors wrote into the code. */
module WorkerSafety {
  import opened Common
  import opened WorkerModel

  /** The worker thread holds `work.mutex` exactly at these program counters. */
  predicate Holds(p: Pc) {
    match p
    case NotStarted | ParkedAtStart(_) | Spinning(_, _) | ParkedForWork(_, _) | InJob(_) | Finished => false
    case _ => true
  }

  /** Inside `suspend()`, before or after the switch. */
  predicate InSuspend(p: Pc) {
    JobOf(p).Some? && !p.InJob?
  }

  predicate Blocked(st: FiberState) {
    st.Yielded? || st.Waiting? || st.Queued?
  }

  /** A fiber that is not current is parked in `suspend()`, parked in `runUntilIdle()`, or gone. */
  predicate MayRest(p: Pc) {
    p.Suspended? || p.IdleParked? || p.Gone?
  }

  /** `Fiber::state` against the place where the fiber is.  A current fiber at `Suspended` has just
      been switched to: it left the ready queue and is about to return from `suspend()`. */
  predicate StateMatches(p: Pc, st: FiberState, current: bool, main: bool) {
    && (!current ==> MayRest(p))
    && (p.Gone? ==> !current && !main)
    && (if p.Suspended? && current then st.Queued?
        else if InSuspend(p) then Blocked(st)
        else if p.IdleParked? then st.Idle?
        else st.Running?)
  }

  /** Some fiber has left `run()` and handed the thread back to `mainFiber`. */
  predicate HandedBack(pc: seq<Pc>) {
    exists g :: 0 <= g < |pc| && pc[g].Gone?
  }

  /** Fiber placement: each of the three containers holds exactly the fibers whose state says so,
      and nothing twice.  The exceptions are the fiber being resumed, already out of the ready
      queue, and the main fiber after the last switch, which no one takes out of the idle set. */
  ghost predicate Placed(pc: seq<Pc>, state: seq<FiberState>, current: FiberId, fibers: seq<FiberId>,
                         waiting: map<FiberId, TimePoint>, idle: set<FiberId>)
  {
    && |pc| == |state|
    && (forall f :: 0 <= f < |pc| ==> StateMatches(pc[f], state[f], f == current, f == MAIN))
    && NoDuplicates(fibers)
    && (forall f :: f in fibers ==> f < |pc|)
    && (forall f :: f in waiting ==> f < |pc|)
    && (forall f :: f in idle ==> f < |pc|)
    && (forall f :: 0 <= f < |pc| ==>
          && (f in fibers <==> state[f].Queued? && !(f == current && pc[f].Suspended?))
          && (f in waiting <==> state[f].Waiting?)
          && (f in idle <==> (pc[f].IdleParked? && f != current) || (f == MAIN && HandedBack(pc))))
  }

  ghost predicate Placement(s: Worker) {
    Placed(s.pc, s.state, s.current, s.fibers, s.waiting, s.idle)
  }

  ghost function SuspendedFibers(pc: seq<Pc>): (r: set<FiberId>) {
    set f | 0 <= f < |pc| && pc[f].Suspended?
  }

  predicate DeadlineCovers(w: map<FiberId, TimePoint>, d: Option<TimePoint>) {
    match d
    case None => w == map[]
    case Some(t) => forall f :: f in w ==> t <= w[f]
  }

  /** A parked worker thread cannot miss work: enqueuers see `notifyAdded`; if it sleeps although
      its predicate holds then someone still owes it a `notify_one`; and its deadline is no later
      than any timeout that is left. */
  ghost predicate SleepsSafely(s: Worker)
    requires WellFormed(s)
  {
    Parked(At(s)) ==>
      && s.notifyAdded
      && (s.asleep && WakeCondition(s) ==> s.owed > 0)
      && DeadlineCovers(s.waiting, At(s).deadline)
      && (At(s).deadline.Some? ==>
            s.fibers != [] || exists f :: f in s.waiting && s.waiting[f] == At(s).deadline.value)
  }

  /** `waitForWork()` returns only with work, with a timeout to process, or in a shutdown. */
  ghost predicate WorkFound(s: Worker)
    requires WellFormed(s)
  {
    && (At(s).Woken? ==> WorkCondition(s) || exists f :: f in s.waiting && s.waiting[f] <= s.now)
    && (At(s).SuspendSwitch? ==> WorkCondition(s))
  }

  /** Nothing is left to do on the worker. */
  predicate Drained(s: Worker) {
    s.shutdown && s.tasks == [] && s.fibers == [] && s.numBlocked == 0
  }

  predicate LastPcs(p: Pc) {
    p.IdleParked? || p.IdleHead? || p.LoopHead? || p.Exit? || p.Finished?
  }

  ghost predicate Ending(s: Worker)
    requires WellFormed(s)
  {
    && (At(s).Exit? ==> Drained(s))
    && (HandedBack(s.pc) ==> s.current == MAIN && LastPcs(At(s)) && (At(s).Finished? || Drained(s)))
  }

  /** The part of the invariant that is about the worker thread. */
  ghost predicate ThreadOk(s: Worker)
    requires WellFormed(s)
  {
    && (s.locked <==> Holds(At(s)))
    && (s.mode.SingleThreaded? ==> !At(s).ParkedAtStart?)
    && (At(s).NotStarted? ==> s.current == MAIN)
    && s.num == |s.fibers| + |s.tasks|
    && SleepsSafely(s)
    && WorkFound(s)
    && Ending(s)
  }

  ghost predicate Inv(s: Worker) {
    && WellFormed(s)
    && Placement(s)
    && s.numBlocked == |SuspendedFibers(s.pc)|
    && ThreadOk(s)
  }

  lemma InitInv(s: Worker)
    requires Init(s)
    ensures Inv(s)
  {
    assert SuspendedFibers(s.pc) == {};
  }

  // ---- updating one program counter ----

  lemma SuspendedUpdate(pc: seq<Pc>, f: FiberId, p: Pc)
    requires f < |pc|
    ensures |SuspendedFibers(pc[f := p])| ==
            |SuspendedFibers(pc)| - (if pc[f].Suspended? then 1 else 0) + (if p.Suspended? then 1 else 0)
  {
    var before, after := SuspendedFibers(pc), SuspendedFibers(pc[f := p]);
    var others := set g | 0 <= g < |pc| && g != f && pc[g].Suspended?;
    assert before == if pc[f].Suspended? then others + {f} else others;
    assert after == if p.Suspended? then others + {f} else others;
  }

  lemma HandedBackUpdate(pc: seq<Pc>, f: FiberId, p: Pc)
    requires f < |pc| && !pc[f].Gone?
    ensures HandedBack(pc[f := p]) <==> p.Gone? || HandedBack(pc)
  {
    var after := pc[f := p];
    if p.Gone? {
      assert after[f].Gone?;
    } else if HandedBack(pc) {
      var g :| 0 <= g < |pc| && pc[g].Gone?;
      assert after[g].Gone?;
    }
  }

  // ---- steps of other threads ----

  lemma OutsideInv(s: Worker, e: Event)
    requires Inv(s) && Enabled(s, e)
    requires e.EnqueueTask? || e.StealOut? || e.NotifyOne? || e.Tick? || e.SetShutdown?
    ensures Inv(Apply(s, e))
  {
    hide Placed, HandedBack, SuspendedFibers;
  }

  lemma NotifyPlacement(s: Worker, f: FiberId)
    requires Inv(s) && !s.locked && f < |s.pc| && Blocked(s.state[f]) && !s.state[f].Queued?
    ensures Placement(EnqueueFiberAction(s, f))
  {
    hide HandedBack, SuspendedFibers, ThreadOk;
  }

  lemma NotifyThread(s: Worker, f: FiberId)
    requires Inv(s) && !s.locked && f < |s.pc| && Blocked(s.state[f]) && !s.state[f].Queued?
    ensures ThreadOk(EnqueueFiberAction(s, f))
  {
    hide Placed, HandedBack, SuspendedFibers;
  }

  /** `Fiber::notify()` keeps the invariant for every fiber that is not idle. */
  lemma EnqueueFiberInv(s: Worker, f: FiberId)
    requires Inv(s) && !s.locked && f < |s.pc|
    ensures !s.state[f].Idle? ==> Inv(EnqueueFiberAction(s, f))
  {
    hide HandedBack, SuspendedFibers, ThreadOk;
    if Blocked(s.state[f]) && !s.state[f].Queued? {
      NotifyPlacement(s, f);
      NotifyThread(s, f);
    }
  }

  /** A fiber inside a job is not idle. */
  lemma JobIsNotIdle(s: Worker, f: FiberId)
    requires WellFormed(s) && Placement(s) && f < |s.pc| && JobOf(s.pc[f]).Some?
    ensures !s.state[f].Idle?
  {
    hide HandedBack;
  }

  lemma NotifyInv(s: Worker, f: FiberId)
    requires Inv(s) && Enabled(s, EnqueueFiber(f))
    ensures Inv(Apply(s, EnqueueFiber(f)))
  {
    hide Placed, SuspendedFibers, ThreadOk;
    JobIsNotIdle(s, f);
    EnqueueFiberInv(s, f);
  }

  // ---- steps that move the current fiber between places that count as running ----

  /** `r` is `s` with the current fiber elsewhere; containers and fiber states are untouched. */
  ghost predicate Moves(s: Worker, r: Worker) {
    && WellFormed(s)
    && r.current == s.current && r.fibers == s.fibers && r.waiting == s.waiting && r.idle == s.idle
    && r.state == s.state && r.numBlocked == s.numBlocked
    && |r.pc| == |s.pc| && r.pc == s.pc[s.current := r.pc[s.current]]
    && !MayRest(At(s)) && !MayRest(At(r))
    && InSuspend(At(r)) == InSuspend(At(s))
  }

  lemma MovesKeeps(s: Worker, r: Worker)
    requires Moves(s, r) && Placement(s)
    ensures Placement(r) && HandedBack(r.pc) == HandedBack(s.pc)
    ensures |SuspendedFibers(r.pc)| == |SuspendedFibers(s.pc)|
  {
    hide HandedBack, SuspendedFibers;
    HandedBackUpdate(s.pc, s.current, At(r));
    SuspendedUpdate(s.pc, s.current, At(r));
  }

  lemma ThreadStartInv(s: Worker)
    requires Inv(s) && Enabled(s, ThreadStart)
    ensures Inv(Apply(s, ThreadStart))
  {
    hide Placed, HandedBack, SuspendedFibers;
    MovesKeeps(s, Apply(s, ThreadStart));
  }

  lemma EnterRunInv(s: Worker)
    requires Inv(s) && Enabled(s, EnterRun)
    ensures Inv(Apply(s, EnterRun))
  {
    hide Placed, HandedBack, SuspendedFibers;
    MovesKeeps(s, Apply(s, EnterRun));
  }

  lemma EnterWorkWaitInv(s: Worker)
    requires Inv(s) && Enabled(s, EnterWorkWait)
    ensures Inv(Apply(s, EnterWorkWait))
  {
    hide Placed, HandedBack, SuspendedFibers;
    MovesKeeps(s, Apply(s, EnterWorkWait));
  }

  lemma EndJobInv(s: Worker)
    requires Inv(s) && Enabled(s, EndJob)
    ensures Inv(Apply(s, EndJob))
  {
    hide Placed, HandedBack, SuspendedFibers;
    MovesKeeps(s, Apply(s, EndJob));
  }

  lemma StopSingleInv(s: Worker)
    requires Inv(s) && Enabled(s, StopSingle)
    ensures Inv(Apply(s, StopSingle))
  {
    hide Placed, HandedBack, SuspendedFibers;
    MovesKeeps(s, Apply(s, StopSingle));
  }

  lemma TestLoopInv(s: Worker)
    requires Inv(s) && Enabled(s, TestLoop)
    ensures Inv(Apply(s, TestLoop))
  {
    hide Placed, HandedBack, SuspendedFibers;
    MovesKeeps(s, Apply(s, TestLoop));
  }

  lemma EnterWaitInv(s: Worker)
    requires Inv(s) && Enabled(s, EnterWait)
    ensures Inv(Apply(s, EnterWait))
  {
    hide Placed, HandedBack, SuspendedFibers;
    MovesKeeps(s, Apply(s, EnterWait));
  }

  lemma SpinLockInv(s: Worker)
    requires Inv(s) && Enabled(s, SpinLock)
    ensures Inv(Apply(s, SpinLock))
  {
    hide Placed, HandedBack, SuspendedFibers;
    MovesKeeps(s, Apply(s, SpinLock));
  }

  lemma SpinStealInv(s: Worker, t: Task)
    requires Inv(s) && Enabled(s, SpinSteal(t))
    ensures Inv(Apply(s, SpinSteal(t)))
  {
    hide Placed, HandedBack, SuspendedFibers;
    MovesKeeps(s, Apply(s, SpinSteal(t)));
  }

  lemma ReawakeInv(s: Worker)
    requires Inv(s) && Enabled(s, Reawake)
    ensures Inv(Apply(s, Reawake))
  {
    hide Placed, HandedBack, SuspendedFibers;
    var r := Apply(s, Reawake);
    if r.locked {
      MovesKeeps(s, r);
    }
  }

  // ---- fiber placement across the steps that change fiber states or switch fibers ----

  /** `suspend()`: the running fiber becomes Yielded or Waiting. */
  lemma SuspendPlaced(pc: seq<Pc>, state: seq<FiberState>, current: FiberId, fibers: seq<FiberId>,
                      waiting: map<FiberId, TimePoint>, idle: set<FiberId>, j: Job, timeout: Option<TimePoint>)
    requires Placed(pc, state, current, fibers, waiting, idle) && current < |pc| && pc[current].InJob?
    ensures
      var st := if timeout.Some? then Waiting else Yielded;
      var w := if timeout.Some? then waiting[current := timeout.value] else waiting;
      Placed(pc[current := WaitEntry(FromSuspend(j))], state[current := st], current, fibers, w, idle)
  {
    hide HandedBack, NoDuplicates;
    HandedBackUpdate(pc, current, WaitEntry(FromSuspend(j)));
  }

  /** `suspend()` and `runUntilIdle()`: a fiber that was switched to becomes Running. */
  lemma ResumePlaced(pc: seq<Pc>, state: seq<FiberState>, current: FiberId, fibers: seq<FiberId>,
                     waiting: map<FiberId, TimePoint>, idle: set<FiberId>, p: Pc)
    requires Placed(pc, state, current, fibers, waiting, idle) && current < |pc|
    requires pc[current].Suspended? || pc[current].IdleParked?
    requires !MayRest(p) && !InSuspend(p)
    ensures Placed(pc[current := p], state[current := Running], current, fibers, waiting, idle)
  {
    hide HandedBack, NoDuplicates;
    HandedBackUpdate(pc, current, p);
  }

  /** The head of the ready queue is a queued fiber inside `suspend()`, and occurs once. */
  lemma ReadyHead(pc: seq<Pc>, state: seq<FiberState>, current: FiberId, fibers: seq<FiberId>,
                  waiting: map<FiberId, TimePoint>, idle: set<FiberId>)
    requires Placed(pc, state, current, fibers, waiting, idle) && fibers != [] && !HandedBack(pc)
    ensures fibers[0] !in fibers[1..] && NoDuplicates(fibers[1..])
    ensures forall f :: f in fibers <==> f == fibers[0] || f in fibers[1..]
    ensures fibers[0] < |pc| && state[fibers[0]].Queued? && InSuspend(pc[fibers[0]]) && fibers[0] !in idle
    ensures fibers[0] != current ==> pc[fibers[0]].Suspended?
  {
    hide HandedBack;
    assert fibers[0] in fibers;
  }

  /** `runUntilIdle()`: the running fiber becomes idle and the next ready fiber current. */
  lemma ParkIdlePlaced(pc: seq<Pc>, state: seq<FiberState>, current: FiberId, fibers: seq<FiberId>,
                       waiting: map<FiberId, TimePoint>, idle: set<FiberId>)
    requires Placed(pc, state, current, fibers, waiting, idle) && current < |pc|
    requires fibers != [] && !HandedBack(pc) && pc[current].IdleHead?
    ensures Placed(pc[current := IdleParked], state[current := Idle], fibers[0], fibers[1..], waiting, idle + {current})
  {
    ReadyHead(pc, state, current, fibers, waiting, idle);
    hide HandedBack, NoDuplicates;
    HandedBackUpdate(pc, current, IdleParked);
  }

  /** `suspend()`, switching to a ready fiber, possibly to itself. */
  lemma SwitchReadyPlaced(pc: seq<Pc>, state: seq<FiberState>, current: FiberId, fibers: seq<FiberId>,
                          waiting: map<FiberId, TimePoint>, idle: set<FiberId>, j: Job)
    requires Placed(pc, state, current, fibers, waiting, idle) && current < |pc|
    requires fibers != [] && !HandedBack(pc) && pc[current].SuspendSwitch?
    ensures Placed(pc[current := Suspended(j)], state, fibers[0], fibers[1..], waiting, idle)
  {
    ReadyHead(pc, state, current, fibers, waiting, idle);
    hide HandedBack, NoDuplicates;
    HandedBackUpdate(pc, current, Suspended(j));
  }

  /** `suspend()`, reusing an idle fiber. */
  lemma SwitchIdlePlaced(pc: seq<Pc>, state: seq<FiberState>, current: FiberId, fibers: seq<FiberId>,
                         waiting: map<FiberId, TimePoint>, idle: set<FiberId>, j: Job, reused: FiberId)
    requires Placed(pc, state, current, fibers, waiting, idle) && current < |pc|
    requires reused in idle && !HandedBack(pc) && pc[current].SuspendSwitch?
    ensures Placed(pc[current := Suspended(j)], state, reused, fibers, waiting, idle - {reused})
    ensures reused < |pc| && reused != current && pc[reused].IdleParked? && state[reused].Idle?
  {
    hide HandedBack, NoDuplicates;
    HandedBackUpdate(pc, current, Suspended(j));
  }

  /** `suspend()`, creating a fiber. */
  lemma SwitchNewPlaced(pc: seq<Pc>, state: seq<FiberState>, current: FiberId, fibers: seq<FiberId>,
                        waiting: map<FiberId, TimePoint>, idle: set<FiberId>, j: Job)
    requires Placed(pc, state, current, fibers, waiting, idle) && current < |pc|
    requires !HandedBack(pc) && pc[current].SuspendSwitch?
    ensures Placed(pc[current := Suspended(j)] + [RunEntry], state + [Running], |pc|, fibers, waiting, idle)
    ensures !HandedBack(pc[current := Suspended(j)] + [RunEntry])
    ensures |SuspendedFibers(pc[current := Suspended(j)] + [RunEntry])| == |SuspendedFibers(pc)| + 1
  {
    hide HandedBack, NoDuplicates, SuspendedFibers;
    SwitchNewCounts(pc, current, j);
  }

  lemma SwitchNewCounts(pc: seq<Pc>, current: FiberId, j: Job)
    requires current < |pc| && !HandedBack(pc) && !pc[current].Suspended?
    ensures !HandedBack(pc[current := Suspended(j)] + [RunEntry])
    ensures |SuspendedFibers(pc[current := Suspended(j)] + [RunEntry])| == |SuspendedFibers(pc)| + 1
  {
    SuspendedUpdate(pc, current, Suspended(j));
    assert SuspendedFibers(pc[current := Suspended(j)] + [RunEntry]) == SuspendedFibers(pc[current := Suspended(j)]);
  }

  /** `run()`, the last switch of a worker fiber. */
  lemma LeavePlaced(pc: seq<Pc>, state: seq<FiberState>, current: FiberId, fibers: seq<FiberId>,
                    waiting: map<FiberId, TimePoint>, idle: set<FiberId>)
    requires Placed(pc, state, current, fibers, waiting, idle) && current < |pc|
    requires !HandedBack(pc) && pc[current].Exit? && current != MAIN && pc[MAIN].IdleParked?
    ensures Placed(pc[current := Gone], state, MAIN, fibers, waiting, idle)
    ensures HandedBack(pc[current := Gone])
  {
    hide HandedBack, NoDuplicates;
    HandedBackUpdate(pc, current, Gone);
  }

  /** `enqueueFiberTimeouts()`: the expired fibers become ready. */
  lemma ExpirePlaced(pc: seq<Pc>, state: seq<FiberState>, current: FiberId, fibers: seq<FiberId>,
                     waiting: map<FiberId, TimePoint>, idle: set<FiberId>, now: TimePoint, moved: seq<FiberId>)
    requires Placed(pc, state, current, fibers, waiting, idle) && current < |pc|
    requires ExpiredOrder(waiting, now, moved) && pc[current].Woken?
    ensures Placed(pc, QueueAll(state, moved), current, fibers + moved, RemoveAll(waiting, moved), idle)
  {
    hide HandedBack;
    assert forall f :: f in fibers ==> f !in moved;
    assert forall i, j :: 0 <= i < j < |moved| ==> Before(waiting, moved[i], moved[j]) && moved[i] != moved[j];
    var q := fibers + moved;
    forall i, j | 0 <= i < j < |q| ensures q[i] != q[j] {
      if i < |fibers| <= j {
        assert q[i] in fibers && q[j] in moved;
      }
    }
  }

  // ---- the switching steps ----

  lemma StartSuspendInv(s: Worker, timeout: Option<TimePoint>)
    requires Inv(s) && Enabled(s, StartSuspend(timeout))
    ensures Inv(Apply(s, StartSuspend(timeout)))
  {
    hide Placed, HandedBack, SuspendedFibers;
    var p := WaitEntry(FromSuspend(At(s).job));
    HandedBackUpdate(s.pc, s.current, p);
    SuspendedUpdate(s.pc, s.current, p);
    SuspendPlaced(s.pc, s.state, s.current, s.fibers, s.waiting, s.idle, At(s).job, timeout);
  }

  lemma ResumeIdleInv(s: Worker)
    requires Inv(s) && Enabled(s, ResumeIdle)
    ensures Inv(Apply(s, ResumeIdle))
  {
    hide Placed, HandedBack, SuspendedFibers;
    HandedBackUpdate(s.pc, s.current, IdleHead);
    SuspendedUpdate(s.pc, s.current, IdleHead);
    ResumePlaced(s.pc, s.state, s.current, s.fibers, s.waiting, s.idle, IdleHead);
  }

  lemma ResumeSuspendedInv(s: Worker)
    requires Inv(s) && Enabled(s, ResumeSuspended)
    ensures Inv(Apply(s, ResumeSuspended))
  {
    hide Placed, HandedBack, SuspendedFibers;
    var p := InJob(At(s).job);
    HandedBackUpdate(s.pc, s.current, p);
    SuspendedUpdate(s.pc, s.current, p);
    ResumePlaced(s.pc, s.state, s.current, s.fibers, s.waiting, s.idle, p);
  }

  /** At the last switch of a worker fiber nothing is suspended and nothing is current but that
      fiber, so the main fiber can only be parked in `runUntilIdle()`. */
  lemma MainIsIdle(s: Worker)
    requires Inv(s) && At(s).Exit? && s.current != MAIN
    ensures s.pc[MAIN].IdleParked? && !HandedBack(s.pc)
  {
    hide HandedBack;
    assert s.pc[MAIN].Suspended? ==> MAIN in SuspendedFibers(s.pc);
  }

  lemma LeaveRunInv(s: Worker)
    requires Inv(s) && Enabled(s, LeaveRun)
    ensures Inv(Apply(s, LeaveRun))
  {
    hide Placed, HandedBack, SuspendedFibers;
    if s.current == MAIN {
      MovesKeeps(s, Apply(s, LeaveRun));
    } else {
      MainIsIdle(s);
      SuspendedUpdate(s.pc, s.current, Gone);
      LeavePlaced(s.pc, s.state, s.current, s.fibers, s.waiting, s.idle);
    }
  }

  lemma RunIdleInv(s: Worker)
    requires Inv(s) && Enabled(s, RunIdle)
    ensures Inv(Apply(s, RunIdle))
  {
    hide Inv, Apply, Enabled;
    if s.fibers != [] {
      ResumeReadyInv(s);
    } else {
      StartTaskInv(s);
    }
  }

  /** `runUntilIdle()` with a ready fiber. */
  lemma ResumeReadyInv(s: Worker)
    requires Inv(s) && Enabled(s, RunIdle) && s.fibers != []
    ensures Inv(Apply(s, RunIdle))
  {
    hide Placed, HandedBack, SuspendedFibers;
    HandedBackUpdate(s.pc, s.current, IdleParked);
    SuspendedUpdate(s.pc, s.current, IdleParked);
    ReadyHead(s.pc, s.state, s.current, s.fibers, s.waiting, s.idle);
    ParkIdlePlaced(s.pc, s.state, s.current, s.fibers, s.waiting, s.idle);
  }

  /** `runUntilIdle()` without one: it takes a task, or returns. */
  lemma StartTaskInv(s: Worker)
    requires Inv(s) && Enabled(s, RunIdle) && s.fibers == []
    ensures Inv(Apply(s, RunIdle))
  {
    hide Placed, HandedBack, SuspendedFibers;
    MovesKeeps(s, Apply(s, RunIdle));
  }

  lemma SwitchOutInv(s: Worker, reused: FiberId)
    requires Inv(s) && Enabled(s, SwitchOut(reused))
    ensures Inv(Apply(s, SwitchOut(reused)))
  {
    hide Placed, HandedBack, SuspendedFibers;
    var j := At(s).job;
    HandedBackUpdate(s.pc, s.current, Suspended(j));
    SuspendedUpdate(s.pc, s.current, Suspended(j));
    if s.fibers != [] {
      ReadyHead(s.pc, s.state, s.current, s.fibers, s.waiting, s.idle);
      SwitchReadyPlaced(s.pc, s.state, s.current, s.fibers, s.waiting, s.idle, j);
    } else if s.idle != {} {
      SwitchIdlePlaced(s.pc, s.state, s.current, s.fibers, s.waiting, s.idle, j, reused);
    } else {
      SwitchNewPlaced(s.pc, s.state, s.current, s.fibers, s.waiting, s.idle, j);
    }
  }

  lemma AfterWorkInv(s: Worker, moved: seq<FiberId>)
    requires Inv(s) && Enabled(s, AfterWork(moved))
    ensures Inv(Apply(s, AfterWork(moved)))
  {
    hide Placed, HandedBack, SuspendedFibers;
    ExpirePlaced(s.pc, s.state, s.current, s.fibers, s.waiting, s.idle, s.now, moved);
    var mid := s.(waiting := RemoveAll(s.waiting, moved), state := QueueAll(s.state, moved),
        fibers := s.fibers + moved);
    MovesKeeps(mid, Apply(s, AfterWork(moved)));
  }
}

/** The mutable `Scheduler::Worker`, with its methods cut where control leaves them: at an
    acquisition or release of `work.mutex` and at a fiber switch.  Each piece is proved to be one
    event of the transition system, so that every sequence of them is part of a run; the asserts in
    the bodies are the `MARL_ASSERT`s of the code.  The events that only test the condition of a
    loop, take or release the mutex, or end a task have no method of their own. */
module WorkerObject {
  import opened Common
  import opened WorkerModel
  import opened WorkerSafety
  import opened WorkerTheorems
  import W = WaitingFibers

  /** What the threads are doing: the part of the worker's state that no field of the original holds. */
  datatype Control = Control(locked: bool, owed: nat, asleep: bool, pc: seq<Pc>, now: TimePoint)

  class Worker {
    const mode: Mode
    var num: int
    var numBlockedFibers: int
    var tasks: seq<Task>
    var fibers: seq<FiberId>
    const waiting: W.WaitingFibers
    var notifyAdded: bool
    var idleFibers: set<FiberId>
    var shutdown: bool
    var currentFiber: FiberId
    var state: seq<FiberState>
    ghost var control: Control

    ghost function State(): (s: WorkerModel.Worker)
      reads this, waiting
    {
      WorkerModel.Worker.Worker(mode, control.locked, num, numBlockedFibers, tasks, fibers, waiting.fibers, notifyAdded,
                                control.owed, control.asleep, idleFibers, shutdown, currentFiber, state,
                                control.pc, control.now)
    }

    ghost predicate Valid()
      reads this, waiting
    {
      waiting.Valid() && Inv(State())
    }

    /** The worker as `start()` leaves it. */
    constructor (mode: Mode)
      ensures Valid() && Init(State()) && fresh(waiting) && this.mode == mode
    {
      this.mode := mode;
      num, numBlockedFibers, tasks, fibers := 0, 0, [], [];
      waiting := new W.WaitingFibers();
      notifyAdded, idleFibers, shutdown := true, {}, false;
      currentFiber, state := MAIN, [Running];
      control := Control(false, 0, false, [if mode.MultiThreaded? then NotStarted else InJob(UserCode)], 0);
      new;
      InitInv(State());
    }

    /** `enqueue(Fiber*)` on any fiber; the owed notification is sent after the mutex is released. */
    method EnqueueFiber(fiber: FiberId) returns (notify: bool)
      requires Valid() && !control.locked && fiber < |state|
      modifies this, waiting
      ensures State() == EnqueueFiberAction(old(State()), fiber)
      ensures waiting.Valid() && (Valid() <==> !old(state[fiber]).Idle?)
      ensures control.owed == old(control.owed) + if notify then 1 else 0
    {
      hide Inv;
      Shape(State());
      NotifyExact(State(), fiber);
      notify := false;
      match state[fiber] {
        case Running | Queued => return;
        case Waiting => waiting.Erase(fiber);
        case Idle | Yielded =>
      }
      notify := notifyAdded;
      fibers := fibers + [fiber];
      var listed := waiting.Contains(fiber);
      assert !listed;
      state := state[fiber := Queued];
      num := num + 1;
      control := control.(owed := if notify then control.owed + 1 else control.owed);
    }

    /** `enqueueAndUnlock(Task&&)`, from the successful lock. */
    method EnqueueAndUnlock(task: Task) returns (notify: bool)
      requires Valid() && Enabled(State(), EnqueueTask(task))
      modifies this
      ensures Valid() && State() == Apply(old(State()), EnqueueTask(task))
      ensures control.owed == old(control.owed) + if notify then 1 else 0
    {
      hide Inv;
      Shape(State());
      OutsideInv(State(), EnqueueTask(task));
      notify := notifyAdded;
      tasks := tasks + [task];
      num := num + 1;
      control := control.(owed := if notify then control.owed + 1 else control.owed);
    }

    /** `steal(Task&)`: only the front task, and only if it may leave this thread; `gotLock` is the
        result of `try_lock()`. */
    method Steal(gotLock: bool) returns (out: Option<Task>)
      requires Valid() && (gotLock ==> !control.locked)
      modifies this
      ensures Valid()
      ensures out.None? <==> !gotLock || old(tasks) == [] || old(tasks)[0].sameThread
      ensures out.None? ==> State() == old(State())
      ensures out.Some? ==>
        && out.value == old(tasks)[0]
        && Enabled(old(State()), StealOut) && State() == Apply(old(State()), StealOut)
    {
      hide Inv;
      Shape(State());
      if num == 0 {
        return None;
      }
      if !gotLock {
        return None;
      }
      if tasks == [] || tasks[0].sameThread {
        return None;
      }
      OutsideInv(State(), StealOut);
      num := num - 1;
      out := Some(tasks[0]);
      tasks := tasks[1..];
    }

    /** `suspend()`, up to `waitForWork()`. */
    method SuspendBegin(timeout: Option<TimePoint>)
      requires Valid() && Enabled(State(), StartSuspend(timeout))
      modifies this, waiting
      ensures Valid() && State() == Apply(old(State()), StartSuspend(timeout)) && currentFiber == old(currentFiber)
      ensures state == old(state)[currentFiber := if timeout.Some? then Waiting else Yielded]
      ensures waiting.fibers ==
              if timeout.Some? then old(waiting.fibers)[currentFiber := timeout.value] else old(waiting.fibers)
    {
      hide Inv;
      Shape(State());
      StartSuspendInv(State(), timeout);
      RunningJob(State());
      assert state[currentFiber].Running? && currentFiber !in waiting.fibers;
      if timeout.Some? {
        state := state[currentFiber := Waiting];
        waiting.Add(timeout.value, currentFiber);
      } else {
        state := state[currentFiber := Yielded];
      }
      control := control.(pc := control.pc[currentFiber := WaitEntry(FromSuspend(control.pc[currentFiber].job))],
          locked := true);
    }

    /** `suspend()` after `waitForWork()`, with a ready fiber to resume. */
    method SwitchToReady()
      requires Valid() && control.locked && At(State()).SuspendSwitch? && fibers != []
      modifies this
      ensures Valid() && Enabled(old(State()), SwitchOut(MAIN)) && State() == Apply(old(State()), SwitchOut(MAIN))
    {
      hide Inv, Apply, Enabled, W.Sorted, W.Agree;
      Shape(State());
      ghost var job := control.pc[currentFiber].job;
      SwitchOutFacts(State(), MAIN);
      numBlockedFibers := numBlockedFibers + 1;
      num := num - 1;
      var to := fibers[0];
      fibers := fibers[1..];
      assert state[to].Queued? && (to == MAIN || to !in idleFibers);
      control := control.(pc := control.pc[currentFiber := Suspended(job)]);
      currentFiber := to;
    }

    /** `suspend()` after `waitForWork()`, with no ready fiber but an idle one. */
    method SwitchToIdle() returns (to: FiberId)
      requires Valid() && control.locked && At(State()).SuspendSwitch? && fibers == [] && idleFibers != {}
      modifies this
      ensures Valid() && Enabled(old(State()), SwitchOut(to)) && State() == Apply(old(State()), SwitchOut(to))
    {
      hide Inv, Apply, Enabled, W.Sorted, W.Agree;
      Shape(State());
      ghost var job := control.pc[currentFiber].job;
      to :| to in idleFibers;
      SwitchOutFacts(State(), to);
      numBlockedFibers := numBlockedFibers + 1;
      idleFibers := idleFibers - {to};
      assert state[to].Idle?;
      control := control.(pc := control.pc[currentFiber := Suspended(job)]);
      currentFiber := to;
    }

    /** `suspend()` after `waitForWork()`, creating a fiber with `createWorkerFiber()`. */
    method SwitchToNew() returns (to: FiberId)
      requires Valid() && control.locked && At(State()).SuspendSwitch? && fibers == [] && idleFibers == {}
      modifies this
      ensures Valid() && Enabled(old(State()), SwitchOut(MAIN)) && State() == Apply(old(State()), SwitchOut(MAIN))
    {
      hide Inv, Apply, Enabled, W.Sorted, W.Agree;
      Shape(State());
      ghost var job := control.pc[currentFiber].job;
      SwitchOutFacts(State(), MAIN);
      numBlockedFibers := numBlockedFibers + 1;
      to := |state|;
      state := state + [Running];
      control := control.(pc := control.pc[currentFiber := Suspended(job)]);
      control := control.(pc := control.pc + [RunEntry]);
      currentFiber := to;
    }

    /** `suspend()`, after the switch back to this fiber. */
    method SuspendEnd()
      requires Valid() && Enabled(State(), ResumeSuspended)
      modifies this
      ensures Valid() && State() == Apply(old(State()), ResumeSuspended)
    {
      hide Inv;
      Shape(State());
      ResumeSuspendedInv(State());
      numBlockedFibers := numBlockedFibers - 1;
      state := state[currentFiber := Running];
      control := control.(pc := control.pc[currentFiber := InJob(control.pc[currentFiber].job)], locked := false);
    }

    /** `Work::wait()` of `waitForWork()`, from its entry to the first check of the predicate. */
    method WorkWaitEnter() returns (deadline: Option<TimePoint>)
      requires Valid() && Enabled(State(), EnterWorkWait)
      modifies this
      ensures Valid() && State() == Apply(old(State()), EnterWorkWait)
      ensures !control.locked ==> At(State()) == ParkedForWork(old(At(State()).caller), deadline)
    {
      hide Inv, Apply, W.Sorted, W.Agree;
      ghost var before := State();
      Shape(before);
      notifyAdded := true;
      deadline := None;
      var any := waiting.Any();
      if any {
        var t := waiting.Next();
        deadline := Some(t);
      }
      WorkWaitFacts(before, deadline);
      ghost var c := control.pc[currentFiber].caller;
      if num > 0 || (shutdown && numBlockedFibers == 0) {
        notifyAdded := false;
        control := control.(pc := control.pc[currentFiber := Woken(c)]);
      } else {
        control := control.(pc := control.pc[currentFiber := ParkedForWork(c, deadline)], locked := false);
        control := control.(asleep := true);
      }
    }

    /** One call of `waiting.take()` in the loop of `enqueueFiberTimeouts()`. */
    method TakeExpired(ghost before: WorkerModel.Worker, ghost moved: seq<FiberId>, clock: TimePoint)
      returns (fiber: Option<FiberId>)
      requires waiting.Valid() && State() == TimedOut(before, moved, waiting.fibers)
      modifies waiting
      ensures waiting.Valid() && State() == TimedOut(before, moved, waiting.fibers)
      ensures Took(old(waiting.fibers), clock, fiber, waiting.fibers)
    {
      hide W.Sorted, W.Agree, QueueAll;
      fiber := waiting.Take(clock);
    }

    /** The body of that loop: a timed-out fiber becomes ready. */
    method QueueTimedOut(ghost before: WorkerModel.Worker, ghost moved: seq<FiberId>, fiber: FiberId)
      requires waiting.Valid() && Inv(before) && fiber in before.waiting && fiber !in moved
      requires State() == TimedOut(before, moved, waiting.fibers)
      modifies this
      ensures State() == TimedOut(before, moved + [fiber], waiting.fibers)
    {
      hide Inv, QueueAll, W.Sorted, W.Agree;
      QueueOneMore(before, moved, fiber);
      assert state[fiber].Waiting?;
      state := state[fiber := Queued];
      fibers := fibers + [fiber];
      num := num + 1;
    }

    /** `enqueueFiberTimeouts()`; `clock` is what `system_clock::now()` returned. */
    method EnqueueFiberTimeouts(clock: TimePoint) returns (ghost moved: seq<FiberId>)
      requires Valid()
      modifies this, waiting
      ensures waiting.Valid() && ExpiredOrder(old(waiting.fibers), clock, moved)
      ensures State() == TimedOut(old(State()), moved, RemoveAll(old(waiting.fibers), moved))
    {
      hide Inv, TimedOut, Took, Taking, ExpiredOrder, QueueAll, RemoveAll, Before, W.Sorted, W.Agree;
      ghost var before := State();
      TakingStart(before, clock);
      moved := [];
      ghost var left := before.waiting;
      var fiber := TakeExpired(before, moved, clock);
      while fiber.Some?
        invariant waiting.Valid()
        invariant Taking(before.waiting, clock, moved, left) && Took(left, clock, fiber, waiting.fibers)
        invariant State() == TimedOut(before, moved, waiting.fibers)
        decreases left.Keys
      {
        TakingStep(before.waiting, clock, moved, left, fiber.value, waiting.fibers);
        QueueTimedOut(before, moved, fiber.value);
        moved := moved + [fiber.value];
        left := waiting.fibers;
        fiber := TakeExpired(before, moved, clock);
      }
      TakingDone(before.waiting, clock, moved, left, waiting.fibers);
    }

    /** `waitForWork()`, from the return of `Work::wait()`. */
    method WaitForWorkEnd(clock: TimePoint) returns (ghost moved: seq<FiberId>)
      requires Valid() && control.locked && At(State()).Woken? && clock == control.now
      modifies this, waiting
      ensures Valid()
      ensures Enabled(old(State()), AfterWork(moved)) && State() == Apply(old(State()), AfterWork(moved))
    {
      hide Inv, Apply, Enabled, ExpiredOrder, QueueAll, RemoveAll, W.Sorted, W.Agree;
      ghost var before := State();
      Shape(before);
      moved := [];
      var any := waiting.Any();
      if any {
        moved := EnqueueFiberTimeouts(clock);
      } else {
        NothingWaits(before);
      }
      AfterWorkFacts(before, moved);
      control := control.(pc := control.pc[currentFiber := ReturnTo(control.pc[currentFiber].caller)]);
    }

    /** `runUntilIdle()`, one turn of its loop over ready fibers, through the switch. */
    method RunReadyFiber()
      requires Valid() && Enabled(State(), RunIdle) && fibers != []
      modifies this
      ensures Valid() && State() == Apply(old(State()), RunIdle)
    {
      hide Inv, Apply, Enabled, W.Sorted, W.Agree;
      Shape(State());
      RunIdleFacts(State());
      assert num == |fibers| + |tasks|;
      num := num - 1;
      var fiber := fibers[0];
      fibers := fibers[1..];
      assert fiber !in idleFibers && fiber != currentFiber && state[fiber].Queued?;
      assert state[currentFiber].Running? && currentFiber !in idleFibers;
      state := state[currentFiber := Idle];
      idleFibers := idleFibers + {currentFiber};
      control := control.(pc := control.pc[currentFiber := IdleParked]);
      currentFiber := fiber;
    }

    /** `runUntilIdle()`, taking a task once no fiber is ready, up to the call of the task. */
    method RunTask() returns (task: Task)
      requires Valid() && Enabled(State(), RunIdle) && fibers == [] && tasks != []
      modifies this
      ensures Valid() && State() == Apply(old(State()), RunIdle) && At(State()) == InJob(TaskCode(task))
    {
      hide Inv, Apply, Enabled, W.Sorted, W.Agree;
      Shape(State());
      RunIdleFacts(State());
      num := num - 1;
      task := tasks[0];
      tasks := tasks[1..];
      control := control.(pc := control.pc[currentFiber := InJob(TaskCode(task))], locked := false);
    }
  }

  /** The loop of `enqueueFiberTimeouts()`: the fibers taken so far are expired and in timeout
      order, and the fibers that are left come later. */
  ghost predicate Taking(w: map<FiberId, TimePoint>, now: TimePoint, taken: seq<FiberId>,
                         left: map<FiberId, TimePoint>)
  {
    && (forall f :: f in taken ==> f in w && w[f] <= now)
    && (forall i, j :: 0 <= i < j < |taken| ==> Before(w, taken[i], taken[j]))
    && (forall f, g :: f in taken && g in left ==> g in w && Before(w, f, g))
    && left == RemoveAll(w, taken)
  }

  /** `s` once the fibers in `moved` have timed out and `left` are still waiting. */
  ghost function TimedOut(s: WorkerModel.Worker, moved: seq<FiberId>, left: map<FiberId, TimePoint>)
    : (r: WorkerModel.Worker)
  {
    s.(waiting := left, state := QueueAll(s.state, moved), fibers := s.fibers + moved, num := s.num + |moved|)
  }

  /** What `WaitingFibers::take()` promises. */
  ghost predicate Took(left: map<FiberId, TimePoint>, now: TimePoint, fiber: Option<FiberId>,
                       left': map<FiberId, TimePoint>)
  {
    match fiber
    case None => left' == left && forall f :: f in left ==> now < left[f]
    case Some(f) => f in left && left[f] <= now && left' == left - {f} && forall g :: g in left' ==> Before(left, f, g)
  }

  lemma TakingStart(s: WorkerModel.Worker, now: TimePoint)
    ensures Taking(s.waiting, now, [], s.waiting) && TimedOut(s, [], s.waiting) == s
  {
    assert RemoveAll(s.waiting, []) == s.waiting;
    assert QueueAll(s.state, []) == s.state;
  }

  lemma NothingWaits(s: WorkerModel.Worker)
    requires s.waiting == map[]
    ensures ExpiredOrder(s.waiting, s.now, []) && RemoveAll(s.waiting, []) == s.waiting
    ensures QueueAll(s.state, []) == s.state && s.fibers + [] == s.fibers
  {
  }

  lemma TakingStep(w: map<FiberId, TimePoint>, now: TimePoint, taken: seq<FiberId>, left: map<FiberId, TimePoint>,
                   f: FiberId, left': map<FiberId, TimePoint>)
    requires Taking(w, now, taken, left) && Took(left, now, Some(f), left')
    ensures Taking(w, now, taken + [f], left') && f in w && f !in taken && left'.Keys < left.Keys
  {
    assert left' == RemoveAll(w, taken + [f]);
    assert forall g :: g in left' ==> g in left && Before(w, f, g);
    assert forall i :: 0 <= i < |taken| ==> taken[i] in taken && Before(w, taken[i], f);
  }

  lemma TakingDone(w: map<FiberId, TimePoint>, now: TimePoint, moved: seq<FiberId>, left: map<FiberId, TimePoint>,
                   left': map<FiberId, TimePoint>)
    requires Taking(w, now, moved, left) && Took(left, now, None, left')
    ensures ExpiredOrder(w, now, moved) && left' == RemoveAll(w, moved)
  {
    assert forall f :: f in w && f !in moved ==> f in RemoveAll(w, moved);
  }

  lemma QueueOneMore(s: WorkerModel.Worker, moved: seq<FiberId>, f: FiberId)
    requires Inv(s) && f in s.waiting && f !in moved
    ensures f < |s.state| && QueueAll(s.state, moved)[f].Waiting?
    ensures QueueAll(s.state, moved)[f := Queued] == QueueAll(s.state, moved + [f])
  {
    WaitingState(s);
  }

  /** A notification keeps the invariant exactly if the fiber is not idle; afterwards the fiber is
      not in the timeout index. */
  lemma NotifyExact(s: WorkerModel.Worker, f: FiberId)
    requires Inv(s) && !s.locked && f < |s.state|
    ensures Inv(EnqueueFiberAction(s, f)) <==> !s.state[f].Idle?
    ensures f in s.waiting <==> s.state[f].Waiting?
  {
    hide SuspendedFibers, HandedBack, ThreadOk;
    NotifyPlacementExact(s, f);
  }

  lemma RunningJob(s: WorkerModel.Worker)
    requires Inv(s) && At(s).InJob?
    ensures s.state[s.current].Running? && s.current !in s.waiting
  {
  }

  lemma RunIdleFacts(s: WorkerModel.Worker)
    requires Inv(s) && Enabled(s, RunIdle)
    ensures Asserts(s, RunIdle) && Inv(Apply(s, RunIdle)) && Apply(s, RunIdle) == RunIdleAction(s)
  {
    hide HandedBack, SuspendedFibers;
    RunIdleInv(s);
    SwitchAsserts(s, RunIdle);
  }

  lemma SwitchOutFacts(s: WorkerModel.Worker, reused: FiberId)
    requires Inv(s) && s.locked && At(s).SuspendSwitch? && (s.fibers == [] && s.idle != {} ==> reused in s.idle)
    ensures Enabled(s, SwitchOut(reused)) && Asserts(s, SwitchOut(reused))
    ensures Inv(Apply(s, SwitchOut(reused))) && Apply(s, SwitchOut(reused)) == SwitchOutAction(s, reused)
  {
    hide HandedBack, SuspendedFibers;
    SwitchOutInv(s, reused);
    SwitchAsserts(s, SwitchOut(reused));
  }

  lemma AfterWorkFacts(s: WorkerModel.Worker, moved: seq<FiberId>)
    requires Inv(s) && s.locked && At(s).Woken? && ExpiredOrder(s.waiting, s.now, moved)
    ensures Enabled(s, AfterWork(moved))
    ensures Inv(Apply(s, AfterWork(moved))) && Apply(s, AfterWork(moved)) == AfterWorkAction(s, moved)
  {
    AfterWorkInv(s, moved);
  }

  /** The deadline handed to `Work::wait()` is determined by the waiting fibers. */
  lemma DeadlineUnique(w: map<FiberId, TimePoint>, d: Option<TimePoint>)
    requires IsDeadline(w, d)
    ensures d == NextDeadline(w)
  {
  }

  lemma WorkWaitFacts(s: WorkerModel.Worker, d: Option<TimePoint>)
    requires Inv(s) && Enabled(s, EnterWorkWait) && IsDeadline(s.waiting, d)
    ensures Inv(Apply(s, EnterWorkWait))
    ensures Apply(s, EnterWorkWait) ==
            if WorkCondition(s) then Goto(s.(notifyAdded := false), Woken(At(s).caller))
            else Goto(s.(notifyAdded := true, asleep := true, locked := false), ParkedForWork(At(s).caller, d))
  {
    EnterWorkWaitInv(s);
    DeadlineUnique(s.waiting, d);
  }

  lemma WaitingState(s: WorkerModel.Worker)
    requires Inv(s)
    ensures forall f :: f in s.waiting ==> f < |s.state| && s.state[f].Waiting?
  {
    hide HandedBack, SuspendedFibers;
  }
}

/** A run of a worker after which a notification of an idle fiber makes an assertion fire: that
    `Fiber::notify()` needs a fiber that is not idle is a demand that callers can break. */
module IdleNotification {
  import opened Common
  import opened WorkerModel
  import opened WorkerSafety
  import opened WorkerTheorems

  const A := Task(0, false, false)
  const B := Task(1, false, false)

  ghost predicate EndsIn(r: Run, s: Worker) {
    IsRun(r) && r.states[|r.events|] == s
  }

  lemma Extend(r: Run, s: Worker, e: Event) returns (q: Run)
    requires EndsIn(r, s) && WellFormed(s) && Enabled(s, e)
    ensures EndsIn(q, Apply(s, e))
  {
    hide Enabled, Apply, Init;
    q := Run(r.states + [Apply(s, e)], r.events + [e]);
    forall k | 0 <= k < |q.events| ensures StepsTo(q.states[k], q.events[k], q.states[k + 1]) {
      if k < |r.events| {
        assert StepsTo(r.states[k], r.events[k], r.states[k + 1]);
      }
    }
  }

  /** A worker with two fibers at most, at the places that matter here. */
  function At2(locked: bool, numBlocked: int, tasks: seq<Task>, fibers: seq<FiberId>, idle: set<FiberId>,
               current: FiberId, state: seq<FiberState>, pc: seq<Pc>): (s: Worker)
  {
    Worker(MultiThreaded, locked, |tasks| + |fibers|, numBlocked, tasks, fibers, map[], false, 2, false, idle, false,
           current, state, pc, 0)
  }

  /** Two tasks wait when the thread starts. */
  lemma Begin() returns (r: Run)
    ensures EndsIn(r, At2(true, 0, [A, B], [], {}, MAIN, [Running], [LoopHead]))
  {
    var s := Worker(MultiThreaded, false, 0, 0, [], [], map[], true, 0, false, {}, false, MAIN, [Running],
        [NotStarted], 0);
    r := Run([s], []);
    assert EndsIn(r, s);
    hide EndsIn;
    r := Extend(r, s, EnqueueTask(A));
    s := Apply(s, EnqueueTask(A));
    r := Extend(r, s, EnqueueTask(B));
    s := Apply(s, EnqueueTask(B));
    r := Extend(r, s, ThreadStart);
    s := Apply(s, ThreadStart);
    r := Extend(r, s, EnterRun);
  }

  /** Fiber 0 takes task A. */
  lemma InA() returns (r: Run)
    ensures EndsIn(r, At2(false, 0, [B], [], {}, MAIN, [Running], [InJob(TaskCode(A))]))
  {
    hide EndsIn;
    r := Begin();
    var s := At2(true, 0, [A, B], [], {}, MAIN, [Running], [LoopHead]);
    r := Extend(r, s, TestLoop);
    s := Apply(s, TestLoop);
    r := Extend(r, s, EnterWait);
    s := Apply(s, EnterWait);
    r := Extend(r, s, RunIdle);
    s := Apply(s, RunIdle);
    assert s.tasks == [B] && s.pc == [InJob(TaskCode(A))];
  }

  /** Task A suspends, and the new fiber 1 takes over. */
  lemma ASuspended() returns (r: Run)
    ensures EndsIn(r, At2(true, 1, [B], [], {}, 1, [Yielded, Running], [Suspended(TaskCode(A)), RunEntry]))
  {
    hide EndsIn;
    r := InA();
    var s := At2(false, 0, [B], [], {}, MAIN, [Running], [InJob(TaskCode(A))]);
    r := Extend(r, s, StartSuspend(None));
    s := Apply(s, StartSuspend(None));
    r := Extend(r, s, EnterWait);
    s := Apply(s, EnterWait);
    r := Extend(r, s, SwitchOut(MAIN));
    s := Apply(s, SwitchOut(MAIN));
    assert s.state == [Yielded, Running] && s.pc == [Suspended(TaskCode(A)), RunEntry];
  }

  /** Fiber 1 takes task B. */
  lemma InB() returns (r: Run)
    ensures EndsIn(r, At2(false, 1, [], [], {}, 1, [Yielded, Running], [Suspended(TaskCode(A)), InJob(TaskCode(B))]))
  {
    hide EndsIn;
    r := ASuspended();
    var s := At2(true, 1, [B], [], {}, 1, [Yielded, Running], [Suspended(TaskCode(A)), RunEntry]);
    r := Extend(r, s, EnterRun);
    s := Apply(s, EnterRun);
    r := Extend(r, s, TestLoop);
    s := Apply(s, TestLoop);
    r := Extend(r, s, EnterWait);
    s := Apply(s, EnterWait);
    r := Extend(r, s, RunIdle);
    s := Apply(s, RunIdle);
    assert s.tasks == [] && s.pc == [Suspended(TaskCode(A)), InJob(TaskCode(B))];
  }

  /** Fiber 0 is notified, task B ends, and fiber 1 parks idle while fiber 0 goes on with task A. */
  lemma BackInA() returns (r: Run)
    ensures EndsIn(r, At2(false, 0, [], [], {1}, MAIN, [Running, Idle], [InJob(TaskCode(A)), IdleParked]))
  {
    hide EndsIn;
    r := InB();
    var s := At2(false, 1, [], [], {}, 1, [Yielded, Running], [Suspended(TaskCode(A)), InJob(TaskCode(B))]);
    r := Extend(r, s, EnqueueFiber(0));
    s := Apply(s, EnqueueFiber(0));
    r := Extend(r, s, EndJob);
    s := Apply(s, EndJob);
    r := Extend(r, s, RunIdle);
    s := Apply(s, RunIdle);
    r := Extend(r, s, ResumeSuspended);
    s := Apply(s, ResumeSuspended);
    assert s.fibers == [] && s.idle == {1} && s.state == [Running, Idle] && s.pc == [InJob(TaskCode(A)), IdleParked];
  }

  /** A notification of the idle fiber is harmless at first, but when task A ends and the fiber is
      dequeued, the assertion that a dequeued fiber is not idle fires. */
  lemma NotifyingIdleFiresAssertion() returns (r: Run, f: FiberId)
    ensures IsRun(r)
    ensures
      var s := r.states[|r.events|];
      && !s.locked && f < |s.pc| && f < |s.state| && s.state[f].Idle?
      && var t := EnqueueFiberAction(s, f);
      && WellFormed(t) && !Placement(t) && Enabled(t, EndJob)
      && var u := Apply(t, EndJob);
      && WellFormed(u) && Enabled(u, RunIdle) && u.fibers == [f] && f in u.idle && !Asserts(u, RunIdle)
  {
    r := BackInA();
    f := 1;
    var s := r.states[|r.events|];
    RunInv(r, |r.events|);
    NotifyPlacementExact(s, f);
  }
}

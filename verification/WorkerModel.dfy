/** One `marl::Scheduler::Worker` as a transition system.

    Every fiber of the worker carries a program counter naming the place in the scheduler code
    where it runs or is parked.  The worker thread executes the current fiber.  A step is the code
    between two points where something else may be observed: an acquisition or release of
    `work.mutex`, a fiber switch, or a loop head.  Other threads enqueue tasks, notify fibers and
    steal tasks, each in one critical section, and so only while the mutex is free. */
module WorkerModel {

  import opened Common

  /** Fiber 0 is `mainFiber`; fiber i > 0 is `workerFibers[i - 1]`. */
  type FiberId = nat
  type TimePoint = int

  const MAIN: FiberId := 0

  /** `stop` marks the task that `Worker::stop()` enqueues to set `shutdown`. */
  datatype Task = Task(id: nat, sameThread: bool, stop: bool)

  datatype Mode = MultiThreaded | SingleThreaded

  datatype FiberState = Idle | Yielded | Waiting | Queued | Running

  /** The code a fiber executes outside the scheduler: a task, or, on the main fiber of a
      single-threaded worker, the code of the thread that called `bind()`. */
  datatype Job = UserCode | TaskCode(task: Task)

  /** The caller of `waitForWork()`: `runUntilShutdown()` or `suspend()`. */
  datatype Caller = FromLoop | FromSuspend(job: Job)

  datatype Pc =
    | NotStarted                                               // thread created, mutex not yet taken
    | RunEntry                                                 // entry of run()
    | ParkedAtStart(deadline: Option<TimePoint>)               // asleep in the Work::wait() of run()
    | LoopHead                                                 // condition of runUntilShutdown()
    | WaitEntry(caller: Caller)                                // entry of waitForWork()
    | Spinning(caller: Caller, hand: Option<Task>)             // spinForWorkAndLock(), mutex released
    | WorkWait(caller: Caller)                                 // entry of Work::wait() in waitForWork()
    | ParkedForWork(caller: Caller, deadline: Option<TimePoint>)
    | Woken(caller: Caller)                                    // Work::wait() returned
    | IdleHead                                                 // loop heads of runUntilIdle()
    | InJob(job: Job)                                          // running code outside the scheduler
    | SuspendSwitch(job: Job)                                  // suspend(), waitForWork() returned
    | Suspended(job: Job)                                      // suspend(), inside switchToFiber()
    | IdleParked                                               // runUntilIdle(), inside switchToFiber()
    | Exit                                                     // run(), before the last switchToFiber()
    | Gone                                                     // switched to mainFiber for good
    | Finished                                                 // the worker thread left the scheduler

  /** `owed` counts the enqueuers that read `notifyAdded == true`, released the mutex and have not
      yet called `added.notify_one()`; `asleep` says that the parked thread has not been signalled. */
  datatype Worker = Worker(
    mode: Mode,
    locked: bool,
    num: int,
    numBlocked: int,
    tasks: seq<Task>,
    fibers: seq<FiberId>,
    waiting: map<FiberId, TimePoint>,
    notifyAdded: bool,
    owed: nat,
    asleep: bool,
    idle: set<FiberId>,
    shutdown: bool,
    current: FiberId,
    state: seq<FiberState>,
    pc: seq<Pc>,
    now: TimePoint)

  datatype Event =
    // other threads, or code that runs inside a job
    | EnqueueTask(task: Task)
    | EnqueueFiber(fiber: FiberId)
    | StealOut
    | NotifyOne
    | Tick(time: TimePoint)
    // the worker thread
    | ThreadStart
    | EnterRun
    | Reawake
    | TestLoop
    | EnterWait
    | SpinSteal(task: Task)
    | SpinLock
    | EnterWorkWait
    | AfterWork(moved: seq<FiberId>)
    | RunIdle
    | ResumeIdle
    | StartSuspend(timeout: Option<TimePoint>)
    | SwitchOut(reused: FiberId)
    | ResumeSuspended
    | EndJob
    | SetShutdown
    | StopSingle
    | LeaveRun

  function At(s: Worker): (p: Pc)
    requires s.current < |s.pc|
  {
    s.pc[s.current]
  }

  function Goto(s: Worker, p: Pc): (r: Worker)
    requires s.current < |s.pc|
  {
    s.(pc := s.pc[s.current := p])
  }

  function SetState(s: Worker, f: FiberId, st: FiberState): (r: Worker)
    requires f < |s.state|
  {
    s.(state := s.state[f := st])
  }

  /** The job whose code called into the scheduler on a fiber with this program counter. */
  function JobOf(p: Pc): (j: Option<Job>) {
    match p
    case WaitEntry(c) => CallerJob(c)
    case Spinning(c, _) => CallerJob(c)
    case WorkWait(c) => CallerJob(c)
    case ParkedForWork(c, _) => CallerJob(c)
    case Woken(c) => CallerJob(c)
    case InJob(j) => Some(j)
    case SuspendSwitch(j) => Some(j)
    case Suspended(j) => Some(j)
    case _ => None
  }

  function CallerJob(c: Caller): (j: Option<Job>) {
    match c
    case FromLoop => None
    case FromSuspend(j) => Some(j)
  }

  /** Where `waitForWork()` returns to. */
  function ReturnTo(c: Caller): (p: Pc) {
    match c
    case FromLoop => IdleHead
    case FromSuspend(j) => SuspendSwitch(j)
  }

  predicate IsDeadline(w: map<FiberId, TimePoint>, d: Option<TimePoint>) {
    match d
    case None => w == map[]
    case Some(t) => (exists f :: f in w && w[f] == t) && (forall f :: f in w ==> t <= w[f])
  }

  /** `WaitingFibers::next()` as the deadline handed to `Work::wait()`. */
  ghost function NextDeadline(w: map<FiberId, TimePoint>): (d: Option<TimePoint>)
    ensures IsDeadline(w, d)
  {
    if w == map[] then None else
      EarliestExists(w, w.Keys);
      var f :| f in w && forall g :: g in w ==> w[f] <= w[g];
      Some(w[f])
  }

  lemma {:induction false} EarliestExists(w: map<FiberId, TimePoint>, keys: set<FiberId>)
    requires keys != {} && keys <= w.Keys
    ensures exists f :: f in keys && forall g :: g in keys ==> w[f] <= w[g]
    decreases keys
  {
    var f :| f in keys;
    var rest := keys - {f};
    if rest == {} {
      assert keys == {f};
    } else {
      EarliestExists(w, rest);
      var h :| h in rest && forall g :: g in rest ==> w[h] <= w[g];
      var best := if w[h] <= w[f] then h else f;
      assert forall g :: g in keys ==> g == f || g in rest;
      assert best in keys && forall g :: g in keys ==> w[best] <= w[g];
    }
  }

  /** `WaitingFibers::Timeout::operator<`. */
  predicate Before(w: map<FiberId, TimePoint>, f: FiberId, g: FiberId)
    requires f in w && g in w
  {
    w[f] < w[g] || (w[f] == w[g] && f < g)
  }

  /** `moved` is what the loop of `enqueueFiberTimeouts()` takes at time `now`: exactly the expired
      fibers, each once, in timeout order. */
  ghost predicate ExpiredOrder(w: map<FiberId, TimePoint>, now: TimePoint, moved: seq<FiberId>) {
    && (forall f :: f in moved <==> f in w && w[f] <= now)
    && (forall i, j :: 0 <= i < j < |moved| ==> Before(w, moved[i], moved[j]))
  }

  predicate StartCondition(s: Worker) {
    s.num > 0 || s.waiting != map[] || s.shutdown
  }

  predicate WorkCondition(s: Worker) {
    s.num > 0 || (s.shutdown && s.numBlocked == 0)
  }

  /** The predicate that the parked worker thread sleeps on. */
  predicate WakeCondition(s: Worker)
    requires s.current < |s.pc|
  {
    match At(s)
    case ParkedAtStart(_) => StartCondition(s)
    case _ => WorkCondition(s)
  }

  predicate Expired(d: Option<TimePoint>, now: TimePoint) {
    d.Some? && d.value <= now
  }

  predicate Parked(p: Pc) {
    p.ParkedAtStart? || p.ParkedForWork?
  }

  /** Initial states: `Worker::start()`. */
  predicate Init(s: Worker) {
    && !s.locked && s.num == 0 && s.numBlocked == 0
    && s.tasks == [] && s.fibers == [] && s.waiting == map[] && s.idle == {}
    && s.notifyAdded && s.owed == 0 && !s.asleep && !s.shutdown
    && s.current == MAIN && s.state == [Running]
    && s.pc == [if s.mode.MultiThreaded? then NotStarted else InJob(UserCode)]
  }

  predicate WellFormed(s: Worker) {
    s.current < |s.pc| && |s.pc| == |s.state|
  }

  /** The guard of an event: where the executing thread is, whether the mutex can be taken, and for
      `EnqueueFiber` the demand on `Fiber::notify()` that the target is inside a job (a condition
      variable lists a fiber only while that fiber is inside a `wait()` call). */
  ghost predicate Enabled(s: Worker, e: Event)
    requires WellFormed(s)
  {
    match e
    case EnqueueTask(_) => !s.locked
    case EnqueueFiber(f) => !s.locked && f < |s.pc| && JobOf(s.pc[f]).Some?
    case StealOut => !s.locked && s.num > 0 && s.tasks != [] && !s.tasks[0].sameThread
    case NotifyOne => s.owed > 0
    case Tick(t) => s.now <= t
    case ThreadStart => !s.locked && At(s).NotStarted?
    case EnterRun => s.locked && At(s).RunEntry?
    case Reawake => !s.locked && Parked(At(s))
    case TestLoop => s.locked && At(s).LoopHead?
    case EnterWait => s.locked && At(s).WaitEntry?
    case SpinSteal(_) => At(s).Spinning? && At(s).hand.None?
    case SpinLock => !s.locked && At(s).Spinning?
    case EnterWorkWait => s.locked && At(s).WorkWait?
    case AfterWork(moved) => s.locked && At(s).Woken? && ExpiredOrder(s.waiting, s.now, moved)
    case RunIdle => s.locked && At(s).IdleHead?
    case ResumeIdle => s.locked && At(s).IdleParked?
    case StartSuspend(_) => !s.locked && At(s).InJob?
    case SwitchOut(reused) => s.locked && At(s).SuspendSwitch? && (s.fibers == [] && s.idle != {} ==> reused in s.idle)
    case ResumeSuspended => s.locked && At(s).Suspended?
    case EndJob => !s.locked && At(s).InJob? && At(s).job.TaskCode?
    case SetShutdown => s.mode.MultiThreaded? && At(s).InJob? && At(s).job.TaskCode? && At(s).job.task.stop
    case StopSingle => !s.locked && s.mode.SingleThreaded? && s.current == MAIN && At(s) == InJob(UserCode)
    case LeaveRun => s.locked && At(s).Exit?
  }

  /** `Work::wait()` from its entry: fall through when the predicate holds, otherwise sleep. */
  ghost function WaitOn(s: Worker, condition: bool, through: Pc, park: Option<TimePoint> -> Pc): (r: Worker)
    requires WellFormed(s)
  {
    if condition then
      Goto(s.(notifyAdded := false), through)
    else
      Goto(s.(notifyAdded := true, asleep := true, locked := false), park(NextDeadline(s.waiting)))
  }

  function EnqueueFiberAction(s: Worker, f: FiberId): (r: Worker)
    requires f < |s.state|
  {
    if s.state[f].Running? || s.state[f].Queued? then s
    else
      SetState(s, f, Queued).(
        waiting := if s.state[f].Waiting? then s.waiting - {f} else s.waiting,
        fibers := s.fibers + [f],
        num := s.num + 1,
        owed := if s.notifyAdded then s.owed + 1 else s.owed)
  }

  /** `runUntilIdle()` from a loop head to the next switch, unlock or return. */
  function RunIdleAction(s: Worker): (r: Worker)
    requires WellFormed(s)
  {
    if s.fibers != [] then
      Goto(SetState(s, s.current, Idle), IdleParked).(
        num := s.num - 1,
        fibers := s.fibers[1..],
        idle := s.idle + {s.current},
        current := s.fibers[0])
    else if s.tasks != [] then
      Goto(s, InJob(TaskCode(s.tasks[0]))).(
        num := s.num - 1,
        tasks := s.tasks[1..],
        locked := false)
    else
      Goto(s, LoopHead)
  }

  /** `suspend()` from the return of `waitForWork()` to the switch. */
  function SwitchOutAction(s: Worker, reused: FiberId): (r: Worker)
    requires WellFormed(s) && At(s).SuspendSwitch?
  {
    var t := Goto(s, Suspended(At(s).job)).(numBlocked := s.numBlocked + 1);
    if s.fibers != [] then
      t.(num := s.num - 1, fibers := s.fibers[1..], current := s.fibers[0])
    else if s.idle != {} then
      t.(idle := s.idle - {reused}, current := reused)
    else
      t.(state := s.state + [Running], pc := t.pc + [RunEntry], current := |s.pc|)
  }

  function RemoveAll(w: map<FiberId, TimePoint>, moved: seq<FiberId>): (r: map<FiberId, TimePoint>) {
    map f | f in w && f !in moved :: w[f]
  }

  function QueueAll(state: seq<FiberState>, moved: seq<FiberId>): (r: seq<FiberState>)
    ensures |r| == |state|
  {
    seq(|state|, i requires 0 <= i < |state| => if i in moved then Queued else state[i])
  }

  /** `enqueueFiberTimeouts()`, then the return of `waitForWork()`. */
  function AfterWorkAction(s: Worker, moved: seq<FiberId>): (r: Worker)
    requires WellFormed(s) && At(s).Woken?
  {
    Goto(s, ReturnTo(At(s).caller)).(
      waiting := RemoveAll(s.waiting, moved),
      state := QueueAll(s.state, moved),
      fibers := s.fibers + moved,
      num := s.num + |moved|)
  }

  ghost function Apply(s: Worker, e: Event): (r: Worker)
    requires WellFormed(s) && Enabled(s, e)
  {
    match e
    case EnqueueTask(t) =>
      s.(tasks := s.tasks + [t], num := s.num + 1, owed := if s.notifyAdded then s.owed + 1 else s.owed)
    case EnqueueFiber(f) => EnqueueFiberAction(s, f)
    case StealOut => s.(tasks := s.tasks[1..], num := s.num - 1)
    case NotifyOne => s.(owed := s.owed - 1, asleep := false)
    case Tick(t) => s.(now := t)
    case ThreadStart => Goto(s, RunEntry).(locked := true)
    case EnterRun =>
      if s.mode.MultiThreaded? then WaitOn(s, StartCondition(s), LoopHead, d => ParkedAtStart(d))
      else Goto(s, LoopHead)
    case Reawake =>
      if WakeCondition(s) || Expired(At(s).deadline, s.now) then
        Goto(s.(notifyAdded := false, asleep := false, locked := true),
             if At(s).ParkedAtStart? then LoopHead else Woken(At(s).caller))
      else
        s.(asleep := true)
    case TestLoop =>
      if !s.shutdown || s.num > 0 || s.numBlocked > 0 then Goto(s, WaitEntry(FromLoop))
      else if s.mode.SingleThreaded? && s.current == MAIN then Goto(s, Finished).(locked := false)
      else Goto(s, Exit)
    case EnterWait =>
      if s.num > 0 then Goto(s, ReturnTo(At(s).caller))
      else if s.mode.MultiThreaded? then Goto(s, Spinning(At(s).caller, None)).(locked := false)
      else Goto(s, WorkWait(At(s).caller))
    case SpinSteal(t) => Goto(s, Spinning(At(s).caller, Some(t)))
    case SpinLock =>
      var r := Goto(s, WorkWait(At(s).caller)).(locked := true);
      if At(s).hand.Some? then r.(tasks := s.tasks + [At(s).hand.value], num := s.num + 1) else r
    case EnterWorkWait =>
      var c := At(s).caller;
      WaitOn(s, WorkCondition(s), Woken(c), d => ParkedForWork(c, d))
    case AfterWork(moved) => AfterWorkAction(s, moved)
    case RunIdle => RunIdleAction(s)
    case ResumeIdle => Goto(SetState(s, s.current, Running), IdleHead)
    case StartSuspend(timeout) =>
      var r := Goto(s, WaitEntry(FromSuspend(At(s).job))).(locked := true);
      if timeout.Some? then SetState(r, s.current, Waiting).(waiting := s.waiting[s.current := timeout.value])
      else SetState(r, s.current, Yielded)
    case SwitchOut(reused) => SwitchOutAction(s, reused)
    case ResumeSuspended =>
      Goto(SetState(s, s.current, Running), InJob(At(s).job)).(numBlocked := s.numBlocked - 1, locked := false)
    case EndJob => Goto(s, IdleHead).(locked := true)
    case SetShutdown => s.(shutdown := true)
    case StopSingle => Goto(s, LoopHead).(locked := true, shutdown := true)
    case LeaveRun =>
      if s.current == MAIN then Goto(s, Finished).(locked := false)
      else Goto(s, Gone).(current := MAIN)
  }

  /** The `MARL_ASSERT`s that the code of an event evaluates. */
  predicate Asserts(s: Worker, e: Event)
    requires WellFormed(s)
  {
    match e
    case EnqueueFiber(f) =>                                     // not left in the waiting list
      f < |s.state| && !s.state[f].Running? && !s.state[f].Queued? ==> f !in EnqueueFiberAction(s, f).waiting
    case EnterRun => s.state[s.current].Running?                // if run() goes on at once, ...
    case Reawake => At(s).ParkedAtStart? ==> s.state[s.current].Running?    // ... and when it does later
    case EnterWait => s.num == |s.fibers| + |s.tasks|
    case AfterWork(moved) =>                                    // every timed-out fiber was Waiting
      forall f :: f in moved ==> f < |s.state| && s.state[f].Waiting?
    case RunIdle =>
      && s.num == |s.fibers| + |s.tasks|
      && s.state[s.current].Running?
      && (s.fibers != [] ==>
            var f := s.fibers[0];
            && f < |s.state|
            && f !in s.idle                                     // dequeued fiber is not idle
            && f != s.current                                   // nor currently running
            && s.state[f].Queued?
            && s.current !in s.idle                             // current fiber is not idle already
            && MaySwitchTo(s.idle + {s.current}, f))
    case ResumeIdle => s.state[s.current].Idle?
    case StartSuspend(timeout) => s.state[s.current].Running? && (timeout.Some? ==> s.current !in s.waiting)
    case SwitchOut(reused) =>
      if s.fibers != [] then
        && s.fibers[0] < |s.state|
        && s.state[s.fibers[0]].Queued?
        && MaySwitchTo(s.idle, s.fibers[0])
      else if s.idle != {} then
        reused < |s.state| && s.state[reused].Idle? && MaySwitchTo(s.idle - {reused}, reused)
      else
        MaySwitchTo(s.idle, |s.pc|)
    case LeaveRun => MaySwitchTo(s.idle, MAIN)
    case _ => true
  }

  /** The assertion of `switchToFiber()`. */
  predicate MaySwitchTo(idle: set<FiberId>, to: FiberId) {
    to == MAIN || to !in idle
  }

  /** A run alternates states and enabled events. */
  datatype Run = Run(states: seq<Worker>, events: seq<Event>)

  ghost predicate IsRun(r: Run) {
    && |r.states| == |r.events| + 1
    && Init(r.states[0])
    && forall k :: 0 <= k < |r.events| ==> StepsTo(r.states[k], r.events[k], r.states[k + 1])
  }

  ghost predicate StepsTo(s: Worker, e: Event, s': Worker) {
    WellFormed(s) && Enabled(s, e) && s' == Apply(s, e)
  }
}

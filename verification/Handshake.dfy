/** The handshake between `ConditionVariable::wait()` on a scheduler fiber and `notify_all()`.

    Three kinds of mutexes take part: the wait mutex M that guards the predicate, the mutex C of the
    condition variable, and the work mutex of the worker of each fiber.  Fibers and notifiers
    interleave between any two lock operations, and so do threads in all other code that locks work
    mutexes.  Changes of the predicate are numbered; a fiber remembers how many it had seen when it
    last evaluated the predicate. */
module Handshake {

  import opened Common

  type FiberId = nat

  datatype Actor = F(fiber: FiberId) | N(notifier: nat) | T(thread: nat)

  datatype Lock = MLock | CLock | WorkLock(worker: nat)

  datatype FiberState = Running | Yielded | Waiting | Queued

  datatype FiberPc =
    | Out                      // not in wait(); may or may not hold M
    | Entry                    // wait(): first evaluation of the predicate
    | CountIn                  // numWaiting++
    | WantList                 // lock C, emplace_front, unlock C
    | Test                     // Worker::wait(): evaluation in the loop condition
    | WantWork                 // lock the work mutex
    | HasWork                  // work mutex held, unlock M
    | Parking                  // suspend(): the fiber state is about to change
    | Parked                   // suspended
    | WantLock                 // resumed, lock M
    | CheckTime                // compare the clock with the timeout
    | WantErase(ok: bool)      // lock C, erase, unlock C
    | CountOut(ok: bool)       // numWaiting--, return ok

  datatype Fiber = Fiber(pc: FiberPc, state: FiberState, seen: nat, deadline: Option<int>, worker: nat)

  datatype NotifierPc =
    | Idle
    | Changed                  // changed the predicate without holding M
    | Holding                  // took M before any change
    | Ready                    // about to call notify_all()
    | WantC                    // notify_all(): numWaiting was not zero
    | Iterating(next: nat)     // C held, fibers before `next` have been notified
    | Notified                 // notify_all() returned

  /** `ruled` records that M was held at or after the change and before notify_all(). */
  datatype Notifier = Notifier(pc: NotifierPc, change: nat, ruled: bool)

  /** A thread in other code that locks a work mutex: a worker's own loop, or a call that enqueues
      or steals a task, with or without M. */
  datatype Thread = Thread(wants: Option<Lock>, inWork: Option<nat>)

  datatype System = System(
    predicateHolds: bool,
    changes: nat,
    unlocked: set<nat>,        // the changes made by an actor that did not hold M
    m: Option<Actor>,
    c: Option<Actor>,
    work: seq<Option<Actor>>,
    numWaiting: int,
    list: seq<FiberId>,
    fibers: seq<Fiber>,
    notifiers: seq<Notifier>,
    threads: seq<Thread>,
    now: int)

  datatype Event =
    | Tick(time: int)
    | Acquire(actor: Actor)
    | Release(actor: Actor)
    | Change(notifier: nat, value: bool)
    | SkipLock(notifier: nat)
    | StartWait(fiber: FiberId, deadline: Option<int>)
    | Step(fiber: FiberId)
    | TimeOut(fiber: FiberId)
    | StartNotify(notifier: nat)
    | NotifyStep(notifier: nat)
    | ThreadWants(thread: nat, lock: Lock)
    | ThreadLocks(thread: nat)
    | ThreadUnlocks(thread: nat, lock: Lock)

  function RemoveOne(q: seq<FiberId>, f: FiberId): (r: seq<FiberId>) {
    if q == [] then [] else if q[0] == f then q[1..] else [q[0]] + RemoveOne(q[1..], f)
  }

  predicate InRange(s: System) {
    && (forall f :: 0 <= f < |s.fibers| ==> s.fibers[f].worker < |s.work|)
    && (forall i :: 0 <= i < |s.list| ==> s.list[i] < |s.fibers|)
  }

  function WorkOf(s: System, f: FiberId): (h: Option<Actor>)
    requires InRange(s) && f < |s.fibers|
  {
    s.work[s.fibers[f].worker]
  }

  /** Whether the fiber can make its next step now. */
  predicate CanStep(s: System, f: FiberId)
    requires InRange(s)
  {
    && f < |s.fibers|
    && match s.fibers[f].pc
       case Out => false
       case WantList => s.c.None?
       case WantErase(_) => s.c.None?
       case WantWork => WorkOf(s, f).None?
       case Parked => s.fibers[f].state.Queued? && WorkOf(s, f).None?
       case WantLock => s.m.None?
       case _ => true
  }

  predicate CanNotifyStep(s: System, k: nat)
    requires InRange(s)
  {
    && k < |s.notifiers|
    && match s.notifiers[k].pc
       case WantC => s.c.None?
       case Iterating(i) => i < |s.list| ==> WorkOf(s, s.list[i]).None?
       case _ => false
  }

  /** A thread takes M before a work mutex, and leaves C to the condition variable. */
  predicate MayWant(s: System, t: nat, lock: Lock) {
    && t < |s.threads| && s.threads[t] == Thread(None, None)
    && match lock
       case MLock => s.m != Some(T(t))
       case CLock => false
       case WorkLock(i) => i < |s.work|
  }

  predicate CanLock(s: System, t: nat) {
    && t < |s.threads|
    && match s.threads[t].wants
       case Some(MLock) => s.m.None?
       case Some(WorkLock(i)) => i < |s.work| && s.work[i].None?
       case _ => false
  }

  predicate CanUnlock(s: System, t: nat, lock: Lock) {
    && t < |s.threads|
    && match lock
       case MLock => s.m == Some(T(t)) && s.threads[t].wants.None?
       case CLock => false
       case WorkLock(i) => i < |s.work| && s.threads[t].inWork == Some(i)
  }

  predicate Enabled(s: System, e: Event)
    requires InRange(s)
  {
    match e
    case Tick(t) => s.now <= t
    case Acquire(T(_)) => false
    case Release(T(_)) => false
    case Acquire(F(f)) => f < |s.fibers| && s.fibers[f].pc.Out? && s.m.None?
    case Acquire(N(k)) => k < |s.notifiers| && s.m.None? && (s.notifiers[k].pc.Idle? || s.notifiers[k].pc.Changed?)
    case Release(F(f)) => f < |s.fibers| && s.fibers[f].pc.Out? && s.m == Some(F(f))
    case Release(N(k)) => k < |s.notifiers| && s.m == Some(N(k))
        && (s.notifiers[k].pc.Ready? || s.notifiers[k].pc.Notified?)
    case Change(k, _) => k < |s.notifiers| && (s.notifiers[k].pc.Idle? || s.notifiers[k].pc.Holding?)
    case SkipLock(k) => k < |s.notifiers| && s.notifiers[k].pc.Changed?
    case StartWait(f, _) => f < |s.fibers| && s.fibers[f].pc.Out? && s.m == Some(F(f))
    case Step(f) => CanStep(s, f)
    case TimeOut(f) =>
      && f < |s.fibers| && s.fibers[f].pc.Parked? && s.fibers[f].state.Waiting? && WorkOf(s, f).None?
      && s.fibers[f].deadline.Some? && s.fibers[f].deadline.value <= s.now
    case StartNotify(k) => k < |s.notifiers| && s.notifiers[k].pc.Ready?
    case NotifyStep(k) => CanNotifyStep(s, k)
    case ThreadWants(t, lock) => MayWant(s, t, lock)
    case ThreadLocks(t) => CanLock(s, t)
    case ThreadUnlocks(t, lock) => CanUnlock(s, t, lock)
  }

  function SetFiber(s: System, f: FiberId, x: Fiber): (r: System)
    requires f < |s.fibers|
  {
    s.(fibers := s.fibers[f := x])
  }

  /** What a step does to the fiber itself. */
  function NextFiber(x: Fiber, predicateHolds: bool, changes: nat, now: int): (r: Fiber) {
    match x.pc
    case Out => x
    case Entry => x.(seen := changes, pc := if predicateHolds then Out else CountIn)
    case CountIn => x.(pc := WantList)
    case WantList => x.(pc := Test)
    case Test => x.(seen := changes, pc := if predicateHolds then WantErase(true) else WantWork)
    case WantWork => x.(pc := HasWork)
    case HasWork => x.(pc := Parking)
    case Parking => x.(state := if x.deadline.Some? then Waiting else Yielded, pc := Parked)
    case Parked => x.(state := Running, pc := WantLock)
    case WantLock => x.(pc := CheckTime)
    case CheckTime => x.(pc := if x.deadline.Some? && x.deadline.value <= now then WantErase(false) else Test)
    case WantErase(ok) => x.(pc := CountOut(ok))
    case CountOut(_) => x.(pc := Out)
  }

  /** What it does to `numWaiting`, ... */
  function NextCount(p: FiberPc, numWaiting: int): (r: int) {
    match p
    case CountIn => numWaiting + 1
    case CountOut(_) => numWaiting - 1
    case _ => numWaiting
  }

  /** ... to the waiting list, under C, ... */
  function NextList(p: FiberPc, f: FiberId, list: seq<FiberId>): (r: seq<FiberId>) {
    match p
    case WantList => [f] + list
    case WantErase(_) => RemoveOne(list, f)
    case _ => list
  }

  /** ... to the work mutex of its worker, ... */
  function NextWork(p: FiberPc, f: FiberId, held: Option<Actor>): (r: Option<Actor>) {
    match p
    case WantWork => Some(F(f))
    case Parking => None
    case _ => held
  }

  /** ... and to M. */
  function NextM(p: FiberPc, f: FiberId, m: Option<Actor>): (r: Option<Actor>) {
    match p
    case HasWork => None
    case WantLock => Some(F(f))
    case _ => m
  }

  function FiberStep(s: System, f: FiberId): (r: System)
    requires InRange(s) && f < |s.fibers|
  {
    var x := s.fibers[f];
    s.(fibers := s.fibers[f := NextFiber(x, s.predicateHolds, s.changes, s.now)],
       numWaiting := NextCount(x.pc, s.numWaiting),
       list := NextList(x.pc, f, s.list),
       work := s.work[x.worker := NextWork(x.pc, f, s.work[x.worker])],
       m := NextM(x.pc, f, s.m))
  }

  /** `Fiber::notify()`, seen from the handshake. */
  function Notify(s: System, f: FiberId): (r: System)
    requires f < |s.fibers|
  {
    var x := s.fibers[f];
    if x.state.Running? || x.state.Queued? then s else SetFiber(s, f, x.(state := Queued))
  }

  function SetNotifier(s: System, k: nat, x: Notifier): (r: System)
    requires k < |s.notifiers|
  {
    s.(notifiers := s.notifiers[k := x])
  }

  function NotifierStep(s: System, k: nat): (r: System)
    requires InRange(s) && CanNotifyStep(s, k)
  {
    var x := s.notifiers[k];
    match x.pc
    case WantC => SetNotifier(s, k, x.(pc := Iterating(0))).(c := Some(N(k)))
    case Iterating(i) =>
      if i < |s.list| then SetNotifier(Notify(s, s.list[i]), k, x.(pc := Iterating(i + 1)))
      else SetNotifier(s, k, x.(pc := Notified)).(c := None)
    case _ => s
  }

  function SetThread(s: System, t: nat, x: Thread): (r: System)
    requires t < |s.threads|
  {
    s.(threads := s.threads[t := x])
  }

  function LockStep(s: System, t: nat): (r: System)
    requires CanLock(s, t)
  {
    match s.threads[t].wants.value
    case MLock => SetThread(s, t, Thread(None, None)).(m := Some(T(t)))
    case CLock => s
    case WorkLock(i) => SetThread(s, t, Thread(None, Some(i))).(work := s.work[i := Some(T(t))])
  }

  function UnlockStep(s: System, t: nat, lock: Lock): (r: System)
    requires CanUnlock(s, t, lock)
  {
    match lock
    case MLock => s.(m := None)
    case CLock => s
    case WorkLock(i) => SetThread(s, t, Thread(None, None)).(work := s.work[i := None])
  }

  function Apply(s: System, e: Event): (r: System)
    requires InRange(s) && Enabled(s, e)
  {
    match e
    case Tick(t) => s.(now := t)
    case Acquire(T(_)) => s
    case Release(T(_)) => s
    case Acquire(F(f)) => s.(m := Some(F(f)))
    case Acquire(N(k)) =>
      var x := s.notifiers[k];
      SetNotifier(s, k, if x.pc.Changed? then x.(pc := Ready, ruled := true) else x.(pc := Holding)).(m := Some(N(k)))
    case Release(F(f)) => s.(m := None)
    case Release(N(k)) => s.(m := None)
    case Change(k, value) =>
      var held := s.notifiers[k].pc.Holding?;
      SetNotifier(s, k, Notifier(if held then Ready else Changed, s.changes + 1, held)).(
        predicateHolds := value, changes := s.changes + 1,
        unlocked := if held then s.unlocked else s.unlocked + {s.changes + 1})
    case SkipLock(k) => SetNotifier(s, k, s.notifiers[k].(pc := Ready))
    case StartWait(f, deadline) => SetFiber(s, f, s.fibers[f].(pc := Entry, deadline := deadline))
    case Step(f) => FiberStep(s, f)
    case TimeOut(f) => SetFiber(s, f, s.fibers[f].(state := Queued))
    case StartNotify(k) => SetNotifier(s, k, s.notifiers[k].(pc := if s.numWaiting == 0 then Notified else WantC))
    case NotifyStep(k) => NotifierStep(s, k)
    case ThreadWants(t, lock) => SetThread(s, t, Thread(Some(lock), None))
    case ThreadLocks(t) => LockStep(s, t)
    case ThreadUnlocks(t, lock) => UnlockStep(s, t, lock)
  }

  predicate Init(s: System) {
    && s.m.None? && s.c.None? && s.numWaiting == 0 && s.list == [] && s.unlocked == {} && s.changes == 0
    && (forall i :: 0 <= i < |s.work| ==> s.work[i].None?)
    && (forall f :: 0 <= f < |s.fibers| ==>
          s.fibers[f].pc.Out? && s.fibers[f].state.Running? && s.fibers[f].worker < |s.work| && s.fibers[f].seen == 0)
    && (forall k :: 0 <= k < |s.notifiers| ==> s.notifiers[k] == Notifier(Idle, 0, false))
    && (forall t :: 0 <= t < |s.threads| ==> s.threads[t] == Thread(None, None))
  }
}

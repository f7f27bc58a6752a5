/** All the workers of a scheduler, and what becomes of a task: it is enqueued on one worker, may be
    stolen any number of times before it starts, runs on one fiber, and finishes. */
module Stealing {
  import opened Common
  import opened WorkerModel
  import opened WorkerSafety
  import opened WorkerTheorems

  datatype Place =
    | Queue(worker: nat)                     // in a worker's task queue
    | Hand(worker: nat)                      // taken by a thief, not yet queued
    | OnFiber(worker: nat, fiber: FiberId)   // started, running or suspended
    | Completed

  /** `place`, `home` and `starts` are histories: where each enqueued task was last put, the worker
      it was first enqueued on, and the tasks started so far.  No step depends on them. */
  datatype Scheduler = Scheduler(
    workers: seq<Worker>,
    place: map<Task, Place>,
    home: map<Task, nat>,
    starts: seq<Task>)

  datatype Action =
    | Enqueue(worker: nat, task: Task)
    | Steal(thief: nat, victim: nat)
    | Local(worker: nat, event: Event)

  function HandOf(w: Worker): (t: Option<Task>)
    requires WellFormed(w)
  {
    HandAt(At(w))
  }

  function HandAt(p: Pc): (t: Option<Task>) {
    if p.Spinning? then p.hand else None
  }

  /** The task whose code a fiber with this program counter is in the middle of. */
  function TaskOf(p: Pc): (t: Option<Task>) {
    match JobOf(p)
    case Some(TaskCode(t)) => Some(t)
    case _ => None
  }

  /** The step takes a task from the queue and starts it. */
  predicate Starts(w: Worker, e: Event) {
    e.RunIdle? && w.fibers == [] && w.tasks != []
  }

  ghost predicate CanDo(s: Scheduler, a: Action) {
    match a
    case Enqueue(i, t) =>
      i < |s.workers| && WellFormed(s.workers[i]) && Enabled(s.workers[i], EnqueueTask(t)) && t !in s.place
    case Steal(i, v) =>
      && i < |s.workers| && v < |s.workers| && i != v
      && WellFormed(s.workers[v]) && Enabled(s.workers[v], StealOut) && s.workers[v].mode.MultiThreaded?
      && WellFormed(s.workers[i]) && Enabled(s.workers[i], SpinSteal(s.workers[v].tasks[0]))
    case Local(i, e) =>
      && i < |s.workers| && WellFormed(s.workers[i]) && Enabled(s.workers[i], e)
      && !e.EnqueueTask? && !e.StealOut? && !e.SpinSteal?
  }

  ghost function Do(s: Scheduler, a: Action): (r: Scheduler)
    requires CanDo(s, a)
  {
    match a
    case Enqueue(i, t) =>
      s.(workers := s.workers[i := Apply(s.workers[i], EnqueueTask(t))], place := s.place[t := Queue(i)],
          home := s.home[t := i])
    case Steal(i, v) =>
      var t := s.workers[v].tasks[0];
      s.(workers := s.workers[v := Apply(s.workers[v], StealOut)][i := Apply(s.workers[i], SpinSteal(t))],
         place := s.place[t := Hand(i)])
    case Local(i, e) =>
      var w := s.workers[i];
      var r := s.(workers := s.workers[i := Apply(w, e)]);
      if e.SpinLock? && HandOf(w).Some? then r.(place := s.place[HandOf(w).value := Queue(i)])
      else if Starts(w, e) then r.(place := s.place[w.tasks[0] := OnFiber(i, w.current)],
          starts := s.starts + [w.tasks[0]])
      else if e.EndJob? then r.(place := s.place[At(w).job.task := Completed])
      else r
  }

  // ---- what one event of a worker does to tasks ----

  /** What a step does to program counters and tasks, unless it starts or ends a task: only the
      current fiber moves, it stays in its task, a fiber may be added, and the queue and a thief's
      hand are kept but for enqueuing and stealing. */
  ghost predicate Effects(w: Worker, e: Event, r: Worker)
    requires WellFormed(w)
  {
    && |w.pc| <= |r.pc|
    && (forall f :: 0 <= f < |w.pc| && f != w.current ==> r.pc[f] == w.pc[f])
    && (forall f :: |w.pc| <= f < |r.pc| ==> r.pc[f].RunEntry?)
    && (!e.SpinSteal? && !e.SpinLock? ==> HandAt(r.pc[w.current]) == HandAt(At(w)))
    && (!Starts(w, e) && !e.EndJob? ==> TaskOf(r.pc[w.current]) == TaskOf(At(w)))
    && (!Starts(w, e) && !e.EnqueueTask? && !e.StealOut? && !e.SpinLock? ==> r.tasks == w.tasks)
  }

  lemma OutsideEffects(w: Worker, e: Event)
    requires WellFormed(w) && Enabled(w, e)
    requires e.EnqueueTask? || e.EnqueueFiber? || e.StealOut? || e.NotifyOne? || e.Tick? || e.SetShutdown?
    ensures Effects(w, e, Apply(w, e))
  {
  }

  /** A step that moves the current fiber from one place to another one in the same task. */
  lemma MoveEffects(w: Worker, e: Event, r: Worker, p: Pc)
    requires WellFormed(w) && r.pc == w.pc[w.current := p] && r.tasks == w.tasks
    requires HandAt(p) == HandAt(At(w)) && TaskOf(p) == TaskOf(At(w))
    ensures Effects(w, e, r)
  {
    hide Starts;
  }

  lemma LoopEffects(w: Worker, e: Event)
    requires WellFormed(w) && Enabled(w, e)
    requires e.ThreadStart? || e.EnterRun? || e.TestLoop?
    ensures Effects(w, e, Apply(w, e))
  {
    hide Effects, NextDeadline, QueueAll, RemoveAll, ExpiredOrder, WakeCondition, StartCondition, WorkCondition;
    var r := Apply(w, e);
    assert w.pc[w.current := At(w)] == w.pc;
    MoveEffects(w, e, r, r.pc[w.current]);
  }

  lemma ReawakeEffects(w: Worker, e: Event)
    requires WellFormed(w) && Enabled(w, e) && (e.Reawake? || e.StopSingle?)
    ensures Effects(w, e, Apply(w, e))
  {
    hide Effects, NextDeadline, QueueAll, RemoveAll, ExpiredOrder, WakeCondition, StartCondition, WorkCondition;
    var r := Apply(w, e);
    assert w.pc[w.current := At(w)] == w.pc;
    MoveEffects(w, e, r, r.pc[w.current]);
  }

  lemma WaitEffects(w: Worker, e: Event)
    requires WellFormed(w) && Enabled(w, e) && (e.EnterWait? || e.EnterWorkWait?)
    ensures Effects(w, e, Apply(w, e))
  {
    hide Effects, NextDeadline, QueueAll, RemoveAll, ExpiredOrder, WakeCondition, StartCondition, WorkCondition;
    var r := Apply(w, e);
    assert w.pc[w.current := At(w)] == w.pc;
    MoveEffects(w, e, r, r.pc[w.current]);
  }

  lemma AfterWorkEffects(w: Worker, e: Event)
    requires WellFormed(w) && Enabled(w, e) && e.AfterWork?
    ensures Effects(w, e, Apply(w, e))
  {
    hide Effects, NextDeadline, QueueAll, RemoveAll, ExpiredOrder, WakeCondition, StartCondition, WorkCondition;
    var r := Apply(w, e);
    assert w.pc[w.current := At(w)] == w.pc;
    MoveEffects(w, e, r, r.pc[w.current]);
  }

  lemma SpinEffects(w: Worker, e: Event)
    requires WellFormed(w) && Enabled(w, e) && (e.SpinSteal? || e.SpinLock?)
    ensures Effects(w, e, Apply(w, e))
  {
    hide QueueAll, RemoveAll, ExpiredOrder;
  }

  lemma ResumeEffects(w: Worker, e: Event)
    requires WellFormed(w) && Enabled(w, e) && (e.ResumeIdle? || e.ResumeSuspended? || e.StartSuspend?)
    ensures Effects(w, e, Apply(w, e))
  {
    hide Effects, NextDeadline, QueueAll, RemoveAll, ExpiredOrder, WakeCondition, StartCondition, WorkCondition;
    var r := Apply(w, e);
    assert w.pc[w.current := At(w)] == w.pc;
    MoveEffects(w, e, r, r.pc[w.current]);
  }

  lemma IdleEffects(w: Worker, e: Event)
    requires WellFormed(w) && Enabled(w, e) && e.RunIdle?
    ensures Effects(w, e, Apply(w, e))
  {
    hide QueueAll, RemoveAll, ExpiredOrder, NextDeadline;
  }

  lemma EndJobEffects(w: Worker, e: Event)
    requires WellFormed(w) && Enabled(w, e) && e.EndJob?
    ensures Effects(w, e, Apply(w, e))
  {
  }

  lemma SwitchEffects(w: Worker, e: Event)
    requires WellFormed(w) && Enabled(w, e) && e.SwitchOut?
    ensures Effects(w, e, Apply(w, e))
  {
    hide QueueAll, RemoveAll, ExpiredOrder;
  }

  lemma LeaveEffects(w: Worker)
    requires WellFormed(w) && Enabled(w, LeaveRun)
    ensures Effects(w, LeaveRun, Apply(w, LeaveRun))
  {
    hide QueueAll, RemoveAll, ExpiredOrder;
  }

  lemma AllEffects(w: Worker, e: Event)
    requires WellFormed(w) && Enabled(w, e)
    ensures Effects(w, e, Apply(w, e))
  {
    hide Apply, Enabled, Effects;
    match e
    case EnqueueTask(_) | EnqueueFiber(_) | StealOut | NotifyOne | Tick(_) | SetShutdown => OutsideEffects(w, e);
    case ThreadStart | EnterRun | TestLoop => LoopEffects(w, e);
    case Reawake | StopSingle => ReawakeEffects(w, e);
    case EnterWait | EnterWorkWait => WaitEffects(w, e);
    case AfterWork(_) => AfterWorkEffects(w, e);
    case SpinSteal(_) | SpinLock => SpinEffects(w, e);
    case ResumeIdle | ResumeSuspended | StartSuspend(_) => ResumeEffects(w, e);
    case RunIdle => IdleEffects(w, e);
    case EndJob => EndJobEffects(w, e);
    case SwitchOut(_) => SwitchEffects(w, e);
    case LeaveRun => LeaveEffects(w);
  }

  /** A step other than the thief's own keeps what the worker thread has in hand. */
  lemma HandKept(w: Worker, e: Event)
    requires Inv(w) && Enabled(w, e) && !e.SpinSteal? && !e.SpinLock?
    ensures WellFormed(Apply(w, e)) && HandOf(Apply(w, e)) == HandOf(w)
  {
    hide Inv, Apply, Enabled;
    StepInv(w, e);
    Shape(w);
    Shape(Apply(w, e));
    if Apply(w, e).current != w.current {
      SwitchTarget(w, e);
      SwitchHasNoHand(w, e);
    } else {
      AllEffects(w, e);
    }
  }

  lemma SwitchHasNoHand(w: Worker, e: Event)
    requires WellFormed(w) && Enabled(w, e) && Apply(w, e).current != w.current
    ensures HandOf(w) == None
  {
    if !e.RunIdle? && !e.SwitchOut? && !e.LeaveRun? {
      OthersStay(w, e);
    }
  }

  // ---- workers seen as holders of tasks ----

  /** The tasks of one worker: queued, in the thief's hand, and on each fiber. */
  datatype Tasks = Tasks(queue: seq<Task>, hand: Option<Task>, on: seq<Option<Task>>)

  ghost function View(w: Worker): (v: Tasks)
    requires WellFormed(w)
    ensures |v.on| == |w.pc|
  {
    Tasks(w.tasks, HandOf(w), seq(|w.pc|, f requires 0 <= f < |w.pc| => TaskOf(w.pc[f])))
  }

  /** What an event does to the tasks of the worker. */
  function Change(v: Tasks, e: Event, starts: bool, f: FiberId, fibers: nat): (r: Tasks)
    requires f < |v.on| <= fibers
  {
    if starts && v.queue != [] then v.(queue := v.queue[1..], on := v.on[f := Some(v.queue[0])])
    else match e
      case EnqueueTask(t) => v.(queue := v.queue + [t])
      case StealOut => if v.queue == [] then v else v.(queue := v.queue[1..])
      case SpinSteal(t) => v.(hand := Some(t))
      case SpinLock => if v.hand.Some? then v.(queue := v.queue + [v.hand.value], hand := None) else v
      case EndJob => v.(on := v.on[f := None])
      case _ => v.(on := v.on + seq(fibers - |v.on|, _ => None))
  }

  lemma OrdinaryView(w: Worker, e: Event)
    requires Inv(w) && Enabled(w, e) && !Starts(w, e)
    requires !e.EnqueueTask? && !e.StealOut? && !e.SpinSteal? && !e.SpinLock? && !e.EndJob?
    ensures |w.pc| <= |Apply(w, e).pc| && WellFormed(Apply(w, e))
    ensures View(Apply(w, e)) == Change(View(w), e, false, w.current, |Apply(w, e).pc|)
  {
    hide Apply, Enabled, Inv;
    assert WellFormed(w) by { Shape(w); }
    AllEffects(w, e);
    HandKept(w, e);
    var r := Apply(w, e);
    assert View(r).on == View(w).on + seq(|r.pc| - |w.pc|, _ => None);
  }

  lemma QueueView(w: Worker, e: Event)
    requires WellFormed(w) && Enabled(w, e)
    requires e.EnqueueTask? || e.StealOut? || e.SpinSteal? || e.SpinLock?
    ensures |w.pc| <= |Apply(w, e).pc| && WellFormed(Apply(w, e))
    ensures View(Apply(w, e)) == Change(View(w), e, Starts(w, e), w.current, |Apply(w, e).pc|)
  {
    var r := Apply(w, e);
    assert View(r).on == Change(View(w), e, Starts(w, e), w.current, |r.pc|).on;
  }

  lemma FiberView(w: Worker, e: Event)
    requires WellFormed(w) && Enabled(w, e) && (e.EndJob? || Starts(w, e))
    ensures |w.pc| <= |Apply(w, e).pc| && WellFormed(Apply(w, e))
    ensures View(Apply(w, e)) == Change(View(w), e, Starts(w, e), w.current, |Apply(w, e).pc|)
  {
    var r := Apply(w, e);
    assert View(r).on == Change(View(w), e, Starts(w, e), w.current, |r.pc|).on;
  }

  // ---- conservation ----

  predicate InRange(vs: seq<Tasks>, p: Place) {
    match p
    case Queue(i) => i < |vs|
    case Hand(i) => i < |vs|
    case OnFiber(i, f) => i < |vs| && f < |vs[i].on|
    case Completed => true
  }

  /** `place` names the one place that a task occupies. */
  ghost predicate Located(vs: seq<Tasks>, place: map<Task, Place>) {
    && (forall t, i :: 0 <= i < |vs| ==> (t in vs[i].queue <==> t in place && place[t] == Queue(i)))
    && (forall t, i :: 0 <= i < |vs| ==> (vs[i].hand == Some(t) <==> t in place && place[t] == Hand(i)))
    && (forall t, i, f :: 0 <= i < |vs| && 0 <= f < |vs[i].on| ==>
          (vs[i].on[f] == Some(t) <==> t in place && place[t] == OnFiber(i, f)))
    && (forall i :: 0 <= i < |vs| ==> NoDuplicates(vs[i].queue))
    && (forall t :: t in place ==> InRange(vs, place[t]))
  }

  /** A task that must stay on its thread is on the worker it was enqueued on. */
  ghost predicate AtHome(place: map<Task, Place>, home: map<Task, nat>) {
    forall t :: t in place ==> t in home && (t.sameThread && !place[t].Completed? ==> place[t].worker == home[t])
  }

  /** Exactly the tasks that left the queues for good have been started, each once. */
  ghost predicate StartedOnce(place: map<Task, Place>, starts: seq<Task>) {
    && NoDuplicates(starts)
    && forall t :: t in starts <==> t in place && (place[t].OnFiber? || place[t].Completed?)
  }

  // Moving a task is taking it from one place and putting it at another.

  lemma HeadOfQueue(q: seq<Task>)
    requires q != [] && NoDuplicates(q)
    ensures NoDuplicates(q[1..]) && forall t :: t in q[1..] <==> t in q && t != q[0]
  {
  }

  lemma TakeQueued(vs: seq<Tasks>, place: map<Task, Place>, i: nat)
    requires Located(vs, place) && i < |vs| && vs[i].queue != []
    ensures Located(vs[i := vs[i].(queue := vs[i].queue[1..])], place - {vs[i].queue[0]})
  {
    HeadOfQueue(vs[i].queue);
    assert vs[i].queue[0] in vs[i].queue;
    hide NoDuplicates;
  }

  lemma TakeHand(vs: seq<Tasks>, place: map<Task, Place>, i: nat)
    requires Located(vs, place) && i < |vs| && vs[i].hand.Some?
    ensures Located(vs[i := vs[i].(hand := None)], place - {vs[i].hand.value})
  {
    hide NoDuplicates;
  }

  lemma TakeRunning(vs: seq<Tasks>, place: map<Task, Place>, i: nat, f: FiberId)
    requires Located(vs, place) && i < |vs| && f < |vs[i].on| && vs[i].on[f].Some?
    ensures Located(vs[i := vs[i].(on := vs[i].on[f := None])], place - {vs[i].on[f].value})
  {
    hide NoDuplicates;
  }

  lemma PutQueued(vs: seq<Tasks>, place: map<Task, Place>, i: nat, t: Task)
    requires Located(vs, place) && i < |vs| && t !in place
    ensures Located(vs[i := vs[i].(queue := vs[i].queue + [t])], place[t := Queue(i)])
  {
  }

  lemma PutHand(vs: seq<Tasks>, place: map<Task, Place>, i: nat, t: Task)
    requires Located(vs, place) && i < |vs| && t !in place && vs[i].hand.None?
    ensures Located(vs[i := vs[i].(hand := Some(t))], place[t := Hand(i)])
  {
    hide NoDuplicates;
  }

  lemma PutRunning(vs: seq<Tasks>, place: map<Task, Place>, i: nat, f: FiberId, t: Task)
    requires Located(vs, place) && i < |vs| && f < |vs[i].on| && t !in place && vs[i].on[f].None?
    ensures Located(vs[i := vs[i].(on := vs[i].on[f := Some(t)])], place[t := OnFiber(i, f)])
  {
    hide NoDuplicates;
  }

  lemma PutCompleted(vs: seq<Tasks>, place: map<Task, Place>, t: Task)
    requires Located(vs, place) && t !in place
    ensures Located(vs, place[t := Completed])
  {
    hide NoDuplicates;
  }

  lemma AddFibers(vs: seq<Tasks>, place: map<Task, Place>, i: nat, n: nat)
    requires Located(vs, place) && i < |vs|
    ensures Located(vs[i := vs[i].(on := vs[i].on + seq(n, _ => None))], place)
  {
    hide NoDuplicates;
  }

  // ---- every action keeps the books ----

  ghost predicate AllWellFormed(ws: seq<Worker>) {
    forall i :: 0 <= i < |ws| ==> WellFormed(ws[i])
  }

  ghost predicate AllInv(ws: seq<Worker>) {
    AllWellFormed(ws) && forall i :: 0 <= i < |ws| ==> Inv(ws[i])
  }

  ghost function Views(ws: seq<Worker>): (vs: seq<Tasks>)
    requires AllWellFormed(ws)
    ensures |vs| == |ws|
  {
    seq(|ws|, i requires 0 <= i < |ws| => View(ws[i]))
  }

  ghost predicate Books(s: Scheduler) {
    && AllInv(s.workers)
    && Located(Views(s.workers), s.place)
    && AtHome(s.place, s.home)
    && StartedOnce(s.place, s.starts)
  }

  lemma ViewAt(ws: seq<Worker>, i: nat)
    requires AllInv(ws) && i < |ws|
    ensures
      var v, w := Views(ws)[i], ws[i];
      && v == View(w) && v.queue == w.tasks && v.hand == HandOf(w)
      && |v.on| == |w.pc| && v.on[w.current] == TaskOf(At(w))
  {
    hide Inv;
  }

  /** One step of worker `i` changes only its own tasks. */
  lemma StepViews(ws: seq<Worker>, i: nat, e: Event)
    requires AllInv(ws) && i < |ws| && Enabled(ws[i], e)
    ensures |ws[i].pc| <= |Apply(ws[i], e).pc| && |Views(ws)[i].on| == |ws[i].pc|
    ensures AllInv(ws[i := Apply(ws[i], e)])
    ensures Views(ws[i := Apply(ws[i], e)]) ==
            Views(ws)[i := Change(Views(ws)[i], e, Starts(ws[i], e), ws[i].current, |Apply(ws[i], e).pc|)]
  {
    hide Inv, Apply, Enabled, Change;
    var w := ws[i];
    StepInv(w, e);
    Shape(Apply(w, e));
    if e.EnqueueTask? || e.StealOut? || e.SpinSteal? || e.SpinLock? {
      QueueView(w, e);
    } else if e.EndJob? || Starts(w, e) {
      FiberView(w, e);
    } else {
      OrdinaryView(w, e);
    }
  }

  lemma EnqueueBooks(s: Scheduler, i: nat, t: Task)
    requires Books(s) && CanDo(s, Enqueue(i, t))
    ensures Books(Do(s, Enqueue(i, t)))
  {
    hide Inv, Apply, Enabled, Located, View, Views, Starts;
    NotStarting(s.workers[i], EnqueueTask(t));
    StepViews(s.workers, i, EnqueueTask(t));
    PutQueued(Views(s.workers), s.place, i, t);
  }

  lemma NotStarting(w: Worker, e: Event)
    requires !e.RunIdle?
    ensures !Starts(w, e)
  {
  }

  lemma StealGuard(w: Worker, u: Worker)
    requires WellFormed(w) && WellFormed(u) && Enabled(u, StealOut) && Enabled(w, SpinSteal(u.tasks[0]))
    ensures u.tasks != [] && !u.tasks[0].sameThread && HandOf(w).None?
  {
  }

  lemma StealBooks(s: Scheduler, i: nat, v: nat)
    requires Books(s) && CanDo(s, Steal(i, v))
    ensures Books(Do(s, Steal(i, v)))
  {
    hide Inv, Apply, Enabled, Located, View, Views, Starts, NoDuplicates, HandOf;
    var ws, vs := s.workers, Views(s.workers);
    StealGuard(ws[i], ws[v]);
    var t := ws[v].tasks[0];
    NotStarting(ws[v], StealOut);
    NotStarting(ws[i], SpinSteal(t));
    ViewAt(ws, i);
    ViewAt(ws, v);
    InQueue(vs, s.place, v);
    StepViews(ws, v, StealOut);
    TakeQueued(vs, s.place, v);
    StepViews(ws[v := Apply(ws[v], StealOut)], i, SpinSteal(t));
    PutHand(vs[v := vs[v].(queue := vs[v].queue[1..])], s.place - {t}, i, t);
    assert (s.place - {t})[t := Hand(i)] == s.place[t := Hand(i)];
  }

  /** The head of a queue has not been started. */
  lemma InQueue(vs: seq<Tasks>, place: map<Task, Place>, i: nat)
    requires Located(vs, place) && i < |vs| && vs[i].queue != []
    ensures vs[i].queue[0] in place && place[vs[i].queue[0]] == Queue(i)
  {
    assert vs[i].queue[0] in vs[i].queue;
  }

  lemma InHand(vs: seq<Tasks>, place: map<Task, Place>, i: nat)
    requires Located(vs, place) && i < |vs| && vs[i].hand.Some?
    ensures vs[i].hand.value in place && place[vs[i].hand.value] == Hand(i)
  {
  }

  lemma OnItsFiber(vs: seq<Tasks>, place: map<Task, Place>, i: nat, f: FiberId)
    requires Located(vs, place) && i < |vs| && f < |vs[i].on| && vs[i].on[f].Some?
    ensures vs[i].on[f].value in place && place[vs[i].on[f].value] == OnFiber(i, f)
  {
  }

  lemma SpinLockBooks(s: Scheduler, i: nat)
    requires Books(s) && CanDo(s, Local(i, SpinLock))
    ensures Books(Do(s, Local(i, SpinLock)))
  {
    hide Inv, Apply, Enabled, Located, View, Views, Starts, NoDuplicates, HandOf;
    var ws, vs := s.workers, Views(s.workers);
    NotStarting(ws[i], SpinLock);
    ViewAt(ws, i);
    StepViews(ws, i, SpinLock);
    if vs[i].hand.Some? {
      var t := vs[i].hand.value;
      InHand(vs, s.place, i);
      TakeHand(vs, s.place, i);
      var taken := vs[i].(hand := None);
      PutQueued(vs[i := taken], s.place - {t}, i, t);
      assert vs[i := taken][i := taken.(queue := taken.queue + [t])] == vs[i := taken.(queue := taken.queue + [t])];
      assert (s.place - {t})[t := Queue(i)] == s.place[t := Queue(i)];
    } else {
      assert vs[i := vs[i]] == vs;
    }
  }

  lemma StartGuard(w: Worker)
    requires WellFormed(w) && Enabled(w, RunIdle) && Starts(w, RunIdle)
    ensures w.tasks != [] && TaskOf(At(w)).None?
  {
  }

  lemma StartBooks(s: Scheduler, i: nat)
    requires Books(s) && CanDo(s, Local(i, RunIdle)) && Starts(s.workers[i], RunIdle)
    ensures Books(Do(s, Local(i, RunIdle)))
  {
    hide Inv, Apply, Enabled, Located, View, Views, Starts, HandOf;
    var ws, vs, f := s.workers, Views(s.workers), s.workers[i].current;
    StartGuard(ws[i]);
    ViewAt(ws, i);
    var t := ws[i].tasks[0];
    InQueue(vs, s.place, i);
    StepViews(ws, i, RunIdle);
    TakeQueued(vs, s.place, i);
    var taken := vs[i].(queue := vs[i].queue[1..]);
    PutRunning(vs[i := taken], s.place - {t}, i, f, t);
    assert vs[i := taken][i := taken.(on := taken.on[f := Some(t)])] == vs[i := taken.(on := taken.on[f := Some(t)])];
    assert t !in s.starts;
    assert (s.place - {t})[t := OnFiber(i, f)] == s.place[t := OnFiber(i, f)];
  }

  lemma EndGuard(w: Worker)
    requires WellFormed(w) && Enabled(w, EndJob)
    ensures At(w).InJob? && At(w).job.TaskCode? && TaskOf(At(w)) == Some(At(w).job.task)
  {
  }

  lemma EndBooks(s: Scheduler, i: nat)
    requires Books(s) && CanDo(s, Local(i, EndJob))
    ensures Books(Do(s, Local(i, EndJob)))
  {
    hide Inv, Apply, Enabled, Located, View, Views, Starts, NoDuplicates, HandOf;
    var ws, vs, f := s.workers, Views(s.workers), s.workers[i].current;
    EndGuard(ws[i]);
    NotStarting(ws[i], EndJob);
    ViewAt(ws, i);
    var t := At(ws[i]).job.task;
    OnItsFiber(vs, s.place, i, f);
    StepViews(ws, i, EndJob);
    TakeRunning(vs, s.place, i, f);
    PutCompleted(vs[i := vs[i].(on := vs[i].on[f := None])], s.place - {t}, t);
    assert (s.place - {t})[t := Completed] == s.place[t := Completed];
  }

  lemma OrdinaryBooks(s: Scheduler, i: nat, e: Event)
    requires Books(s) && CanDo(s, Local(i, e)) && !e.SpinLock? && !Starts(s.workers[i], e) && !e.EndJob?
    ensures Books(Do(s, Local(i, e)))
  {
    hide Inv, Apply, Enabled, Located, View, Views, Starts, NoDuplicates, HandOf;
    StepViews(s.workers, i, e);
    AddFibers(Views(s.workers), s.place, i, |Apply(s.workers[i], e).pc| - |s.workers[i].pc|);
  }

  lemma ActionBooks(s: Scheduler, a: Action)
    requires Books(s) && CanDo(s, a)
    ensures Books(Do(s, a))
  {
    hide Books, CanDo, Do;
    match a
    case Enqueue(i, t) => EnqueueBooks(s, i, t);
    case Steal(i, v) => StealBooks(s, i, v);
    case Local(i, e) =>
      assert i < |s.workers| by { ActionWorker(s, a); }
      if e.SpinLock? {
        SpinLockBooks(s, i);
      } else if Starts(s.workers[i], e) {
        StartBooks(s, i);
      } else if e.EndJob? {
        EndBooks(s, i);
      } else {
        OrdinaryBooks(s, i, e);
      }
  }

  lemma ActionWorker(s: Scheduler, a: Action)
    requires CanDo(s, a) && a.Local?
    ensures a.worker < |s.workers|
  {
  }

  // ---- runs of the whole scheduler ----

  datatype History = History(states: seq<Scheduler>, actions: seq<Action>)

  ghost predicate IsHistory(h: History) {
    && |h.states| == |h.actions| + 1
    && Fresh(h.states[0])
    && forall k :: 0 <= k < |h.actions| ==>
         CanDo(h.states[k], h.actions[k]) && h.states[k + 1] == Do(h.states[k], h.actions[k])
  }

  /** Any number of workers, just started, and no task. */
  predicate Fresh(s: Scheduler) {
    (forall i :: 0 <= i < |s.workers| ==> Init(s.workers[i])) && s.place == map[] && s.home == map[] && s.starts == []
  }

  lemma FreshBooks(s: Scheduler)
    requires Fresh(s)
    ensures Books(s)
  {
    forall i | 0 <= i < |s.workers| ensures WellFormed(s.workers[i]) && Inv(s.workers[i]) {
      InitInv(s.workers[i]);
    }
    forall i | 0 <= i < |s.workers| ensures View(s.workers[i]) == Tasks([], None, [None]) {
    }
    hide Inv, View, Init;
  }

  lemma {:induction false} HistoryBooks(h: History, k: nat)
    requires IsHistory(h) && k < |h.states|
    ensures Books(h.states[k])
  {
    hide Books, CanDo, Do, Fresh;
    if k == 0 {
      FreshBooks(h.states[0]);
    } else {
      HistoryBooks(h, k - 1);
      ActionBooks(h.states[k - 1], h.actions[k - 1]);
    }
  }

  /** A task is at place `p` according to the workers themselves. */
  ghost predicate Occupies(s: Scheduler, t: Task, p: Place)
    requires AllWellFormed(s.workers)
  {
    match p
    case Queue(i) => i < |s.workers| && t in s.workers[i].tasks
    case Hand(i) => i < |s.workers| && HandOf(s.workers[i]) == Some(t)
    case OnFiber(i, f) => i < |s.workers| && f < |s.workers[i].pc| && TaskOf(s.workers[i].pc[f]) == Some(t)
    case Completed => false
  }

  /** Task conservation: in every state of every run, every enqueued task occupies exactly one
      place, or none once it has completed; and nothing else occupies a place. */
  lemma TasksAreConserved(h: History, k: nat, t: Task)
    requires IsHistory(h) && k < |h.states|
    ensures
      var s := h.states[k];
      && AllWellFormed(s.workers)
      && (t in s.place && !s.place[t].Completed? ==> Occupies(s, t, s.place[t]))
      && (forall p :: Occupies(s, t, p) ==> t in s.place && p == s.place[t])
      && (forall i :: 0 <= i < |s.workers| ==> NoDuplicates(s.workers[i].tasks))
  {
    hide IsHistory, CanDo, Do, Inv, AtHome, StartedOnce, NoDuplicates;
    HistoryBooks(h, k);
    var s := h.states[k];
    ViewsAgree(s, t);
  }

  lemma ViewsAgree(s: Scheduler, t: Task)
    requires AllInv(s.workers) && Located(Views(s.workers), s.place)
    ensures t in s.place && !s.place[t].Completed? ==> Occupies(s, t, s.place[t])
    ensures forall p :: Occupies(s, t, p) ==> t in s.place && p == s.place[t]
    ensures forall i :: 0 <= i < |s.workers| ==> NoDuplicates(s.workers[i].tasks)
  {
    hide Inv, NoDuplicates;
    var vs := Views(s.workers);
    assert forall i :: 0 <= i < |vs| ==> vs[i].queue == s.workers[i].tasks && vs[i].hand == HandOf(s.workers[i]);
    assert forall i, f :: 0 <= i < |vs| && 0 <= f < |vs[i].on| ==> vs[i].on[f] == TaskOf(s.workers[i].pc[f]);
  }

  /** No task is started twice, over the whole run. */
  lemma NoTaskStartsTwice(h: History, k: nat)
    requires IsHistory(h) && k < |h.states|
    ensures NoDuplicates(h.states[k].starts)
  {
    hide IsHistory, CanDo, Do, Inv;
    HistoryBooks(h, k);
  }

  /** A SameThread task stays on the worker it was enqueued on until it has finished. */
  lemma SameThreadStaysHome(h: History, k: nat, t: Task, p: Place)
    requires IsHistory(h) && k < |h.states| && t.sameThread
    requires AllWellFormed(h.states[k].workers) && Occupies(h.states[k], t, p)
    ensures t in h.states[k].home && p.worker == h.states[k].home[t]
  {
    hide IsHistory, CanDo, Do, Inv, Located, StartedOnce;
    HistoryBooks(h, k);
    TasksAreConserved(h, k, t);
  }

  // ---- the histories say what happened ----

  /** The home of a task is the worker it was enqueued on. */
  lemma {:induction false} HomeIsEnqueuer(h: History, k: nat, t: Task)
    requires IsHistory(h) && k < |h.states| && t in h.states[k].home
    ensures exists j :: 0 <= j < k && h.actions[j] == Enqueue(h.states[k].home[t], t)
  {
    hide CanDo, Apply, Enabled;
    assert k > 0;
    var s, a := h.states[k - 1], h.actions[k - 1];
    assert CanDo(s, a) && h.states[k] == Do(s, a);
    if !(a.Enqueue? && a.task == t) {
      HomeStep(s, a, t);
      HomeIsEnqueuer(h, k - 1, t);
    } else {
      HomeStep(s, a, t);
    }
  }

  lemma HomeStep(s: Scheduler, a: Action, t: Task)
    requires CanDo(s, a)
    ensures
      var r := Do(s, a);
      && (t in s.place ==> t in r.place)
      && (if a.Enqueue? && a.task == t then t in r.home && r.home[t] == a.worker && t in r.place && t !in s.place
          else (t in r.home <==> t in s.home) && (t in s.home ==> r.home[t] == s.home[t]))
  {
    hide Apply, Enabled;
  }

  /** A task is enqueued once, and keeps its home from then on. */
  lemma {:induction false} HomeIsKept(h: History, j: nat, k: nat)
    requires IsHistory(h) && j < k < |h.states| && h.actions[j].Enqueue?
    ensures
      var t, s := h.actions[j].task, h.states[k];
      t in s.place && t in s.home && s.home[t] == h.actions[j].worker
    decreases k
  {
    hide CanDo, Do;
    assert CanDo(h.states[k - 1], h.actions[k - 1]) && h.states[k] == Do(h.states[k - 1], h.actions[k - 1]);
    HomeStep(h.states[k - 1], h.actions[k - 1], h.actions[j].task);
    if j < k - 1 {
      HomeIsKept(h, j, k - 1);
    }
  }

  /** Action `j` is the end of task `t`, on the worker that ran it. */
  ghost predicate Ends(h: History, j: nat, t: Task)
    requires IsHistory(h) && j < |h.actions|
  {
    && h.actions[j].Local? && h.actions[j].event.EndJob?
    && CanDo(h.states[j], h.actions[j]) && At(h.states[j].workers[h.actions[j].worker]).job.task == t
  }

  /** A task has completed only by running to its end. */
  lemma {:induction false} CompletedByEnd(h: History, k: nat, t: Task)
    requires IsHistory(h) && k < |h.states| && t in h.states[k].place && h.states[k].place[t].Completed?
    ensures exists j :: 0 <= j < k && Ends(h, j, t)
  {
    hide Apply, Enabled;
    assert k > 0;
    var s, a := h.states[k - 1], h.actions[k - 1];
    assert CanDo(s, a) && h.states[k] == Do(s, a);
    if t in s.place && s.place[t].Completed? {
      CompletedByEnd(h, k - 1, t);
    } else {
      assert Ends(h, k - 1, t);
    }
  }

  /** The tasks started by the first actions, in order. */
  ghost function StartedBy(h: History, k: nat): (q: seq<Task>)
    requires IsHistory(h) && k <= |h.actions|
  {
    if k == 0 then []
    else
      var s, a := h.states[k - 1], h.actions[k - 1];
      assert CanDo(s, a);
      StartedBy(h, k - 1) +
      if a.Local? && Starts(s.workers[a.worker], a.event) then [s.workers[a.worker].tasks[0]] else []
  }

  /** `starts` lists the tasks that were started, in order. */
  lemma {:induction false} StartsAreRecorded(h: History, k: nat)
    requires IsHistory(h) && k < |h.states|
    ensures h.states[k].starts == StartedBy(h, k)
  {
    hide Apply, Enabled;
    if k > 0 {
      StartsAreRecorded(h, k - 1);
      assert CanDo(h.states[k - 1], h.actions[k - 1]) && h.states[k] == Do(h.states[k - 1], h.actions[k - 1]);
    }
  }
}

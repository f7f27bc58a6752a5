/** `DAG::run()` as a transition system over every interleaving of the invocations.

    Every call of `invoke()` has a number, from the moment when `notify()` returned true for its
    node.  A node may be invoked more than once.  A call ends with a call of `invoke()` on the last
    ready child, so that one call at a time stands for the thread that works on it. */
module DagRun {
  import opened Common
  import opened Sums
  import opened Dag

  type CallId = nat

  /** Where the loop of `invoke()` is after `notify()` returned true for the node of call `child`
      while another one was already waiting to be invoked. */
  datatype Step = AtLoop | Adding(child: CallId) | Spawning(child: CallId)

  /** `inTask` tells a call inside a scheduled task from the one on the caller of `run()`. */
  datatype Place =
    | Held(holder: CallId)                                // the `toInvoke` or next one of `holder`
    | Scheduled                                           // in a scheduled task that has not begun
    | Working(inTask: bool)                               // the work function of its node runs
    | Notifying(inTask: bool, next: nat, toInvoke: Option<CallId>, step: Step)
    | Finishing                                           // its task is about to call wg.done()
    | Done

  datatype Call = Call(node: Node, place: Place)

  datatype Main = Invoking | InWait | Returned

  /** `started` is the history of work functions called. */
  datatype Exec = Exec(calls: seq<Call>, counters: seq<int>, wg: int, main: Main, started: seq<Node>)

  datatype Event =
    | Begin(call: CallId)
    | EndWork(call: CallId)
    | Notify(call: CallId)
    | AddOne(call: CallId)
    | Spawn(call: CallId)
    | Inline(call: CallId)
    | Return(call: CallId)
    | FinishTask(call: CallId)
    | WaitReturn

  predicate Init(d: Dag, s: Exec) {
    s == Exec([Call(ROOT, Working(false))], d.initialCounters, 0, Invoking, [ROOT])
  }

  /** How many of its `outs` outs a call has notified. */
  function Progress(p: Place, outs: nat): (n: nat) {
    match p
    case Notifying(_, next, _, step) => if step.AtLoop? then next else next + 1
    case Finishing => outs
    case Done => outs
    case _ => 0
  }

  predicate Looping(p: Place) {
    p.Notifying? && p.step.AtLoop?
  }

  /** What the steps of a call index is in range, when there are `n` calls. */
  predicate InRange(d: Dag, n: nat, x: Call) {
    && x.node < |d.outs| && Progress(x.place, |d.outs[x.node]|) <= |d.outs[x.node]|
    && (x.place.Notifying? ==>
          && (x.place.toInvoke.Some? ==> x.place.toInvoke.value < n)
          && (!x.place.step.AtLoop? ==> x.place.toInvoke.Some? && x.place.step.child < n))
  }

  predicate Sane(d: Dag, s: Exec) {
    && |d.counterIndex| == |d.outs| && InBounds(d.outs)
    && (forall v :: 0 <= v < |d.outs| && d.counterIndex[v].Some? ==> d.counterIndex[v].value < |s.counters|)
    && (forall c :: 0 <= c < |s.calls| ==> InRange(d, |s.calls|, s.calls[c]))
  }

  predicate CanStep(d: Dag, x: Call, e: Event)
    requires x.node < |d.outs|
  {
    var p, outs := x.place, |d.outs[x.node]|;
    match e
    case Begin(_) => p.Scheduled?
    case EndWork(_) => p.Working?
    case Notify(_) => Looping(p) && p.next < outs
    case AddOne(_) => p.Notifying? && p.step.Adding?
    case Spawn(_) => p.Notifying? && p.step.Spawning?
    case Inline(_) => Looping(p) && p.next >= outs && p.toInvoke.Some?
    case Return(_) => Looping(p) && p.next >= outs && p.toInvoke.None?
    case FinishTask(_) => p.Finishing?
    case WaitReturn => false
  }

  predicate Enabled(d: Dag, s: Exec, e: Event)
    requires Sane(d, s)
  {
    if e.WaitReturn? then s.main.InWait? && s.wg == 0
    else e.call < |s.calls| && CanStep(d, s.calls[e.call], e)
  }

  /** `notify()`: true if the node has no counter, else whether the decremented counter is zero. */
  function NotifyResult(d: Dag, counters: seq<int>, w: Node): (r: (bool, seq<int>))
    requires w < |d.counterIndex| && (d.counterIndex[w].Some? ==> d.counterIndex[w].value < |counters|)
  {
    match d.counterIndex[w]
    case None => (true, counters)
    case Some(c) => (counters[c] - 1 == 0, counters[c := counters[c] - 1])
  }

  /** The counters of one run, shared by all its invocations. */
  class RunContext {
    const counters: array<int>

    /** `initCounters()` */
    constructor (d: Dag)
      ensures fresh(counters) && counters[..] == d.initialCounters
    {
      counters := new int[|d.initialCounters|];
      new;
      for i := 0 to counters.Length
        invariant counters[..i] == d.initialCounters[..i]
      {
        counters[i] := d.initialCounters[i];
      }
    }

    method Notify(d: Dag, w: Node) returns (ready: bool)
      requires w < |d.counterIndex| && (d.counterIndex[w].Some? ==> d.counterIndex[w].value < counters.Length)
      modifies counters
      ensures (ready, counters[..]) == NotifyResult(d, old(counters[..]), w)
    {
      if d.counterIndex[w].None? {
        return true;
      }
      var index := d.counterIndex[w].value;
      counters[index] := counters[index] - 1;
      ready := counters[index] == 0;
    }
  }

  function SetPlace(calls: seq<Call>, c: CallId, p: Place): (r: seq<Call>)
    requires c < |calls|
  {
    calls[c := calls[c].(place := p)]
  }

  /** The node that call `c` notifies next. */
  function Target(d: Dag, s: Exec, c: CallId): (w: Node)
    requires Sane(d, s) && Enabled(d, s, Notify(c))
  {
    d.outs[s.calls[c].node][s.calls[c].place.next]
  }

  /** The loop of `invoke()` over its outs, up to the next `wg->add()`. */
  function NotifyAction(d: Dag, s: Exec, c: CallId): (r: Exec)
    requires Sane(d, s) && Enabled(d, s, Notify(c))
  {
    var p, w, id := s.calls[c].place, Target(d, s, c), |s.calls|;
    var (ready, counters) := NotifyResult(d, s.counters, w);
    var next := if !ready then p.(next := p.next + 1)
                else if p.toInvoke.None? then p.(next := p.next + 1, toInvoke := Some(id))
                else p.(step := Adding(id));
    s.(counters := counters, calls := SetPlace(s.calls, c, next) + if ready then [Call(w, Held(c))] else [])
  }

  function Apply(d: Dag, s: Exec, e: Event): (r: Exec)
    requires Sane(d, s) && Enabled(d, s, e)
  {
    match e
    case Begin(c) => s.(calls := SetPlace(s.calls, c, Working(true)), started := s.started + [s.calls[c].node])
    case EndWork(c) => s.(calls := SetPlace(s.calls, c, Notifying(s.calls[c].place.inTask, 0, None, AtLoop)))
    case Notify(c) => NotifyAction(d, s, c)
    case AddOne(c) =>
      var p := s.calls[c].place;
      s.(wg := s.wg + 1, calls := SetPlace(s.calls, c, p.(step := Spawning(p.step.child))))
    case Spawn(c) =>
      var p := s.calls[c].place;
      var next := Notifying(p.inTask, p.next + 1, Some(p.step.child), AtLoop);
      s.(calls := SetPlace(SetPlace(s.calls, c, next), p.toInvoke.value, Scheduled))
    case Inline(c) =>
      var p := s.calls[c].place;
      var x := p.toInvoke.value;
      s.(calls := SetPlace(SetPlace(s.calls, c, Done), x, Working(p.inTask)), started := s.started + [s.calls[x].node])
    case Return(c) =>
      if s.calls[c].place.inTask then s.(calls := SetPlace(s.calls, c, Finishing))
      else s.(calls := SetPlace(s.calls, c, Done), main := InWait)
    case FinishTask(c) => s.(wg := s.wg - 1, calls := SetPlace(s.calls, c, Done))
    case WaitReturn => s.(main := Returned)
  }

  // ---- counting calls ----

  ghost function Total(f: Call -> nat, calls: seq<Call>): (n: nat) {
    Sum(seq(|calls|, i requires 0 <= i < |calls| => f(calls[i])))
  }

  lemma TotalUpdate(f: Call -> nat, calls: seq<Call>, c: CallId, x: Call)
    requires c < |calls|
    ensures Total(f, calls[c := x]) == Total(f, calls) - f(calls[c]) + f(x)
  {
    var xs := seq(|calls|, k requires 0 <= k < |calls| => f(calls[k]));
    assert seq(|calls|, k requires 0 <= k < |calls| => f(calls[c := x][k])) == xs[c := f(x)];
    SumUpdate(xs, c, f(x));
  }

  lemma TotalExtend(f: Call -> nat, calls: seq<Call>, x: Call)
    ensures Total(f, calls + [x]) == Total(f, calls) + f(x)
  {
    var more := calls + [x];
    var xs := seq(|calls|, k requires 0 <= k < |calls| => f(calls[k]));
    assert seq(|more|, k requires 0 <= k < |more| => f(more[k])) == xs + [f(x)];
    SumExtend(xs, f(x));
  }

  /** A total of bounded terms is bounded, and strictly if one term is. */
  lemma TotalBound(f: Call -> nat, g: Call -> nat, a: seq<Call>, b: seq<Call>)
    requires |a| == |b| && forall c :: 0 <= c < |a| ==> f(a[c]) <= g(b[c])
    ensures Total(f, a) <= Total(g, b)
    ensures (exists c :: 0 <= c < |a| && f(a[c]) < g(b[c])) ==> Total(f, a) < Total(g, b)
  {
    var xs := seq(|a|, k requires 0 <= k < |a| => f(a[k]));
    var ys := seq(|b|, k requires 0 <= k < |b| => g(b[k]));
    SumBound(xs, ys);
    if exists c :: 0 <= c < |a| && f(a[c]) < g(b[c]) {
      var c :| 0 <= c < |a| && f(a[c]) < g(b[c]);
      assert xs[c] != ys[c];
    }
  }

  lemma TotalSame(f: Call -> nat, g: Call -> nat, a: seq<Call>, b: seq<Call>)
    requires |a| == |b| && forall c :: 0 <= c < |a| ==> f(a[c]) == g(b[c])
    ensures Total(f, a) == Total(g, b)
  {
    TotalBound(f, g, a, b);
    TotalBound(g, f, b, a);
  }

  lemma TotalAtLeast(f: Call -> nat, calls: seq<Call>, c: CallId)
    requires c < |calls|
    ensures f(calls[c]) <= Total(f, calls)
  {
    SumAtLeast(seq(|calls|, i requires 0 <= i < |calls| => f(calls[i])), c);
  }

  lemma TotalPositive(f: Call -> nat, calls: seq<Call>) returns (c: CallId)
    requires Total(f, calls) > 0
    ensures c < |calls| && f(calls[c]) > 0
  {
    var xs := seq(|calls|, i requires 0 <= i < |calls| => f(calls[i]));
    SumPositive(xs);
    c :| 0 <= c < |xs| && xs[c] > 0;
  }

  /** 1 for a call of node `v`. */
  ghost function IsAt(v: Node): (f: Call -> nat)
    ensures forall x: Call :: f(x) == if x.node == v then 1 else 0
  {
    (x: Call) => if x.node == v then 1 else 0
  }

  /** How often node `v` has been invoked, or is about to be. */
  ghost function Count(s: Exec, v: Node): (n: nat) {
    Total(IsAt(v), s.calls)
  }

  predicate Began(p: Place) {
    p.Working? || p.Notifying? || p.Finishing? || p.Done?
  }

  /** 1 for a call of node `v` whose work has begun. */
  ghost function HasBegun(v: Node): (f: Call -> nat)
    ensures forall x: Call :: f(x) == if x.node == v && Began(x.place) then 1 else 0
  {
    (x: Call) => if x.node == v && Began(x.place) then 1 else 0
  }

  /** How often a call has notified node `v`. */
  ghost function ReportsBy(d: Dag, v: Node, x: Call): (n: nat) {
    if x.node < |d.outs| && Progress(x.place, |d.outs[x.node]|) <= |d.outs[x.node]|
    then multiset(d.outs[x.node][..Progress(x.place, |d.outs[x.node]|)])[v] else 0
  }

  ghost function Reports(d: Dag, v: Node): (f: Call -> nat)
    ensures forall x: Call :: f(x) == ReportsBy(d, v, x)
  {
    (x: Call) => ReportsBy(d, v, x)
  }

  ghost function Notified(d: Dag, s: Exec, v: Node): (n: nat) {
    Total(Reports(d, v), s.calls)
  }

  /** What a call contributes to the WaitGroup: a scheduled call that is not done, and one that has
      been added but not yet scheduled. */
  function Weight(x: Call): (n: nat) {
    match x.place
    case Scheduled => 1
    case Working(inTask) => if inTask then 1 else 0
    case Notifying(inTask, _, _, step) => (if inTask then 1 else 0) + (if step.Spawning? then 1 else 0)
    case Finishing => 1
    case _ => 0
  }

  /** 1 for the call that the caller of `run()` is in. */
  function OnCaller(x: Call): (n: nat) {
    match x.place
    case Working(inTask) => if inTask then 0 else 1
    case Notifying(inTask, _, _, _) => if inTask then 0 else 1
    case _ => 0
  }

  // ---- the invariant ----

  /** How often a node is invoked after `n` notifications: each time if it has one dependency, and
      when its counter reaches zero if it has several. */
  ghost function Invocations(d: Dag, v: Node, n: nat): (k: nat) {
    if InDegree(d.outs, v) <= 1 then n else if n >= InDegree(d.outs, v) then 1 else 0
  }

  ghost predicate Activation(d: Dag, s: Exec) {
    forall v: Node :: v < |d.outs| ==>
      Count(s, v) == (if v == ROOT then 1 else 0) + Invocations(d, v, Notified(d, s, v))
  }

  ghost predicate CountersLeft(d: Dag, s: Exec)
    requires Sane(d, s)
  {
    forall v :: 0 <= v < |d.outs| && d.counterIndex[v].Some? ==>
      s.counters[d.counterIndex[v].value] == InDegree(d.outs, v) - Notified(d, s, v)
  }

  /** The WaitGroup counts the scheduled calls that are not done, and the caller of `run()` is in one
      call until it waits. */
  ghost predicate Counts(s: Exec) {
    s.wg == Total(Weight, s.calls) && Total(OnCaller, s.calls) == if s.main.Invoking? then 1 else 0
  }

  predicate Holds(p: Place, x: CallId) {
    p.Notifying? && (p.toInvoke == Some(x) || (!p.step.AtLoop? && p.step.child == x))
  }

  /** The calls in the hands of a call are exactly those marked as held by it. */
  ghost predicate Hands(calls: seq<Call>) {
    && (forall c :: 0 <= c < |calls| && calls[c].place.Notifying? && calls[c].place.toInvoke.Some? ==>
          calls[c].place.toInvoke.value < |calls| && calls[calls[c].place.toInvoke.value].place == Held(c))
    && (forall c :: 0 <= c < |calls| && calls[c].place.Notifying? && !calls[c].place.step.AtLoop? ==>
          && calls[c].place.toInvoke.Some? && calls[c].place.step.child != calls[c].place.toInvoke.value
          && calls[c].place.step.child < |calls| && calls[calls[c].place.step.child].place == Held(c))
    && (forall x :: 0 <= x < |calls| && calls[x].place.Held? ==>
          calls[x].place.holder < |calls| && Holds(calls[calls[x].place.holder].place, x))
  }

  /** `started` lists a node once for each call of it whose work has begun. */
  ghost predicate History(s: Exec) {
    forall v :: multiset(s.started)[v] == Total(HasBegun(v), s.calls)
  }

  ghost predicate Inv(d: Dag, s: Exec) {
    Sane(d, s) && Activation(d, s) && CountersLeft(d, s) && Counts(s) && Hands(s.calls) && History(s)
  }

  lemma InitInv(d: Dag, s: Exec)
    requires WellBuilt(d) && Init(d, s)
    ensures Inv(d, s)
  {
    hide InDegree;
    forall v ensures multiset(s.started)[v] == Total(HasBegun(v), s.calls) {
      SingleTotal(HasBegun(v), s.calls[0]);
    }
    forall v: Node ensures Count(s, v) == (if v == ROOT then 1 else 0) && Notified(d, s, v) == 0 {
      SingleTotal(IsAt(v), s.calls[0]);
      SingleTotal(Reports(d, v), s.calls[0]);
    }
    SingleTotal(Weight, s.calls[0]);
    SingleTotal(OnCaller, s.calls[0]);
  }

  lemma SingleTotal(f: Call -> nat, x: Call)
    ensures Total(f, [x]) == f(x)
  {
    TotalExtend(f, [], x);
    assert [] + [x] == [x];
  }

  // ---- steps that notify nothing ----

  /** `r` has the same calls as `s`, and each has notified as much as before. */
  ghost predicate Steady(d: Dag, s: Exec, r: Exec) {
    && Sane(d, s) && Sane(d, r) && r.counters == s.counters && |r.calls| == |s.calls|
    && forall c :: 0 <= c < |s.calls| ==>
         var outs := |d.outs[s.calls[c].node]|;
         && r.calls[c].node == s.calls[c].node
         && Progress(r.calls[c].place, outs) == Progress(s.calls[c].place, outs)
  }

  lemma SteadyKeeps(d: Dag, s: Exec, r: Exec)
    requires Steady(d, s, r)
    ensures forall v :: Count(r, v) == Count(s, v) && Notified(d, r, v) == Notified(d, s, v)
  {
    hide InBounds, Total;
    forall v ensures Count(r, v) == Count(s, v) && Notified(d, r, v) == Notified(d, s, v) {
      TotalSame(IsAt(v), IsAt(v), r.calls, s.calls);
      TotalSame(Reports(d, v), Reports(d, v), r.calls, s.calls);
    }
  }

  predicate Concerns(e: Event) {
    e.Spawn? || e.Inline?
  }

  /** Steps that concern no other call. */
  lemma PlainSteady(d: Dag, s: Exec, e: Event)
    requires Sane(d, s) && Enabled(d, s, e) && !e.Notify? && !Concerns(e)
    ensures Steady(d, s, Apply(d, s, e))
  {
    hide InBounds;
  }

  /** Steps that let go of the call in an invocation's hands. */
  lemma HandSteady(d: Dag, s: Exec, e: Event)
    requires Sane(d, s) && Hands(s.calls) && Enabled(d, s, e) && Concerns(e)
    ensures Steady(d, s, Apply(d, s, e))
  {
    hide InBounds;
    HeldCall(s.calls, e.call);
  }

  /** The call that call `c` is going to invoke is another one, and has not begun. */
  lemma HeldCall(calls: seq<Call>, c: CallId)
    requires Hands(calls) && c < |calls| && calls[c].place.Notifying? && calls[c].place.toInvoke.Some?
    ensures
      var x := calls[c].place.toInvoke.value;
      x < |calls| && x != c && calls[x].place == Held(c)
  {
  }

  lemma QuietSteady(d: Dag, s: Exec, e: Event)
    requires Inv(d, s) && Enabled(d, s, e) && !e.Notify?
    ensures Steady(d, s, Apply(d, s, e))
  {
    hide Activation, CountersLeft, Counts, Hands, History, Sane, Apply, Enabled, Steady;
    if Concerns(e) {
      HandSteady(d, s, e);
    } else {
      PlainSteady(d, s, e);
    }
  }

  /** A call that is in no one's hands and holds none can change freely. */
  lemma FreeHands(calls: seq<Call>, c: CallId, p: Place)
    requires Hands(calls) && c < |calls| && !calls[c].place.Held? && !p.Held?
    requires calls[c].place.Notifying? ==> calls[c].place.toInvoke.None? && calls[c].place.step.AtLoop?
    requires p.Notifying? ==> p.toInvoke.None? && p.step.AtLoop?
    ensures Hands(SetPlace(calls, c, p))
  {
  }

  lemma AddOneHands(calls: seq<Call>, c: CallId)
    requires Hands(calls) && c < |calls| && calls[c].place.Notifying? && calls[c].place.step.Adding?
    ensures Hands(SetPlace(calls, c, calls[c].place.(step := Spawning(calls[c].place.step.child))))
  {
  }

  /** Call `c` lets go of `toInvoke`, and keeps the child it is scheduling for. */
  lemma SpawnHands(calls: seq<Call>, c: CallId)
    requires Hands(calls) && c < |calls| && calls[c].place.Notifying? && calls[c].place.step.Spawning?
    ensures
      var p := calls[c].place;
      && p.toInvoke.Some? && p.toInvoke.value < |calls|
      && (var next := Notifying(p.inTask, p.next + 1, Some(p.step.child), AtLoop);
          Hands(SetPlace(SetPlace(calls, c, next), p.toInvoke.value, Scheduled)))
  {
  }

  lemma InlineHands(calls: seq<Call>, c: CallId)
    requires Hands(calls) && c < |calls| && Looping(calls[c].place) && calls[c].place.toInvoke.Some?
    ensures
      var p := calls[c].place;
      && p.toInvoke.value < |calls|
      && Hands(SetPlace(SetPlace(calls, c, Done), p.toInvoke.value, Working(p.inTask)))
  {
  }

  lemma QuietHands(d: Dag, s: Exec, e: Event)
    requires Sane(d, s) && Hands(s.calls) && Enabled(d, s, e) && !e.Notify?
    ensures Hands(Apply(d, s, e).calls)
  {
    hide InBounds, Hands, SetPlace;
    match e
    case AddOne(c) => AddOneHands(s.calls, c);
    case Spawn(c) => SpawnHands(s.calls, c);
    case Inline(c) => InlineHands(s.calls, c);
    case WaitReturn =>
    case Begin(c) => FreeHands(s.calls, c, Working(true));
    case EndWork(c) => FreeHands(s.calls, c, Notifying(s.calls[c].place.inTask, 0, None, AtLoop));
    case Return(c) => FreeHands(s.calls, c, if s.calls[c].place.inTask then Finishing else Done);
    case FinishTask(c) => FreeHands(s.calls, c, Done);
  }

  lemma QuietTotal(d: Dag, s: Exec, e: Event, f: Call -> nat)
    requires Sane(d, s) && Hands(s.calls) && Enabled(d, s, e) && !e.Notify? && !e.WaitReturn?
    ensures
      var r, c := Apply(d, s, e), e.call;
      && |r.calls| == |s.calls|
      && (if Concerns(e) then
            var x := s.calls[c].place.toInvoke.value;
            && x < |s.calls| && x != c && s.calls[x].place == Held(c)
            && Total(f, r.calls) == Total(f, s.calls) - f(s.calls[c]) - f(s.calls[x]) + f(r.calls[c]) + f(r.calls[x])
          else Total(f, r.calls) == Total(f, s.calls) - f(s.calls[c]) + f(r.calls[c]))
  {
    hide InBounds, Hands, Total;
    var r, c := Apply(d, s, e), e.call;
    TotalUpdate(f, s.calls, c, r.calls[c]);
    if Concerns(e) {
      HeldCall(s.calls, c);
      var x := s.calls[c].place.toInvoke.value;
      TotalUpdate(f, s.calls[c := r.calls[c]], x, r.calls[x]);
    }
  }

  lemma QuietHistory(d: Dag, s: Exec, e: Event)
    requires Sane(d, s) && Hands(s.calls) && History(s) && Enabled(d, s, e) && !e.Notify?
    ensures History(Apply(d, s, e))
  {
    hide InBounds, Hands, Total;
    var r := Apply(d, s, e);
    if !e.WaitReturn? {
      forall v ensures multiset(r.started)[v] == Total(HasBegun(v), r.calls) {
        QuietTotal(d, s, e, HasBegun(v));
      }
    }
  }

  lemma QuietCounts(d: Dag, s: Exec, e: Event)
    requires Sane(d, s) && Hands(s.calls) && Counts(s) && Enabled(d, s, e) && !e.Notify?
    ensures Counts(Apply(d, s, e))
  {
    hide InBounds, Hands, Total;
    if !e.WaitReturn? {
      QuietTotal(d, s, e, Weight);
      QuietTotal(d, s, e, OnCaller);
      TotalAtLeast(OnCaller, s.calls, e.call);
    }
  }

  // ---- notify() ----

  /** What `notify()` returns: with one dependency always true, with several when all have reported. */
  lemma NotifyReady(d: Dag, s: Exec, c: CallId)
    requires WellBuilt(d) && Inv(d, s) && Enabled(d, s, Notify(c))
    ensures
      var w := Target(d, s, c);
      && w < |d.outs| && InDegree(d.outs, w) >= 1
      && (NotifyResult(d, s.counters, w).0 <==>
            InDegree(d.outs, w) == 1 || Notified(d, s, w) + 1 == InDegree(d.outs, w))
  {
    hide Counts, Hands, History, Notified, InDegree;
    EdgeDegree(d.outs, s.calls[c].node, Target(d, s, c));
  }

  lemma NotifySane(d: Dag, s: Exec, c: CallId)
    requires Sane(d, s) && Enabled(d, s, Notify(c))
    ensures Sane(d, Apply(d, s, Notify(c)))
  {
  }

  /** The calls after a notification; a new call holds no place in any count but that of its node. */
  lemma NotifyTotal(d: Dag, s: Exec, c: CallId, f: Call -> nat)
    requires Sane(d, s) && Enabled(d, s, Notify(c))
    ensures
      var r, w := Apply(d, s, Notify(c)), Target(d, s, c);
      && w < |d.counterIndex| && |r.calls| >= |s.calls|
      && Total(f, r.calls) == Total(f, s.calls) - f(s.calls[c]) + f(r.calls[c]) +
                              (if NotifyResult(d, s.counters, w).0 then f(Call(w, Held(c))) else 0)
  {
    hide InBounds, Total;
    var r, w := Apply(d, s, Notify(c)), Target(d, s, c);
    assert w < |d.counterIndex| by { TargetInBounds(d, s, c); }
    var mid := s.calls[c := r.calls[c]];
    TotalUpdate(f, s.calls, c, r.calls[c]);
    if NotifyResult(d, s.counters, w).0 {
      TotalExtend(f, mid, Call(w, Held(c)));
      assert r.calls == mid + [Call(w, Held(c))];
    } else {
      assert r.calls == mid;
    }
  }

  lemma TargetInBounds(d: Dag, s: Exec, c: CallId)
    requires Sane(d, s) && Enabled(d, s, Notify(c))
    ensures Target(d, s, c) < |d.outs|
  {
  }

  /** A notification counts once, and a node that becomes ready gets one more call. */
  lemma NotifyNumbers(d: Dag, s: Exec, c: CallId, v: Node)
    requires Sane(d, s) && Enabled(d, s, Notify(c))
    ensures
      var r, w := Apply(d, s, Notify(c)), Target(d, s, c);
      && w < |d.counterIndex|
      && Count(r, v) == Count(s, v) + (if NotifyResult(d, s.counters, w).0 && v == w then 1 else 0)
      && Notified(d, r, v) == Notified(d, s, v) + (if v == w then 1 else 0)
  {
    hide InBounds, Total;
    NotifyTotal(d, s, c, IsAt(v));
    NotifyTotal(d, s, c, Reports(d, v));
    var x := s.calls[c];
    PrefixCount(d.outs[x.node], x.place.next, v);
    assert d.outs[Target(d, s, c)][..0] == [] by { TargetInBounds(d, s, c); }
  }

  lemma NotifyActivation(d: Dag, s: Exec, c: CallId)
    requires WellBuilt(d) && Inv(d, s) && Enabled(d, s, Notify(c))
    ensures Activation(d, Apply(d, s, Notify(c)))
  {
    hide Sane, WellBuilt, CountersLeft, Counts, Hands, History, Notified, Count, InDegree, Apply, Enabled, NotifyResult;
    NotifyReady(d, s, c);
    forall v: Node | v < |d.outs|
      ensures Count(Apply(d, s, Notify(c)), v) ==
              (if v == ROOT then 1 else 0) + Invocations(d, v, Notified(d, Apply(d, s, Notify(c)), v))
    {
      NotifyNumbers(d, s, c, v);
    }
  }

  lemma NotifyCounters(d: Dag, s: Exec, c: CallId)
    requires WellBuilt(d) && Inv(d, s) && Enabled(d, s, Notify(c))
    ensures Sane(d, Apply(d, s, Notify(c))) && CountersLeft(d, Apply(d, s, Notify(c)))
  {
    hide Activation, Counts, Hands, History, Notified, Count, InDegree, SetPlace;
    NotifySane(d, s, c);
    forall v: Node {
      NotifyNumbers(d, s, c, v);
    }
  }

  /** Call `c` takes a new call, as the one to invoke or as the one after it. */
  lemma TakeHands(calls: seq<Call>, c: CallId, p: Place, w: Node)
    requires Hands(calls) && c < |calls| && Looping(calls[c].place)
    requires
      var q, id := calls[c].place, |calls|;
      p == if q.toInvoke.None? then q.(next := q.next + 1, toInvoke := Some(id)) else q.(step := Adding(id))
    ensures Hands(SetPlace(calls, c, p) + [Call(w, Held(c))])
  {
  }

  lemma SkipHands(calls: seq<Call>, c: CallId)
    requires Hands(calls) && c < |calls| && calls[c].place.Notifying?
    ensures Hands(SetPlace(calls, c, calls[c].place.(next := calls[c].place.next + 1)))
  {
  }

  lemma NotifyHands(d: Dag, s: Exec, c: CallId)
    requires Sane(d, s) && Hands(s.calls) && Enabled(d, s, Notify(c))
    ensures Hands(Apply(d, s, Notify(c)).calls)
  {
    hide Hands, InBounds, SetPlace, NotifyResult;
    var p, id, w := s.calls[c].place, |s.calls|, Target(d, s, c);
    TargetInBounds(d, s, c);
    if NotifyResult(d, s.counters, w).0 {
      var next := if p.toInvoke.None? then p.(next := p.next + 1, toInvoke := Some(id)) else p.(step := Adding(id));
      TakeHands(s.calls, c, next, w);
    } else {
      SkipHands(s.calls, c);
      assert forall q: seq<Call> :: q + [] == q;
    }
  }

  lemma NotifyRest(d: Dag, s: Exec, c: CallId)
    requires Sane(d, s) && Counts(s) && History(s) && Enabled(d, s, Notify(c))
    ensures Counts(Apply(d, s, Notify(c))) && History(Apply(d, s, Notify(c)))
  {
    hide InBounds, Total, NotifyResult;
    NotifyTotal(d, s, c, Weight);
    NotifyTotal(d, s, c, OnCaller);
    var r := Apply(d, s, Notify(c));
    forall v ensures multiset(r.started)[v] == Total(HasBegun(v), r.calls) {
      NotifyTotal(d, s, c, HasBegun(v));
    }
  }

  /** Every step of every call keeps the invariant, in every built graph. */
  lemma StepInv(d: Dag, s: Exec, e: Event)
    requires WellBuilt(d) && Inv(d, s) && Enabled(d, s, e)
    ensures Inv(d, Apply(d, s, e))
  {
    hide Sane, WellBuilt, Activation, CountersLeft, Hands, Counts, History, Apply, Enabled;
    if e.Notify? {
      NotifyActivation(d, s, e.call);
      NotifyCounters(d, s, e.call);
      NotifyHands(d, s, e.call);
      NotifyRest(d, s, e.call);
    } else {
      QuietSteady(d, s, e);
      QuietNumbers(d, s, e);
      QuietHands(d, s, e);
      QuietHistory(d, s, e);
      QuietCounts(d, s, e);
    }
  }

  lemma QuietNumbers(d: Dag, s: Exec, e: Event)
    requires Inv(d, s) && Enabled(d, s, e) && Steady(d, s, Apply(d, s, e))
    ensures Sane(d, Apply(d, s, e)) && Activation(d, Apply(d, s, e)) && CountersLeft(d, Apply(d, s, e))
  {
    hide Counts, Hands, History, Notified, Count, InDegree, Apply, Enabled, InBounds;
    SteadyKeeps(d, s, Apply(d, s, e));
  }
}

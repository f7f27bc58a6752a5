/** `Event::signal()` step by step: every event has its mutex, and a thread keeps the mutex of an
    event while it signals the dependencies of that event one after the other. */
module EventSteps {
  import opened Common
  import EventModel

  type EventId = EventModel.EventId
  type Graph = EventModel.Graph

  /** What a thread is in the middle of: the calls of `signal()` on its stack, the last of them
      innermost, perhaps below a round of `any()`. */
  datatype Frame =
    | Wants(event: EventId)                 // signal(): about to lock the mutex
    | Signals(event: EventId, next: nat)    // signal(): mutex held, dependencies before `next` told
    | Links(event: EventId, any: EventId)   // any(): mutex of a source held, dependency not yet added

  /** `dropped` has the events that were ever turned off. */
  datatype World = World(g: Graph, on: set<EventId>, dropped: set<EventId>, owner: seq<Option<nat>>,
      stacks: seq<seq<Frame>>)

  /** `TurnOff` is a call of `clear()`, or a wait or test that succeeds on an Auto event. */
  datatype Act =
    | Create(initial: bool)
    | Call(thread: nat, event: EventId)
    | Visit(thread: nat, source: EventId, any: EventId)
    | TurnOff(event: EventId)
    | Step(thread: nat)

  function Top(st: seq<Frame>): (x: Frame)
    requires st != []
  {
    st[|st| - 1]
  }

  function Below(st: seq<Frame>): (r: seq<Frame>)
    requires st != []
  {
    st[..|st| - 1]
  }

  predicate Fits(g: Graph, x: Frame) {
    match x
    case Wants(e) => e < |g|
    case Signals(e, i) => e < |g| && i <= |g[e]|
    case Links(e, any) => e < any < |g|
  }

  predicate Sized(s: World) {
    |s.owner| == |s.g| && forall t, q :: 0 <= t < |s.stacks| && 0 <= q < |s.stacks[t]| ==> Fits(s.g, s.stacks[t][q])
  }

  predicate Enabled(s: World, a: Act) {
    match a
    case Create(_) => true
    case Call(t, e) => t < |s.stacks| && s.stacks[t] == [] && e < |s.g|
    case Visit(t, source, any) =>
      t < |s.stacks| && s.stacks[t] == [] && source < any < |s.g| && source < |s.owner| && s.owner[source].None?
    case TurnOff(e) => e < |s.owner| && e in s.on && s.owner[e].None?
    case Step(t) =>
      && t < |s.stacks| && s.stacks[t] != [] && Fits(s.g, Top(s.stacks[t])) && Top(s.stacks[t]).event < |s.owner|
      && (Top(s.stacks[t]).Wants? ==> s.owner[Top(s.stacks[t]).event].None?)
  }

  function SetStack(s: World, t: nat, st: seq<Frame>): (r: World)
    requires t < |s.stacks|
  {
    s.(stacks := s.stacks[t := st])
  }

  function StepOf(s: World, t: nat): (r: World)
    requires Enabled(s, Step(t))
  {
    var st := s.stacks[t];
    match Top(st)
    case Wants(e) =>
      if e in s.on then SetStack(s, t, Below(st))
      else SetStack(s, t, Below(st) + [Signals(e, 0)]).(on := s.on + {e}, owner := s.owner[e := Some(t)])
    case Signals(e, i) =>
      if i < |s.g[e]| then SetStack(s, t, Below(st) + [Signals(e, i + 1), Wants(s.g[e][i])])
      else SetStack(s, t, Below(st)).(owner := s.owner[e := None])
    case Links(e, any) =>
      SetStack(s, t, Below(st)).(owner := s.owner[e := None], g := s.g[e := s.g[e] + [any]])
  }

  function Apply(s: World, a: Act): (r: World)
    requires Enabled(s, a)
  {
    match a
    case Create(initial) =>
      s.(g := s.g + [[]], owner := s.owner + [None], on := if initial then s.on + {|s.g|} else s.on)
    case Call(t, e) => SetStack(s, t, [Wants(e)])
    case Visit(t, source, any) =>
      SetStack(s, t, if source in s.on then [Links(source, any), Wants(any)] else [Links(source, any)]).(
        owner := s.owner[source := Some(t)])
    case TurnOff(e) => s.(on := s.on - {e}, dropped := s.dropped + {e})
    case Step(t) => StepOf(s, t)
  }

  // ---- the invariant ----

  /** A stack holds mutexes of ever newer events, and only its top waits for one. */
  predicate Climbs(st: seq<Frame>) {
    && (forall q :: 0 <= q < |st| - 1 ==> !st[q].Wants?)
    && (forall q, p :: 0 <= q < p < |st| ==> st[q].event < st[p].event)
  }

  predicate Owns(owner: seq<Option<nat>>, t: nat, st: seq<Frame>) {
    forall q :: 0 <= q < |st| && !st[q].Wants? ==> st[q].event < |owner| && owner[st[q].event] == Some(t)
  }

  /** A dependency that is about to be added to an event that is on is on, was turned off, or is
      about to be told. */
  predicate LinkTold(on: set<EventId>, dropped: set<EventId>, st: seq<Frame>) {
    forall q :: 0 <= q < |st| && st[q].Links? && st[q].event in on ==>
      st[q].any in on || st[q].any in dropped || WantsAbove(st, q, st[q].any)
  }

  /** The frame above frame `q` is about to signal `d`. */
  predicate WantsAbove(st: seq<Frame>, q: nat, d: EventId) {
    q + 1 < |st| && st[q + 1] == Wants(d)
  }

  predicate StackOk(on: set<EventId>, dropped: set<EventId>, owner: seq<Option<nat>>, t: nat, st: seq<Frame>) {
    Climbs(st) && Owns(owner, t, st) && LinkTold(on, dropped, st)
  }

  predicate StacksOk(on: set<EventId>, dropped: set<EventId>, owner: seq<Option<nat>>, stacks: seq<seq<Frame>>) {
    forall t :: 0 <= t < |stacks| ==> StackOk(on, dropped, owner, t, stacks[t])
  }

  /** The thread is going to signal `d`, dependency `i` of event `e`. */
  predicate WillTell(st: seq<Frame>, e: EventId, i: nat, d: EventId) {
    exists q :: 0 <= q < |st| && st[q].Signals? && st[q].event == e &&
                (st[q].next <= i || (st[q].next == i + 1 && WantsAbove(st, q, d)))
  }

  ghost predicate Pending(stacks: seq<seq<Frame>>, e: EventId, i: nat, d: EventId) {
    exists t :: 0 <= t < |stacks| && WillTell(stacks[t], e, i, d)
  }

  /** Dependency `i` of event `e` is on, was turned off, or is about to be told. */
  ghost predicate EdgeTold(on: set<EventId>, dropped: set<EventId>, stacks: seq<seq<Frame>>, e: EventId, i: nat,
      d: EventId) {
    d in on || d in dropped || Pending(stacks, e, i, d)
  }

  ghost predicate Told(g: Graph, on: set<EventId>, dropped: set<EventId>, stacks: seq<seq<Frame>>) {
    forall e, i :: e in on && 0 <= e < |g| && 0 <= i < |g[e]| ==> EdgeTold(on, dropped, stacks, e, i, g[e][i])
  }

  ghost predicate Inv(s: World) {
    && Sized(s) && EventModel.Forward(s.g) && (forall e :: e in s.on ==> e < |s.g|)
    && StacksOk(s.on, s.dropped, s.owner, s.stacks) && Told(s.g, s.on, s.dropped, s.stacks)
  }

  predicate Init(s: World) {
    && s.g == [] && s.on == {} && s.dropped == {} && s.owner == []
    && forall t :: 0 <= t < |s.stacks| ==> s.stacks[t] == []
  }

  lemma InitInv(s: World)
    requires Init(s)
    ensures Inv(s)
  {
  }

  // ---- stacks ----

  /** Another thread's stack stays in order if the mutexes on it stay with it and the events on it are
      not turned on. */
  lemma KeepStack(on: set<EventId>, dropped: set<EventId>, owner: seq<Option<nat>>, u: nat, st: seq<Frame>,
                  on': set<EventId>, dropped': set<EventId>, owner': seq<Option<nat>>)
    requires StackOk(on, dropped, owner, u, st) && |owner'| >= |owner|
    requires forall e :: 0 <= e < |owner| && owner[e] == Some(u) ==> owner'[e] == Some(u) && (e in on' ==> e in on)
    requires on <= on' + dropped' && dropped <= dropped'
    ensures StackOk(on', dropped', owner', u, st)
  {
  }

  /** The stacks stay in order if that of thread `t` does and no other thread loses anything. */
  lemma KeepStacks(s: World, t: nat, r: World)
    requires StacksOk(s.on, s.dropped, s.owner, s.stacks) && t < |s.stacks| == |r.stacks| && |r.owner| >= |s.owner|
    requires forall u :: 0 <= u < |s.stacks| && u != t ==> r.stacks[u] == s.stacks[u]
    requires forall e :: 0 <= e < |s.owner| && s.owner[e].Some? && s.owner[e] != Some(t) ==>
               r.owner[e] == s.owner[e] && (e in r.on ==> e in s.on)
    requires s.on <= r.on + r.dropped && s.dropped <= r.dropped
    requires StackOk(r.on, r.dropped, r.owner, t, r.stacks[t])
    ensures StacksOk(r.on, r.dropped, r.owner, r.stacks)
  {
    hide StackOk;
    forall u | 0 <= u < |r.stacks| ensures StackOk(r.on, r.dropped, r.owner, u, r.stacks[u]) {
      if u != t {
        assert StackOk(s.on, s.dropped, s.owner, u, s.stacks[u]);
        KeepStack(s.on, s.dropped, s.owner, u, s.stacks[u], r.on, r.dropped, r.owner);
      }
    }
  }

  /** Taking the top off a stack, when it has told what it was to tell. */
  lemma PopStack(on: set<EventId>, dropped: set<EventId>, owner: seq<Option<nat>>, t: nat, st: seq<Frame>,
                 owner': seq<Option<nat>>)
    requires StackOk(on, dropped, owner, t, st) && st != [] && |owner'| == |owner|
    requires Top(st).Wants? ==> Top(st).event in on
    requires forall e :: 0 <= e < |owner| && e < Top(st).event ==> owner'[e] == owner[e]
    ensures StackOk(on, dropped, owner', t, Below(st))
  {
    assert forall q :: 0 <= q < |st| - 1 ==> Below(st)[q] == st[q];
  }

  /** The top of a stack gets the mutex it waits for. */
  lemma LockStack(on: set<EventId>, dropped: set<EventId>, owner: seq<Option<nat>>, t: nat, st: seq<Frame>)
    requires StackOk(on, dropped, owner, t, st) && st != [] && Top(st).Wants? && Top(st).event < |owner|
    ensures
      var e := Top(st).event;
      StackOk(on + {e}, dropped, owner[e := Some(t)], t, Below(st) + [Signals(e, 0)])
  {
    var e := Top(st).event;
    var st' := Below(st) + [Signals(e, 0)];
    assert forall q :: 0 <= q < |st| - 1 ==> st'[q] == st[q];
    assert st'[|st| - 1] == Signals(e, 0);
  }

  /** The top of a stack goes on to signal a newer event. */
  lemma PushStack(on: set<EventId>, dropped: set<EventId>, owner: seq<Option<nat>>, t: nat, st: seq<Frame>, d: EventId)
    requires StackOk(on, dropped, owner, t, st) && st != [] && Top(st).Signals? && Top(st).event < d
    ensures
      var x := Top(st);
      StackOk(on, dropped, owner, t, Below(st) + [Signals(x.event, x.next + 1), Wants(d)])
  {
    var x := Top(st);
    var st' := Below(st) + [Signals(x.event, x.next + 1), Wants(d)];
    assert forall q :: 0 <= q < |st| - 1 ==> st'[q] == st[q];
    assert st'[|st| - 1] == Signals(x.event, x.next + 1) && st'[|st|] == Wants(d);
  }

  // ---- what is pending ----

  /** What is pending stays so if the thread that moves keeps its part of it. */
  lemma KeepPending(stacks: seq<seq<Frame>>, t: nat, st: seq<Frame>, e: EventId, i: nat, d: EventId)
    requires Pending(stacks, e, i, d) && t < |stacks|
    requires WillTell(stacks[t], e, i, d) ==> WillTell(st, e, i, d)
    ensures Pending(stacks[t := st], e, i, d)
  {
    hide WillTell;
    var u :| 0 <= u < |stacks| && WillTell(stacks[u], e, i, d);
    assert WillTell(stacks[t := st][u], e, i, d);
  }

  lemma NewPending(stacks: seq<seq<Frame>>, t: nat, st: seq<Frame>, e: EventId, i: nat, d: EventId)
    requires t < |stacks| && WillTell(st, e, i, d)
    ensures Pending(stacks[t := st], e, i, d)
  {
    assert WillTell(stacks[t := st][t], e, i, d);
  }

  /** The top frame does not matter to what is pending, unless it tells `d` itself. */
  lemma PopTells(st: seq<Frame>, e: EventId, i: nat, d: EventId)
    requires st != [] && WillTell(st, e, i, d)
    ensures WillTell(Below(st), e, i, d) || Top(st) == Wants(d) ||
            (Top(st).Signals? && Top(st).event == e && Top(st).next <= i)
  {
    var q :| 0 <= q < |st| && st[q].Signals? && st[q].event == e &&
             (st[q].next <= i || (st[q].next == i + 1 && WantsAbove(st, q, d)));
    if q < |st| - 1 && (Top(st) != Wants(d) || st[q].next <= i) {
      assert Below(st)[q] == st[q];
    }
  }

  lemma PushTells(st: seq<Frame>, more: seq<Frame>, e: EventId, i: nat, d: EventId)
    requires WillTell(st, e, i, d)
    ensures WillTell(st + more, e, i, d)
  {
    var q :| 0 <= q < |st| && st[q].Signals? && st[q].event == e &&
             (st[q].next <= i || (st[q].next == i + 1 && WantsAbove(st, q, d)));
    assert (st + more)[q] == st[q] && (q + 1 < |st| ==> (st + more)[q + 1] == st[q + 1]);
  }

  lemma TopTells(st: seq<Frame>, x: Frame, e: EventId, i: nat, d: EventId)
    requires x.Signals? && x.event == e && x.next <= i
    ensures WillTell(st + [x], e, i, d)
  {
    assert (st + [x])[|st|] == x;
  }

  /** A thread goes on to tell the next dependency. */
  lemma DescendTells(st: seq<Frame>, d': EventId, e: EventId, i: nat, d: EventId)
    requires st != [] && Top(st).Signals? && WillTell(st, e, i, d)
    requires Top(st).event == e && Top(st).next == i ==> d == d'
    ensures
      var x := Top(st);
      WillTell(Below(st) + [Signals(x.event, x.next + 1), Wants(d')], e, i, d)
  {
    var x := Top(st);
    var more := [Signals(x.event, x.next + 1), Wants(d')];
    var st' := Below(st) + more;
    PopTells(st, e, i, d);
    if WillTell(Below(st), e, i, d) {
      PushTells(Below(st), more, e, i, d);
    } else {
      assert st'[|st| - 1] == Signals(x.event, x.next + 1) && st'[|st|] == Wants(d');
    }
  }

  // ---- steps ----

  lemma AlreadyOnInv(s: World, t: nat)
    requires Inv(s) && Enabled(s, Step(t)) && Top(s.stacks[t]).Wants? && Top(s.stacks[t]).event in s.on
    ensures Inv(Apply(s, Step(t)))
  {
    hide EventModel.Forward, WillTell, Pending, StackOk;
    var st, r := s.stacks[t], Apply(s, Step(t));
    assert StackOk(s.on, s.dropped, s.owner, t, st);
    PopStack(s.on, s.dropped, s.owner, t, st, s.owner);
    KeepStacks(s, t, r);
    forall e, i | e in r.on && 0 <= e < |r.g| && 0 <= i < |r.g[e]|
      ensures EdgeTold(r.on, r.dropped, r.stacks, e, i, r.g[e][i])
    {
      var d := r.g[e][i];
      assert EdgeTold(s.on, s.dropped, s.stacks, e, i, d);
      if d !in r.on && d !in r.dropped {
        if WillTell(st, e, i, d) {
          PopTells(st, e, i, d);
        }
        KeepPending(s.stacks, t, Below(st), e, i, d);
      }
    }
  }

  lemma TurnOnTold(s: World, t: nat)
    requires Sized(s) && Told(s.g, s.on, s.dropped, s.stacks) && Enabled(s, Step(t))
    requires Top(s.stacks[t]).Wants? && Top(s.stacks[t]).event !in s.on
    ensures var r := Apply(s, Step(t)); Told(r.g, r.on, r.dropped, r.stacks)
  {
    hide WillTell, Pending;
    var st, r := s.stacks[t], Apply(s, Step(t));
    var x := Top(st).event;
    var st' := Below(st) + [Signals(x, 0)];
    forall e, i | e in r.on && 0 <= e < |r.g| && 0 <= i < |r.g[e]|
      ensures EdgeTold(r.on, r.dropped, r.stacks, e, i, r.g[e][i])
    {
      var d := r.g[e][i];
      if d !in r.on && d !in r.dropped {
        if e == x {
          TopTells(Below(st), Signals(x, 0), e, i, d);
          NewPending(s.stacks, t, st', e, i, d);
        } else {
          assert EdgeTold(s.on, s.dropped, s.stacks, e, i, d);
          if WillTell(st, e, i, d) {
            PopTells(st, e, i, d);
            PushTells(Below(st), [Signals(x, 0)], e, i, d);
          }
          KeepPending(s.stacks, t, st', e, i, d);
        }
      }
    }
  }

  lemma TurnOnInv(s: World, t: nat)
    requires Inv(s) && Enabled(s, Step(t)) && Top(s.stacks[t]).Wants? && Top(s.stacks[t]).event !in s.on
    ensures Inv(Apply(s, Step(t)))
  {
    hide EventModel.Forward, Told, StackOk;
    var st, r := s.stacks[t], Apply(s, Step(t));
    TurnOnTold(s, t);
    assert StackOk(s.on, s.dropped, s.owner, t, st);
    LockStack(s.on, s.dropped, s.owner, t, st);
    KeepStacks(s, t, r);
  }

  lemma DescendInv(s: World, t: nat)
    requires Inv(s) && Enabled(s, Step(t)) && Top(s.stacks[t]).Signals?
    requires Top(s.stacks[t]).next < |s.g[Top(s.stacks[t]).event]|
    ensures Inv(Apply(s, Step(t)))
  {
    hide WillTell, Pending, StackOk;
    var st, r := s.stacks[t], Apply(s, Step(t));
    var x := Top(st);
    var d' := s.g[x.event][x.next];
    assert StackOk(s.on, s.dropped, s.owner, t, st);
    PushStack(s.on, s.dropped, s.owner, t, st, d');
    KeepStacks(s, t, r);
    forall e, i | e in r.on && 0 <= e < |r.g| && 0 <= i < |r.g[e]|
      ensures EdgeTold(r.on, r.dropped, r.stacks, e, i, r.g[e][i])
    {
      var d := r.g[e][i];
      assert EdgeTold(s.on, s.dropped, s.stacks, e, i, d);
      if d !in r.on && d !in r.dropped {
        if WillTell(st, e, i, d) {
          DescendTells(st, d', e, i, d);
        }
        KeepPending(s.stacks, t, r.stacks[t], e, i, d);
      }
    }
  }

  lemma FinishInv(s: World, t: nat)
    requires Inv(s) && Enabled(s, Step(t)) && Top(s.stacks[t]).Signals?
    requires Top(s.stacks[t]).next == |s.g[Top(s.stacks[t]).event]|
    ensures Inv(Apply(s, Step(t)))
  {
    hide EventModel.Forward, WillTell, Pending, StackOk;
    var st, r := s.stacks[t], Apply(s, Step(t));
    assert StackOk(s.on, s.dropped, s.owner, t, st);
    TopOwned(s, t);
    PopStack(s.on, s.dropped, s.owner, t, st, r.owner);
    KeepStacks(s, t, r);
    forall e, i | e in r.on && 0 <= e < |r.g| && 0 <= i < |r.g[e]|
      ensures EdgeTold(r.on, r.dropped, r.stacks, e, i, r.g[e][i])
    {
      var d := r.g[e][i];
      assert EdgeTold(s.on, s.dropped, s.stacks, e, i, d);
      if d !in r.on && d !in r.dropped {
        if WillTell(st, e, i, d) {
          PopTells(st, e, i, d);
        }
        KeepPending(s.stacks, t, Below(st), e, i, d);
      }
    }
  }

  lemma TopOwned(s: World, t: nat)
    requires StacksOk(s.on, s.dropped, s.owner, s.stacks) && t < |s.stacks| && s.stacks[t] != []
    ensures !Top(s.stacks[t]).Wants? ==>
              Top(s.stacks[t]).event < |s.owner| && s.owner[Top(s.stacks[t]).event] == Some(t)
    ensures LinkTold(s.on, s.dropped, s.stacks[t])
  {
    assert StackOk(s.on, s.dropped, s.owner, t, s.stacks[t]);
  }

  lemma TopLink(on: set<EventId>, dropped: set<EventId>, st: seq<Frame>)
    requires LinkTold(on, dropped, st) && st != [] && Top(st).Links? && Top(st).event in on
    ensures Top(st).any in on || Top(st).any in dropped
  {
    assert !WantsAbove(st, |st| - 1, Top(st).any);
  }

  lemma AddTold(s: World, t: nat)
    requires Inv(s) && Enabled(s, Step(t)) && Top(s.stacks[t]).Links?
    ensures var r := Apply(s, Step(t)); Told(r.g, r.on, r.dropped, r.stacks)
  {
    hide EventModel.Forward, WillTell, Pending, StackOk;
    var st, r := s.stacks[t], Apply(s, Step(t));
    var x := Top(st);
    TopOwned(s, t);
    if x.event in s.on {
      TopLink(s.on, s.dropped, st);
    }
    assert r.g == s.g[x.event := s.g[x.event] + [x.any]];
    forall e, i | e in r.on && 0 <= e < |r.g| && 0 <= i < |r.g[e]|
      ensures EdgeTold(r.on, r.dropped, r.stacks, e, i, r.g[e][i])
    {
      var d := r.g[e][i];
      if d !in r.on && d !in r.dropped {
        assert e == x.event ==> i < |s.g[e]|;
        assert EdgeTold(s.on, s.dropped, s.stacks, e, i, d);
        if WillTell(st, e, i, d) {
          PopTells(st, e, i, d);
        }
        KeepPending(s.stacks, t, Below(st), e, i, d);
      }
    }
  }

  lemma AddInv(s: World, t: nat)
    requires Inv(s) && Enabled(s, Step(t)) && Top(s.stacks[t]).Links?
    ensures Inv(Apply(s, Step(t)))
  {
    hide Told, StackOk;
    var st, r := s.stacks[t], Apply(s, Step(t));
    assert StackOk(s.on, s.dropped, s.owner, t, st);
    AddTold(s, t);
    TopOwned(s, t);
    PopStack(s.on, s.dropped, s.owner, t, st, r.owner);
    KeepStacks(s, t, r);
  }

  lemma StartInv(s: World, a: Act)
    requires Inv(s) && Enabled(s, a) && (a.Call? || a.Visit?)
    ensures Inv(Apply(s, a))
  {
    hide EventModel.Forward, WillTell, Pending;
    var t, r := a.thread, Apply(s, a);
    KeepStacks(s, t, r);
    forall e, i | e in r.on && 0 <= e < |r.g| && 0 <= i < |r.g[e]|
      ensures EdgeTold(r.on, r.dropped, r.stacks, e, i, r.g[e][i])
    {
      var d := r.g[e][i];
      assert EdgeTold(s.on, s.dropped, s.stacks, e, i, d);
      if d !in r.on && d !in r.dropped {
        NothingToTell(e, i, d);
        KeepPending(s.stacks, t, r.stacks[t], e, i, d);
      }
    }
  }

  lemma NothingToTell(e: EventId, i: nat, d: EventId)
    ensures !WillTell([], e, i, d)
  {
  }

  lemma TurnOffInv(s: World, e: EventId)
    requires Inv(s) && Enabled(s, TurnOff(e))
    ensures Inv(Apply(s, TurnOff(e)))
  {
    hide EventModel.Forward, Pending, StackOk;
    var r := Apply(s, TurnOff(e));
    forall t | 0 <= t < |r.stacks| ensures StackOk(r.on, r.dropped, r.owner, t, r.stacks[t]) {
      assert StackOk(s.on, s.dropped, s.owner, t, s.stacks[t]);
      KeepStack(s.on, s.dropped, s.owner, t, s.stacks[t], r.on, r.dropped, r.owner);
    }
    assert forall e, i :: e in r.on && 0 <= e < |r.g| && 0 <= i < |r.g[e]| ==>
             EdgeTold(s.on, s.dropped, s.stacks, e, i, r.g[e][i]);
  }

  lemma CreateInv(s: World, initial: bool)
    requires Inv(s) && Enabled(s, Create(initial))
    ensures Inv(Apply(s, Create(initial)))
  {
    hide Pending, StackOk;
    var r := Apply(s, Create(initial));
    forall t | 0 <= t < |r.stacks| ensures StackOk(r.on, r.dropped, r.owner, t, r.stacks[t]) {
      assert StackOk(s.on, s.dropped, s.owner, t, s.stacks[t]);
      KeepStack(s.on, s.dropped, s.owner, t, s.stacks[t], r.on, r.dropped, r.owner);
    }
    forall e, i | e in r.on && 0 <= e < |r.g| && 0 <= i < |r.g[e]|
      ensures EdgeTold(r.on, r.dropped, r.stacks, e, i, r.g[e][i])
    {
      assert EdgeTold(s.on, s.dropped, s.stacks, e, i, s.g[e][i]);
    }
  }

  lemma StepInv(s: World, a: Act)
    requires Inv(s) && Enabled(s, a)
    ensures Inv(Apply(s, a))
  {
    match a
    case Create(initial) => CreateInv(s, initial);
    case Call(_, _) => StartInv(s, a);
    case Visit(_, _, _) => StartInv(s, a);
    case TurnOff(e) => TurnOffInv(s, e);
    case Step(t) =>
      hide Apply, Told, StacksOk, EventModel.Forward;
      match Top(s.stacks[t])
      case Wants(e) =>
        if e in s.on {
          AlreadyOnInv(s, t);
        } else {
          TurnOnInv(s, t);
        }
      case Signals(e, i) =>
        if i < |s.g[e]| {
          DescendInv(s, t);
        } else {
          FinishInv(s, t);
        }
      case Links(_, _) => AddInv(s, t);
  }

  // ---- runs ----

  ghost predicate IsRun(states: seq<World>, acts: seq<Act>) {
    && |states| == |acts| + 1 && Init(states[0])
    && forall k :: 0 <= k < |acts| ==> Enabled(states[k], acts[k]) && states[k + 1] == Apply(states[k], acts[k])
  }

  lemma {:induction false} RunInv(states: seq<World>, acts: seq<Act>, k: nat)
    requires IsRun(states, acts) && k < |states|
    ensures Inv(states[k])
  {
    hide Inv, Enabled, Apply, Init, Sized;
    if k > 0 {
      RunInv(states, acts, k - 1);
      assert states[k] == Apply(states[k - 1], acts[k - 1]);
      StepInv(states[k - 1], acts[k - 1]);
    } else {
      InitInv(states[0]);
    }
  }

  /** A thread can always make its next step unless it waits for a mutex that is taken. */
  lemma CanStep(s: World, t: nat)
    requires Inv(s) && t < |s.stacks| && s.stacks[t] != []
    ensures Top(s.stacks[t]).event < |s.owner|
    ensures Enabled(s, Step(t)) <==> !Top(s.stacks[t]).Wants? || s.owner[Top(s.stacks[t]).event].None?
  {
    hide EventModel.Forward, StacksOk, Told;
  }

  /** Whenever the mutex of an event is free and the event is on, every dependency of it that was
      never turned off, as a Manual event that is never cleared, is on. */
  lemma FollowsWhenFree(states: seq<World>, acts: seq<Act>, k: nat, e: EventId, d: EventId)
    requires IsRun(states, acts) && k < |states| && e in states[k].on
    requires e < |states[k].g| && e < |states[k].owner| && states[k].owner[e].None?
    requires d in states[k].g[e] && d !in states[k].dropped
    ensures d in states[k].on
  {
    hide IsRun, EventModel.Forward, WillTell;
    RunInv(states, acts, k);
    var s := states[k];
    var i :| 0 <= i < |s.g[e]| && s.g[e][i] == d;
    assert EdgeTold(s.on, s.dropped, s.stacks, e, i, d);
    if d !in s.on {
      var t :| 0 <= t < |s.stacks| && WillTell(s.stacks[t], e, i, d);
      TellerOwns(s, t, e, i, d);
    }
  }

  lemma TellerOwns(s: World, t: nat, e: EventId, i: nat, d: EventId)
    requires StacksOk(s.on, s.dropped, s.owner, s.stacks) && t < |s.stacks| && WillTell(s.stacks[t], e, i, d)
    ensures e < |s.owner| && s.owner[e] == Some(t)
  {
    assert StackOk(s.on, s.dropped, s.owner, t, s.stacks[t]);
  }

  // ---- what each act did ----

  /** An event goes on when it is created so or a thread that signals it gets its mutex, and off when
      it is turned off, and in no other way. */
  lemma OnAfter(s: World, a: Act, e: EventId)
    requires Inv(s) && Enabled(s, a)
    ensures e in Apply(s, a).on <==>
            || (e in s.on && a != TurnOff(e))
            || (a == Create(true) && e == |s.g|)
            || (a.Step? && Top(s.stacks[a.thread]) == Wants(e))
  {
    hide StacksOk, Told, EventModel.Forward;
  }

  /** Thread `t` is inside the call of `signal()` on `e` that it made, and has not got its mutex. */
  predicate AboutTo(s: World, t: nat, e: EventId) {
    t < |s.stacks| && s.stacks[t] == [Wants(e)]
  }

  lemma AboutToStep(s: World, a: Act, t: nat, e: EventId)
    requires Inv(s) && Enabled(s, a) && AboutTo(s, t, e)
    ensures AboutTo(Apply(s, a), t, e) || e in Apply(s, a).on
  {
    hide StacksOk, Told, EventModel.Forward;
  }

  /** A call of `signal()` takes effect: by the time it has returned, or is signalling others, the
      event has been on. */
  lemma {:induction false} SignalTakesEffect(states: seq<World>, acts: seq<Act>, j: nat, k: nat, t: nat, e: EventId)
    requires IsRun(states, acts) && j < k < |states| && acts[j] == Call(t, e)
    ensures AboutTo(states[k], t, e) || exists i :: j < i <= k && e in states[i].on
    decreases k
  {
    hide Inv;
    assert Enabled(states[k - 1], acts[k - 1]) && states[k] == Apply(states[k - 1], acts[k - 1]);
    if j < k - 1 {
      SignalTakesEffect(states, acts, j, k - 1, t, e);
      RunInv(states, acts, k - 1);
      if AboutTo(states[k - 1], t, e) {
        AboutToStep(states[k - 1], acts[k - 1], t, e);
      }
    }
  }

  /** `dropped` has exactly the events that were turned off. */
  lemma {:induction false} DroppedIfTurnedOff(states: seq<World>, acts: seq<Act>, k: nat, e: EventId)
    requires IsRun(states, acts) && k < |states|
    ensures e in states[k].dropped <==> exists j :: 0 <= j < k && acts[j] == TurnOff(e)
  {
    if k > 0 {
      DroppedIfTurnedOff(states, acts, k - 1, e);
      assert states[k] == Apply(states[k - 1], acts[k - 1]);
      assert e in states[k].dropped <==> e in states[k - 1].dropped || acts[k - 1] == TurnOff(e);
    }
  }

  /** Thread `t` is inside a round of `any()` that makes `any` depend on `source`. */
  predicate Linking(s: World, t: nat, source: EventId, any: EventId) {
    t < |s.stacks| && s.stacks[t] != [] && s.stacks[t][0] == Links(source, any)
  }

  lemma LinkingStep(s: World, a: Act, t: nat, source: EventId, any: EventId)
    requires Inv(s) && Enabled(s, a) && source < |s.g|
    ensures source < |Apply(s, a).g|
    ensures any in s.g[source] ==> any in Apply(s, a).g[source]
    ensures Linking(s, t, source, any) ==> Linking(Apply(s, a), t, source, any) || any in Apply(s, a).g[source]
  {
    hide StacksOk, Told, EventModel.Forward;
    var r := Apply(s, a);
    if Linking(s, t, source, any) && a == Step(t) && |s.stacks[t]| > 1 {
      assert s.stacks[t][..|s.stacks[t]| - 1][0] == s.stacks[t][0];
    }
  }

  /** A round of `any()` takes effect: once it is over the new event depends on the source. */
  lemma {:induction false} LinkTakesEffect(states: seq<World>, acts: seq<Act>, j: nat, k: nat, t: nat, source: EventId,
                                           any: EventId)
    requires IsRun(states, acts) && j < k < |states| && acts[j] == Visit(t, source, any)
    ensures source < |states[k].g| && (Linking(states[k], t, source, any) || any in states[k].g[source])
    decreases k
  {
    hide Inv;
    assert Enabled(states[k - 1], acts[k - 1]) && states[k] == Apply(states[k - 1], acts[k - 1]);
    if j < k - 1 {
      LinkTakesEffect(states, acts, j, k - 1, t, source, any);
      RunInv(states, acts, k - 1);
      LinkingStep(states[k - 1], acts[k - 1], t, source, any);
    }
  }

  // ---- no deadlock ----

  /** Thread `t` waits for the mutex of `e`. */
  predicate WaitsFor(s: World, t: nat, e: EventId) {
    t < |s.stacks| && s.stacks[t] != [] && Top(s.stacks[t]) == Wants(e)
  }

  predicate HoldsMutex(s: World, t: nat, e: EventId) {
    t < |s.stacks| && exists q :: 0 <= q < |s.stacks[t]| && !s.stacks[t][q].Wants? && s.stacks[t][q].event == e
  }

  lemma WaitsForNewer(s: World, t: nat, e: EventId, x: EventId)
    requires Inv(s) && WaitsFor(s, t, e) && HoldsMutex(s, t, x)
    ensures x < e
  {
    hide EventModel.Forward, Told;
    assert StackOk(s.on, s.dropped, s.owner, t, s.stacks[t]);
  }

  /** `wanted[i]` is what thread `chain[i]` waits for and thread `chain[i + 1]` holds. */
  ghost predicate WaitChain(s: World, chain: seq<nat>, wanted: seq<EventId>) {
    && |wanted| == |chain| && (forall i :: 0 <= i < |chain| ==> WaitsFor(s, chain[i], wanted[i]))
    && (forall i :: 0 < i < |chain| ==> HoldsMutex(s, chain[i], wanted[i - 1]))
  }

  lemma {:induction false} ChainClimbs(s: World, chain: seq<nat>, wanted: seq<EventId>, i: nat)
    requires Inv(s) && WaitChain(s, chain, wanted) && i < |chain|
    ensures wanted[0] + i <= wanted[i]
  {
    hide Inv, WaitsFor, HoldsMutex;
    if i > 0 {
      ChainClimbs(s, chain, wanted, i - 1);
      WaitsForNewer(s, chain[i], wanted[i], wanted[i - 1]);
    }
  }

  /** No cycle of threads that wait for each other's events, whatever signals what. */
  lemma NoDeadlock(states: seq<World>, acts: seq<Act>, k: nat, chain: seq<nat>, wanted: seq<EventId>)
    requires IsRun(states, acts) && k < |states| && WaitChain(states[k], chain, wanted) && |chain| > 1
    ensures chain[|chain| - 1] != chain[0]
  {
    hide IsRun, Inv, HoldsMutex;
    RunInv(states, acts, k);
    ChainClimbs(states[k], chain, wanted, |chain| - 1);
  }
}

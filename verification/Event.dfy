/** `marl::Event`: the objects behind EventModel. */
module Event {

  import opened EventModel

  class Shared {
    const mode: Mode
    var signalled: bool
    var deps: seq<Shared>
    ghost const id: EventId    // the events are numbered in the order they are created

    constructor (mode: Mode, initialState: bool, ghost id: EventId)
      ensures this.mode == mode && signalled == initialState && deps == [] && this.id == id
    {
      this.mode, this.signalled, this.deps, this.id := mode, initialState, [], id;
    }
  }

  /** `all` lists all events by number, and dependencies are newer than what they depend on. */
  ghost predicate Ordered(all: seq<Shared>)
    reads all`deps
  {
    && (forall i :: 0 <= i < |all| ==> all[i].id == i)
    && (forall i, k :: 0 <= i < |all| && 0 <= k < |all[i].deps| ==>
          i < all[i].deps[k].id < |all| && all[all[i].deps[k].id] == all[i].deps[k])
  }

  ghost function Ids(deps: seq<Shared>): (r: seq<EventId>)
    ensures |r| == |deps| && forall k :: 0 <= k < |r| ==> r[k] == deps[k].id
  {
    seq(|deps|, k requires 0 <= k < |deps| => deps[k].id)
  }

  ghost function GraphOf(all: seq<Shared>): (g: Graph)
    reads all`deps
    ensures |g| == |all| && forall i :: 0 <= i < |g| ==> g[i] == Ids(all[i].deps)
  {
    if all == [] then []
    else
      var last := |all| - 1;
      GraphOf(all[..last]) + [Ids(all[last].deps)]
  }

  ghost function On(all: seq<Shared>): (on: set<EventId>)
    reads all`signalled
  {
    set i: EventId | i < |all| && all[i].signalled
  }

  lemma OrderedForward(all: seq<Shared>)
    requires Ordered(all)
    ensures Forward(GraphOf(all))
  {
    hide GraphOf, Ids;
  }

  /** What the objects say about event `e`. */
  lemma Known(e: Shared, all: seq<Shared>)
    requires Ordered(all) && e.id < |all| && all[e.id] == e
    ensures e.signalled <==> e.id in On(all)
    ensures GraphOf(all)[e.id] == Ids(e.deps)
    ensures forall k :: 0 <= k < |e.deps| ==> e.id < e.deps[k].id < |all| && all[e.deps[k].id] == e.deps[k]
  {
    hide GraphOf, Ids;
  }

  method SetSignalled(e: Shared, value: bool, ghost all: seq<Shared>)
    requires e.id < |all| && all[e.id] == e && Ordered(all)
    modifies e`signalled
    ensures e.signalled == value
    ensures On(all) == if value then old(On(all)) + {e.id} else old(On(all)) - {e.id}
  {
    e.signalled := value;
  }

  /** `Shared::signal()` */
  method SignalShared(e: Shared, ghost all: seq<Shared>)
    requires Ordered(all) && e.id < |all| && all[e.id] == e
    modifies all`signalled
    ensures Forward(GraphOf(all)) && On(all) == Signal(GraphOf(all), old(On(all)), e.id)
    decreases |all| - e.id
  {
    hide Ordered, On, GraphOf, Forward;
    OrderedForward(all);
    Known(e, all);
    if e.signalled {
      return;
    }
    ghost var g := GraphOf(all);
    SetSignalled(e, true, all);
    ghost var start := On(all);
    for k := 0 to |e.deps|
      invariant SignalAll(g, On(all), e.id, k) == SignalAll(g, start, e.id, 0)
    {
      SignalShared(e.deps[k], all);
    }
  }

  method AddDependency(source: Shared, any: Shared, ghost all: seq<Shared>)
    requires Ordered(all) && source.id < any.id < |all| && all[source.id] == source && all[any.id] == any
    modifies source`deps
    ensures Ordered(all)
    ensures var g := old(GraphOf(all)); GraphOf(all) == g[source.id := g[source.id] + [any.id]]
  {
    hide GraphOf, Ids;
    ghost var g := GraphOf(all);
    assert g[source.id] + [any.id] == Ids(source.deps + [any]);
    source.deps := source.deps + [any];
    assert forall i :: 0 <= i < |all| && i != source.id ==> g[i] == Ids(all[i].deps);
  }

  lemma NewEvent(e: Shared, all: seq<Shared>)
    requires Ordered(all) && e.id == |all| && e.deps == []
    ensures Ordered(all + [e])
  {
    var more := all + [e];
    assert forall i :: 0 <= i < |all| ==> more[i] == all[i];
  }

  lemma NewEventOn(e: Shared, all: seq<Shared>)
    requires e.id == |all|
    ensures On(all + [e]) == if e.signalled then On(all) + {e.id} else On(all)
  {
    var more := all + [e];
    assert more[|all|] == e && forall i :: 0 <= i < |all| ==> more[i] == all[i];
    assert forall i: EventId :: i in On(more) <==> i in On(all) || (i == e.id && e.signalled);
  }

  lemma NewEventGraph(e: Shared, all: seq<Shared>)
    requires e.deps == []
    ensures GraphOf(all + [e]) == GraphOf(all) + [[]]
  {
    assert (all + [e])[..|all|] == all;
    assert Ids(e.deps) == [];
  }

  /** All events of a program, and what has happened to them. */
  class Program {
    ghost var all: seq<Shared>
    ghost var events: Events

    ghost predicate Valid()
      reads this, all
    {
      && Ordered(all) && Inv(events)
      && events.g == GraphOf(all) && events.on == On(all) && Modes(all, events.modes)
    }

    /** `e` is one of the events. */
    ghost predicate Has(e: Shared)
      reads this
    {
      e.id < |all| && all[e.id] == e
    }

    constructor ()
      ensures Valid() && all == [] && events == EMPTY
    {
      all, events := [], EMPTY;
    }

    /** A new event, and the sources that it is going to depend on if `any()` creates it. */
    method Create(mode: Mode, initialState: bool, ghost sources: seq<EventId>) returns (e: Shared)
      requires Valid() && forall k :: 0 <= k < |sources| ==> sources[k] < |all|
      modifies this
      ensures Valid() && fresh(e) && e.id == |old(all)| && all == old(all) + [e] && e.mode == mode && e.deps == []
      ensures e.signalled == initialState
      ensures Possible(old(events), Op.Create(mode, initialState, sources))
      ensures events == Apply(old(events), Op.Create(mode, initialState, sources))
    {
      hide Ordered, On, GraphOf, Inv;
      ghost var op := Op.Create(mode, initialState, sources);
      Sizes(events);
      e := new Shared(mode, initialState, |all|);
      NewEvent(e, all);
      NewEventGraph(e, all);
      NewEventOn(e, all);
      StepInv(events, op);
      all, events := all + [e], Apply(events, op);
    }

    method Signal(e: Shared)
      requires Valid() && Has(e)
      modifies this`events, all`signalled
      ensures Valid() && events == Apply(old(events), Raise(e.id)) && e.signalled
    {
      hide Ordered, On, GraphOf, Inv;
      Sizes(events);
      SignalShared(e, all);
      SignalInv(events, e.id);
      events := Apply(events, Raise(e.id));
      Known(e, all);
    }

    method Clear(e: Shared)
      requires Valid() && Has(e)
      modifies this`events, e`signalled
      ensures Valid() && events == Apply(old(events), Op.Clear(e.id))
      ensures !e.signalled && events.on == old(events.on) - {e.id}
    {
      hide Ordered, On, GraphOf, Inv;
      Sizes(events);
      SetSignalled(e, false, all);
      StepInv(events, Op.Clear(e.id));
      events := Apply(events, Op.Clear(e.id));
    }

    /** `test()`, and also a call of `wait()` that finds the event signalled. */
    method Test(e: Shared) returns (b: bool)
      requires Valid() && Has(e)
      modifies this`events, e`signalled
      ensures Valid() && b == old(e.signalled) && events == if b then Apply(old(events), Take(e.id)) else old(events)
      ensures e.signalled <==> b && e.mode.Manual?
    {
      hide Ordered, On, GraphOf, Inv;
      Known(e, all);
      Sizes(events);
      if !e.signalled {
        return false;
      }
      if e.mode.Auto? {
        SetSignalled(e, false, all);
      }
      StepInv(events, Take(e.id));
      events := Apply(events, Take(e.id));
      b := true;
    }

    /** One round of `any()`. */
    method LinkAny(source: Shared, any: Shared)
      requires Valid() && Has(source) && Has(any) && Next(events, any.id, source.id)
      modifies this`events, all`signalled, source`deps
      ensures Valid() && events == Apply(old(events), Link(any.id))
    {
      hide Ordered, On, GraphOf, Inv;
      ghost var before, op := events, Link(any.id);
      Known(source, all);
      Sizes(events);
      SourceIsOlder(events, any.id);
      StepInv(events, op);
      if source.signalled {
        Signal(any);
      }
      AddDependency(source, any, all);
      events := Apply(before, op);
    }

    /** One round of `any()` on an event that nothing depends on yet. */
    method LinkNew(source: Shared, any: Shared)
      requires Valid() && Has(source) && Has(any) && Next(events, any.id, source.id) && events.g[any.id] == []
      modifies this`events, all`signalled, source`deps
      ensures Valid() && events.pending == old(events.pending)[any.id := old(events.pending[any.id])[1..]]
      ensures events.g == old(events.g)[source.id := old(events.g[source.id]) + [any.id]]
      ensures events.on == if source.id in old(events.on) then old(events.on) + {any.id} else old(events.on)
    {
      Sizes(events);
      SourceIsOlder(events, any.id);
      LinkLeaf(events, source.id, any.id);
      hide *;
      LinkAny(source, any);
    }

    /** The loop of `any()`. */
    method LinkAll(sources: seq<Shared>, any: Shared)
      requires Valid() && Has(any) && |events.g| == any.id + 1 && events.g[any.id] == []
      requires forall k :: 0 <= k < |sources| ==> Has(sources[k]) && sources[k].id < any.id
      requires |events.pending| == any.id + 1 && events.pending[any.id] == Ids(sources)
      modifies this`events, all`signalled, all`deps
      ensures Valid() && |events.g| == any.id + 1
      ensures events.on == if SomeOn(sources, old(events.on)) then old(events.on) + {any.id} else old(events.on)
      ensures forall k :: 0 <= k < |sources| ==> any.id in events.g[sources[k].id]
    {
      hide Valid, SomeOn;
      ghost var n, on := any.id, events.on;
      NoneOn(on);
      for k := 0 to |sources|
        invariant Valid() && |events.g| == |events.pending| == n + 1 && events.g[n] == []
        invariant events.pending[n] == Ids(sources)[k..]
        invariant events.on == if SomeOn(sources[..k], on) then on + {n} else on
        invariant forall j :: 0 <= j < k ==> n in events.g[sources[j].id]
      {
        SomeOnExtend(sources, k, on);
        LinkNew(sources[k], any);
      }
      assert sources[..|sources|] == sources;
    }

    /** `any()`: a new event that depends on all sources, and that is on at first if and only if
        one of them is. */
    method Any(mode: Mode, sources: seq<Shared>) returns (any: Shared)
      requires Valid() && forall k :: 0 <= k < |sources| ==> Has(sources[k])
      modifies this, all
      ensures Valid() && fresh(any) && all == old(all) + [any] && any.mode == mode
      ensures any.signalled <==> SomeOn(sources, old(events.on))
      ensures events.on - {any.id} == old(events.on)
      ensures forall k :: 0 <= k < |sources| ==> sources[k].id < |events.g| && any.id in events.g[sources[k].id]
    {
      hide Ordered, On, GraphOf, Inv, Apply, Ids, SomeOn, Forward, Modes;
      Sizes(events);
      any := Create(mode, false, Ids(sources));
      CreateLeaf(old(events), mode, Ids(sources));
      LinkAll(sources, any);
      Known(any, all);
    }
  }

  lemma NoneOn(on: set<EventId>)
    ensures !SomeOn([], on)
  {
  }

  /** `source` is what the loop of `any()` visits next. */
  ghost predicate Next(s: Events, any: EventId, source: EventId) {
    any < |s.pending| && s.pending[any] != [] && s.pending[any][0] == source && any < |s.g| && source < |s.g|
  }

  lemma CreateLeaf(s: Events, mode: Mode, sources: seq<EventId>)
    requires Sized(s) && Possible(s, Op.Create(mode, false, sources))
    ensures
      var r := Apply(s, Op.Create(mode, false, sources));
      r.g == s.g + [[]] && r.on == s.on && r.pending == s.pending + [sources]
  {
  }

  /** Making a new event depend on `source` turns on the new event, and only if `source` is on. */
  lemma LinkLeaf(s: Events, source: EventId, any: EventId)
    requires Sized(s) && Next(s, any, source) && source < any && s.g[any] == []
    ensures
      var r := Apply(s, Link(any));
      && r.pending == s.pending[any := s.pending[any][1..]]
      && r.g == s.g[source := s.g[source] + [any]]
      && r.on == if source in s.on then s.on + {any} else s.on
  {
    assert SignalAll(s.g, s.on + {any}, any, 0) == s.on + {any};
    assert any in s.on ==> s.on + {any} == s.on;
  }

  ghost predicate SomeOn(sources: seq<Shared>, on: set<EventId>) {
    exists k :: 0 <= k < |sources| && sources[k].id in on
  }

  lemma SomeOnExtend(sources: seq<Shared>, k: nat, on: set<EventId>)
    requires k < |sources|
    ensures SomeOn(sources[..k + 1], on) <==> SomeOn(sources[..k], on) || sources[k].id in on
  {
    assert sources[..k + 1] == sources[..k] + [sources[k]];
    if SomeOn(sources[..k], on) {
      var j :| 0 <= j < k && sources[..k][j].id in on;
      assert sources[..k + 1][j].id in on;
    } else if sources[k].id in on {
      assert sources[..k + 1][k].id in on;
    }
  }

  lemma Sizes(s: Events)
    requires Inv(s)
    ensures Sized(s)
  {
  }

  ghost predicate Modes(all: seq<Shared>, modes: seq<Mode>) {
    |modes| == |all| && forall i :: 0 <= i < |all| ==> modes[i] == all[i].mode
  }
}

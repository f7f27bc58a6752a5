/** `marl::Pool`: items handed out as reference-counted loans and kept on a free list in between. */
module Pool {

  import opened Common
  import opened Chains

  datatype Policy = Reconstruct | Preserve

  /** The backing data of one item; `constructed` says whether it holds a live object. */
  class Item {
    var refcount: int
    var next: Item?
    var constructed: bool

    constructor (constructed: bool)
      ensures refcount == 0 && next == null && this.constructed == constructed
    {
      this.refcount, this.next, this.constructed := 0, null, constructed;
    }
  }

  /** A loan of `item`, or an empty loan. */
  class Loan {
    var item: Item?

    constructor ()
      ensures item == null
    {
      item := null;
    }
  }

  /** For every item of a pool, the loans that hold it. */
  type Holders = map<Item, set<Loan>>

  ghost function Given(holders: Holders, x: Item, l: Loan): (r: Holders)
    requires x in holders
    ensures r.Keys == holders.Keys && r[x] != {} && forall y :: y in holders && y != x ==> r[y] == holders[y]
  {
    assert l in holders[x] + {l};
    holders[x := holders[x] + {l}]
  }

  ghost function Taken(holders: Holders, x: Item, l: Loan): (r: Holders)
    requires x in holders
    ensures r.Keys == holders.Keys && forall y :: y in holders && y != x ==> r[y] == holders[y]
  {
    holders[x := holders[x] - {l}]
  }

  /** `holders` is what the loans themselves say. */
  ghost predicate Held(loans: set<Loan>, holders: Holders)
    reads loans`item
  {
    && (forall l :: l in loans && l.item != null ==> l.item in holders && l in holders[l.item])
    && (forall x, l :: x in holders && l in holders[x] ==> l in loans && l.item == x)
  }

  ghost predicate Counted(holders: Holders)
    reads holders.Keys`refcount
  {
    forall x :: x in holders ==> x.refcount == |holders[x]|
  }

  /** An item holds a live object while it is on loan, and always if the policy preserves items. */
  ghost predicate Built(holders: Holders, policy: Policy)
    reads holders.Keys`constructed
  {
    forall x :: x in holders ==> (x.constructed <==> policy.Preserve? || holders[x] != {})
  }

  /** The free list, without duplicates, ... */
  ghost predicate FreeList(free: Item?, chain: seq<Item>)
    reads chain`next
  {
    && free == (if chain == [] then null else chain[0])
    && (forall i :: 0 <= i < |chain| ==> chain[i].next == After(chain, i, null))
    && NoDuplicates(chain)
  }

  /** ... holds exactly the items that are not on loan. */
  ghost predicate Idle(chain: seq<Item>, holders: Holders) {
    && (forall i :: 0 <= i < |chain| ==> chain[i] in holders)
    && (forall x :: x in holders ==> (x in chain <==> holders[x] == {}))
  }

  /** The items allocated so far, without duplicates, are the ones that `holders` speaks of. */
  ghost predicate Known(items: seq<Item>, holders: Holders) {
    && (forall x :: x in holders ==> x in items)
    && (forall i :: 0 <= i < |items| ==> items[i] in holders)
    && NoDuplicates(items)
  }

  // ---- one change at a time ----

  /** An empty loan starts to hold `x`. */
  method SetItem(l: Loan, x: Item, ghost loans: set<Loan>, ghost holders: Holders)
    requires Held(loans, holders) && l in loans && l.item == null && x in holders
    modifies l`item
    ensures l.item == x && Held(loans, Given(holders, x, l))
  {
    l.item := x;
  }

  method ClearItem(l: Loan, ghost x: Item, ghost loans: set<Loan>, ghost holders: Holders)
    requires Held(loans, holders) && l in loans && l.item == x && x in holders
    modifies l`item
    ensures l.item == null && Held(loans, Taken(holders, x, l))
  {
    l.item := null;
  }

  method Increment(x: Item, ghost l: Loan, ghost holders: Holders)
    requires Counted(holders) && x in holders && l !in holders[x]
    modifies x`refcount
    ensures Counted(Given(holders, x, l))
  {
    x.refcount := x.refcount + 1;
  }

  method Decrement(x: Item, ghost l: Loan, ghost holders: Holders) returns (refs: int)
    requires Counted(holders) && x in holders && l in holders[x]
    modifies x`refcount
    ensures Counted(Taken(holders, x, l)) && refs >= 0 && (refs == 0 <==> Taken(holders, x, l)[x] == {})
  {
    x.refcount := x.refcount - 1;
    refs := x.refcount;
  }

  method Push(x: Item, free: Item?, ghost chain: seq<Item>) returns (r: Item?)
    requires FreeList(free, chain) && x !in chain
    modifies x`next
    ensures r == x && FreeList(r, [x] + chain)
  {
    x.next := free;
    r := x;
    ghost var more := [x] + chain;
    forall k | 0 <= k < |more| ensures more[k].next == After(more, k, null) {
      Joined([x], chain, k, null);
      assert k > 0 ==> more[k] == chain[k - 1];
    }
  }

  method Pop(free: Item, ghost chain: seq<Item>) returns (r: Item?)
    requires FreeList(free, chain)
    ensures chain != [] && free == chain[0] && FreeList(r, chain[1..])
  {
    r := free.next;
    ghost var rest := chain[1..];
    forall k | 0 <= k < |rest| ensures rest[k].next == After(rest, k, null) {
      assert rest[k] == chain[k + 1];
    }
  }

  /** The object of an item is constructed when it goes on loan under Reconstruct, ... */
  method Construct(x: Item, policy: Policy, ghost l: Loan, ghost holders: Holders)
    requires Built(holders, policy) && x in holders
    modifies x`constructed
    ensures Built(Given(holders, x, l), policy)
  {
    if policy.Reconstruct? {
      x.constructed := true;
    }
  }

  /** ... and destroyed when the last loan of it ends. */
  method Destruct(x: Item, policy: Policy, ghost l: Loan, ghost holders: Holders)
    requires Built(holders, policy) && x in holders && Taken(holders, x, l)[x] == {}
    modifies x`constructed
    ensures Built(Taken(holders, x, l), policy)
  {
    if policy.Reconstruct? {
      x.constructed := false;
    }
  }

  /** Sharing an item that is on loan, or giving up a share of it, leaves the free list alone. */
  lemma StillLent(chain: seq<Item>, holders: Holders, after: Holders, x: Item, policy: Policy)
    requires Idle(chain, holders) && Built(holders, policy) && x in holders && holders[x] != {}
    requires after.Keys == holders.Keys && after[x] != {}
    requires forall y :: y in holders && y != x ==> after[y] == holders[y]
    ensures Idle(chain, after) && Built(after, policy)
  {
  }

  lemma SameItems(items: seq<Item>, holders: Holders, after: Holders)
    requires Known(items, holders) && after.Keys == holders.Keys
    ensures Known(items, after)
  {
  }

  lemma NewItem(x: Item, items: seq<Item>, chain: seq<Item>, loans: set<Loan>, holders: Holders, policy: Policy)
    requires x !in holders && x.refcount == 0 && x.constructed == policy.Preserve?
    requires Held(loans, holders) && Counted(holders) && Built(holders, policy) && Idle(chain, holders)
    requires Known(items, holders)
    ensures
      var more := holders[x := {}];
      && Held(loans, more) && Counted(more) && Built(more, policy) && Idle([x] + chain, more)
      && Known(items + [x], more) && x !in chain
  {
  }

  lemma FirstFree(chain: seq<Item>, holders: Holders, free: Item?)
    requires Idle(chain, holders) && FreeList(free, chain) && free != null
    ensures chain != [] && free == chain[0] && free in holders && holders[free] == {} && NoDuplicates(chain)
  {
  }

  lemma Lent(chain: seq<Item>, holders: Holders, l: Loan)
    requires Idle(chain, holders) && NoDuplicates(chain) && chain != []
    ensures chain[0] in holders && Idle(chain[1..], Given(holders, chain[0], l))
  {
    var x := chain[0];
    forall y | y in holders ensures y in chain[1..] <==> y in chain && y != x {
      if y in chain && y != x {
        var i :| 0 <= i < |chain| && chain[i] == y;
        assert chain[1..][i - 1] == y;
      }
    }
  }

  lemma Returned(chain: seq<Item>, holders: Holders, x: Item, l: Loan)
    requires Idle(chain, holders) && x in holders && l in holders[x] && Taken(holders, x, l)[x] == {}
    ensures x !in chain && Idle([x] + chain, Taken(holders, x, l))
  {
  }

  lemma NotHolding(l: Loan, x: Item, loans: set<Loan>, holders: Holders)
    requires Held(loans, holders) && l.item == null && x in holders
    ensures l !in holders[x] && Held(loans + {l}, holders)
  {
  }

  lemma EmptyLoan(l: Loan, loans: set<Loan>, holders: Holders)
    requires Held(loans, holders) && l.item == null
    ensures Held(loans + {l}, holders)
  {
  }

  lemma Holding(l: Loan, loans: set<Loan>, holders: Holders)
    requires Held(loans, holders) && l in loans && l.item != null
    ensures l.item in holders && l in holders[l.item]
  {
  }

  /** A new loan of `item`, which counts a reference. */
  method NewLoan(item: Item, ghost loans: set<Loan>, ghost holders: Holders) returns (l: Loan)
    requires Held(loans, holders) && Counted(holders) && item in holders
    modifies item`refcount
    ensures fresh(l) && l.item == item
    ensures Held(loans + {l}, Given(holders, item, l)) && Counted(Given(holders, item, l))
  {
    hide Counted, Given;
    l := new Loan();
    NotHolding(l, item, loans, holders);
    SetItem(l, item, loans + {l}, holders);
    Increment(item, l, holders);
  }

  /** What the fields of items and loans amount to: the free list, the loans that exist (empty ones
      included), who holds what, and the largest number of items that were on loan at once. */
  datatype Ledger = Ledger(chain: seq<Item>, loans: set<Loan>, holders: Holders, peak: int)

  /** Lends the first item of the free list. */
  method LendItem(item: Item, policy: Policy, ghost chain: seq<Item>, ghost loans: set<Loan>, ghost holders: Holders)
    returns (l: Loan)
    requires Held(loans, holders) && Counted(holders) && Built(holders, policy) && Idle(chain, holders)
    requires NoDuplicates(chain) && chain != [] && item == chain[0] && item in holders
    modifies item`refcount, item`constructed
    ensures fresh(l) && l.item == item
    ensures
      var after := Given(holders, item, l);
      Held(loans + {l}, after) && Counted(after) && Built(after, policy) && Idle(chain[1..], after)
  {
    hide Held, Counted, Built, Idle, Given, NoDuplicates;
    l := NewLoan(item, loans, holders);
    Construct(item, policy, l, holders);
    Lent(chain, holders, l);
  }

  /** A loan takes over the share that another loan has of `x`; the count stays the same. */
  method HandOver(l: Loan, other: Loan, x: Item, ghost loans: set<Loan>, ghost holders: Holders)
    requires Held(loans, holders) && Counted(holders) && x in holders
    requires l in loans && other in loans && l.item == null && other.item == x
    modifies l`item, other`item
    ensures l.item == x && other.item == null && Passed(holders, x, other, l)[x] != {}
    ensures Held(loans, Passed(holders, x, other, l)) && Counted(Passed(holders, x, other, l))
  {
    Holding(other, loans, holders);
    NotHolding(l, x, loans, holders);
    hide Held;
    SetItem(l, x, loans, holders);
    ClearItem(other, x, loans, Given(holders, x, l));
    assert Passed(holders, x, other, l)[x] == holders[x] + {l} - {other};
    assert l in Passed(holders, x, other, l)[x];
  }

  ghost function Passed(holders: Holders, x: Item, from: Loan, to: Loan): (r: Holders)
    requires x in holders
    ensures r.Keys == holders.Keys && forall y :: y in holders && y != x ==> r[y] == holders[y]
  {
    Taken(Given(holders, x, to), x, from)
  }

  /** Takes one reference from `x`, which goes back to the free list if it was the last one. */
  method Drop(x: Item, ghost l: Loan, policy: Policy, free: Item?, ghost chain: seq<Item>, ghost holders: Holders)
    returns (r: Item?)
    requires Counted(holders) && Built(holders, policy) && FreeList(free, chain) && Idle(chain, holders)
    requires x in holders && l in holders[x]
    modifies x
    ensures
      var after := Taken(holders, x, l);
      var chain' := if after[x] == {} then [x] + chain else chain;
      Counted(after) && Built(after, policy) && FreeList(r, chain') && Idle(chain', after)
  {
    hide Counted, Built, FreeList, Idle, Taken, NoDuplicates;
    r := free;
    var refs := Decrement(x, l, holders);
    assert refs >= 0;
    if refs == 0 {
      Returned(chain, holders, x, l);
      Destruct(x, policy, l, holders);
      r := Push(x, free, chain);
    } else {
      StillLent(chain, holders, Taken(holders, x, l), x, policy);
    }
  }

  function ItemOf(l: Loan): (r: set<Item>)
    reads l
  {
    if l.item == null then {} else {l.item}
  }

  /** What a program can do with the loans it has. */
  datatype LoanOp =
    | Copy(loan: Loan)
    | Move(loan: Loan)
    | AssignCopy(loan: Loan, rhs: Loan)
    | AssignMove(loan: Loan, rhs: Loan)
    | Reset(loan: Loan)
    | Destroy(loan: Loan)

  /** The objects that an operation may change besides the item of its first loan. */
  function Touched(op: LoanOp): (r: set<object>)
    reads op.loan, if op.AssignCopy? || op.AssignMove? then {op.rhs} else {}
  {
    match op
    case AssignCopy(loan, rhs) => ItemOf(loan) + ItemOf(rhs)
    case AssignMove(loan, rhs) => ItemOf(loan) + {rhs}
    case _ => ItemOf(op.loan)
  }

  /** `l` gives up its share of `x`; a null `x` means the loan is empty. */
  ghost function Released(g: Ledger, x: Item?, l: Loan): (r: Ledger)
  {
    if x == null || x !in g.holders then g
    else
      var after := Taken(g.holders, x, l);
      g.(holders := after, chain := if after[x] == {} then [x] + g.chain else g.chain)
  }

  /** `l` takes a share of `x` */
  ghost function Shared(g: Ledger, x: Item?, l: Loan): (r: Ledger)
  {
    if x == null || x !in g.holders then g else g.(holders := Given(g.holders, x, l))
  }

  /** The storage shared by a pool and its loans. */
  class Storage {
    const policy: Policy
    var items: seq<Item>
    var free: Item?
    ghost var ledger: Ledger

    ghost predicate Valid()
      reads this, ledger.chain, ledger.loans, ledger.holders.Keys
    {
      var Ledger(chain, loans, holders, peak) := ledger;
      && Held(loans, holders) && Counted(holders) && Built(holders, policy)
      && FreeList(free, chain) && Idle(chain, holders) && Known(items, holders)
      && OnLoan() <= peak
    }

    /** How many items are on loan. */
    ghost function OnLoan(): (n: int)
      reads this
    {
      |items| - |ledger.chain|
    }

    constructor (policy: Policy)
      ensures Valid() && this.policy == policy && items == [] && ledger == Ledger([], {}, map[], 0)
    {
      this.policy, items, free := policy, [], null;
      ledger := Ledger([], {}, map[], 0);
    }

    /** Adds a new item to the free list. */
    method AddItem()
      requires Valid()
      modifies this`items, this`free, this`ledger
      ensures Valid() && |items| == |old(items)| + 1 && fresh(items[|old(items)|])
      ensures items[..|old(items)|] == old(items)
      ensures
        var item := items[|old(items)|];
        ledger == old(ledger).(chain := [item] + old(ledger.chain), holders := old(ledger.holders)[item := {}])
    {
      hide Held, Counted, Built, FreeList, Idle, Known;
      var item := new Item(policy.Preserve?);
      NewItem(item, items, ledger.chain, ledger.loans, ledger.holders, policy);
      items := items + [item];
      free := Push(item, free, ledger.chain);
      ledger := ledger.(chain := [item] + ledger.chain, holders := ledger.holders[item := {}]);
    }

    /** Lends the first free item. */
    method Lend() returns (l: Loan)
      requires Valid() && free != null
      modifies this`free, this`ledger, free`refcount, free`constructed
      ensures Valid() && fresh(l) && l.item == old(free) && old(ledger.chain) != [] && old(free) in old(ledger.holders)
      ensures
        var chain := old(ledger.chain)[1..];
        ledger == Ledger(chain, old(ledger.loans) + {l}, Given(old(ledger.holders), old(free), l),
                         Max(old(ledger.peak), |items| - |chain|))
    {
      hide Held, Counted, Built, FreeList, Idle, Known, Given, NoDuplicates;
      ghost var Ledger(chain, loans, holders, peak) := ledger;
      var item := free;
      FirstFree(chain, holders, free);
      free := Pop(free, chain);
      l := LendItem(item, policy, chain, loans, holders);
      SameItems(items, holders, Given(holders, item, l));
      ledger := Ledger(chain[1..], loans + {l}, Given(holders, item, l), Max(peak, |items| - |chain| + 1));
    }

    /** `Loan::reset()`, also what the destructor of a loan does first: the item goes back to the
        free list when no other loan holds it. */
    method Reset(l: Loan)
      requires Valid() && l in ledger.loans
      modifies this`free, this`ledger, l`item, ItemOf(l)
      ensures Valid() && l.item == null && ledger == Released(old(ledger), old(l.item), l)
    {
      hide Held, Counted, Built, FreeList, Idle, Known, Taken, NoDuplicates;
      if l.item != null {
        var item := l.item;
        ghost var Ledger(chain, loans, holders, peak) := ledger;
        Holding(l, loans, holders);
        SameItems(items, holders, Taken(holders, item, l));
        free := Drop(item, l, policy, free, chain, holders);
        ClearItem(l, item, loans, holders);
        ledger := Released(ledger, item, l);
      }
    }

    /** `Loan(const Loan&)` */
    method Copy(other: Loan) returns (l: Loan)
      requires Valid() && other in ledger.loans
      modifies this`ledger, ItemOf(other)
      ensures Valid() && fresh(l) && l.item == other.item == old(other.item)
      ensures ledger == Shared(old(ledger), other.item, l).(loans := old(ledger.loans) + {l})
    {
      hide Held, Counted, Built, FreeList, Idle, Known, Given, NoDuplicates;
      ghost var Ledger(chain, loans, holders, peak) := ledger;
      if other.item == null {
        l := new Loan();
        EmptyLoan(l, loans, holders);
      } else {
        Holding(other, loans, holders);
        ghost var item := other.item;
        l := NewLoan(other.item, loans, holders);
        StillLent(chain, holders, Given(holders, item, l), item, policy);
        SameItems(items, holders, Given(holders, item, l));
        holders := Given(holders, item, l);
      }
      ledger := Ledger(chain, loans + {l}, holders, peak);
    }

    /** `Loan(Loan&&)` */
    method Move(other: Loan) returns (l: Loan)
      requires Valid() && other in ledger.loans
      modifies this`ledger, other`item
      ensures Valid() && fresh(l) && l.item == old(other.item) && other.item == null
      ensures ledger.loans == old(ledger.loans) + {l}
      ensures ledger.chain == old(ledger.chain) && ledger.peak == old(ledger.peak)
    {
      hide Held, Counted, Built, FreeList, Idle, Known, NoDuplicates;
      l := new Loan();
      EmptyLoan(l, ledger.loans, ledger.holders);
      ledger := ledger.(loans := ledger.loans + {l});
      Swap(l, other);
    }

    /** Swaps an empty loan with another one. */
    method Swap(l: Loan, other: Loan)
      requires Valid() && l in ledger.loans && other in ledger.loans && l.item == null
      modifies this`ledger, l`item, other`item
      ensures Valid() && l.item == old(other.item) && other.item == null
      ensures ledger == old(ledger).(holders := ledger.holders)
    {
      hide Held, Counted, Built, FreeList, Idle, Known, NoDuplicates, Given, Taken;
      if other.item != null {
        ghost var Ledger(chain, loans, holders, peak) := ledger;
        ghost var x := other.item;
        Holding(other, loans, holders);
        HandOver(l, other, other.item, loans, holders);
        ghost var after := Passed(holders, x, other, l);
        StillLent(chain, holders, after, x, policy);
        SameItems(items, holders, after);
        ledger := ledger.(holders := after);
      }
    }

    /** `operator=(const Loan&)`; assigning a loan to itself empties it. */
    method AssignCopy(l: Loan, rhs: Loan)
      requires Valid() && l in ledger.loans && rhs in ledger.loans
      modifies this`free, this`ledger, l`item, ItemOf(l), ItemOf(rhs)
      ensures Valid() && l.item == (if l == rhs then null else old(rhs.item))
      ensures l != rhs ==> rhs.item == old(rhs.item)
      ensures ledger.loans == old(ledger.loans) && ledger.peak == old(ledger.peak)
    {
      hide Held, Counted, Built, FreeList, Idle, Known, NoDuplicates, Given, Taken;
      Reset(l);
      if rhs.item != null {
        Share(l, rhs.item, rhs);
      }
    }

    /** An empty loan takes a share of an item that is on loan. */
    method Share(l: Loan, x: Item, ghost other: Loan)
      requires Valid() && l in ledger.loans && other in ledger.loans && l.item == null && other.item == x
      modifies this`ledger, l`item, x`refcount
      ensures Valid() && l.item == x && ledger == old(ledger).(holders := ledger.holders)
    {
      hide Held, Counted, Built, FreeList, Idle, Known, NoDuplicates, Given, Taken;
      ghost var Ledger(chain, loans, holders, peak) := ledger;
      Holding(other, loans, holders);
      NotHolding(l, x, loans, holders);
      SetItem(l, x, loans, holders);
      Increment(x, l, holders);
      ghost var after := Given(holders, x, l);
      StillLent(chain, holders, after, x, policy);
      SameItems(items, holders, after);
      ledger := ledger.(holders := after);
    }

    /** `operator=(Loan&&)`; moving a loan to itself empties it, too. */
    method AssignMove(l: Loan, rhs: Loan)
      requires Valid() && l in ledger.loans && rhs in ledger.loans
      modifies this`free, this`ledger, l`item, rhs`item, ItemOf(l)
      ensures Valid() && l.item == (if l == rhs then null else old(rhs.item)) && rhs.item == null
      ensures ledger.loans == old(ledger.loans) && ledger.peak == old(ledger.peak)
    {
      Reset(l);
      Swap(l, rhs);
    }

    /** `~Loan()` */
    method Destroy(l: Loan)
      requires Valid() && l in ledger.loans
      modifies this`free, this`ledger, l`item, ItemOf(l)
      ensures Valid() && ledger == Released(old(ledger), old(l.item), l).(loans := old(ledger.loans) - {l})
    {
      hide Counted, Built, FreeList, Idle, Known, NoDuplicates, Given, Taken;
      Reset(l);
      ledger := ledger.(loans := ledger.loans - {l});
    }

    /** Any operation on loans; the result is the new loan, if there is one. */
    method Perform(op: LoanOp) returns (l: Loan?)
      requires Valid() && op.loan in ledger.loans && (op.AssignCopy? || op.AssignMove? ==> op.rhs in ledger.loans)
      modifies this`free, this`ledger, op.loan`item, Touched(op)
      ensures Valid() && ledger.peak == old(ledger.peak)
      ensures (l != null <==> op.Copy? || op.Move?) && (l != null ==> fresh(l))
      ensures ledger.loans == (if l != null then old(ledger.loans) + {l}
                               else if op.Destroy? then old(ledger.loans) - {op.loan} else old(ledger.loans))
    {
      hide Valid, Given, Taken;
      l := null;
      match op {
        case Copy(loan) => l := Copy(loan);
        case Move(loan) => l := Move(loan);
        case AssignCopy(loan, rhs) => AssignCopy(loan, rhs);
        case AssignMove(loan, rhs) => AssignMove(loan, rhs);
        case Reset(loan) => Reset(loan);
        case Destroy(loan) => Destroy(loan);
      }
    }

    /** Adds `count` new items to the free list. */
    method AddItems(count: nat)
      requires Valid()
      modifies this`items, this`free, this`ledger
      ensures Valid() && |items| == |old(items)| + count && |ledger.chain| == |old(ledger.chain)| + count
      ensures ledger.loans == old(ledger.loans) && ledger.peak == old(ledger.peak)
      ensures forall x :: x in items ==> x in old(items) || fresh(x)
    {
      for i := 0 to count
        invariant Valid() && |items| == |old(items)| + i && |ledger.chain| == |old(ledger.chain)| + i
        invariant ledger.loans == old(ledger.loans) && ledger.peak == old(ledger.peak)
        invariant forall x :: x in items ==> x in old(items) || fresh(x)
      {
        hide Valid;
        ghost var n, before := |items|, items;
        AddItem();
        assert items == before + [items[n]];
      }
    }
  }

  class UnboundedPool {
    const storage: Storage

    /** Memory is bounded by the largest number of items that were on loan at once. */
    ghost predicate Valid()
      reads this, storage, storage.ledger.chain, storage.ledger.loans, storage.ledger.holders.Keys
    {
      storage.Valid() && (storage.items == [] || 32 <= |storage.items| <= Max(32, 2 * storage.ledger.peak))
    }

    constructor (policy: Policy)
      ensures Valid() && fresh(storage) && storage.policy == policy && storage.ledger == Ledger([], {}, map[], 0)
    {
      storage := new Storage(policy);
    }

    /** One round of `borrow()`: lends an item that nobody holds. */
    method BorrowOne() returns (l: Loan)
      requires Valid()
      modifies storage, storage.items
      ensures Valid() && fresh(l) && l.item != null && storage.ledger.loans == old(storage.ledger.loans) + {l}
      ensures forall m :: m in old(storage.ledger.loans) ==> m.item != l.item
      ensures storage.OnLoan() == old(storage.OnLoan()) + 1
      ensures storage.ledger.peak == Max(old(storage.ledger.peak), storage.OnLoan())
      ensures forall x :: x in storage.items ==> x in old(storage.items) || fresh(x)
    {
      hide Storage.Valid, Given;
      NothingFree(storage);
      if storage.free == null {
        storage.AddItems(Max(|storage.items|, 32));
      }
      NothingFree(storage);
      l := storage.Lend();
    }

    /** `borrow(n, f)`: lends `n` different items that nobody held. */
    method Borrow(n: nat) returns (lent: seq<Loan>)
      requires Valid()
      modifies storage, storage.items
      ensures Valid() && |lent| == n && fresh(lent)
      ensures Added(old(storage.ledger.loans), storage.ledger.loans, lent)
      ensures storage.OnLoan() == old(storage.OnLoan()) + n
      ensures storage.ledger.peak == Max(old(storage.ledger.peak), storage.OnLoan())
    {
      hide Valid, Storage.Valid, Added;
      lent := [];
      WithinPeak(this);
      NoneAdded(storage.ledger.loans);
      for i := 0 to n
        invariant Valid() && |lent| == i && fresh(lent)
        invariant storage.OnLoan() == old(storage.OnLoan()) + i
        invariant storage.ledger.peak == Max(old(storage.ledger.peak), storage.OnLoan())
        invariant Added(old(storage.ledger.loans), storage.ledger.loans, lent)
        invariant forall x :: x in storage.items ==> x in old(storage.items) || fresh(x)
      {
        ghost var loans := storage.ledger.loans;
        assert Added(old(storage.ledger.loans), loans, lent);
        assert forall k :: 0 <= k < |storage.items| ==>
            storage.items[k] in old(storage.items) || fresh(storage.items[k]);
        var l := BorrowOne();
        MoreAdded(old(storage.ledger.loans), loans, lent, l);
        lent := lent + [l];
      }
    }

    /** Memory stays bounded whatever happens to the loans. */
    method Perform(op: LoanOp) returns (l: Loan?)
      requires Valid() && op.loan in storage.ledger.loans
      requires op.AssignCopy? || op.AssignMove? ==> op.rhs in storage.ledger.loans
      modifies storage`free, storage`ledger, op.loan`item, Touched(op)
      ensures Valid() && storage.ledger.peak == old(storage.ledger.peak)
    {
      hide Storage.Valid;
      l := storage.Perform(op);
    }
  }

  lemma WithinPeak(pool: UnboundedPool)
    requires pool.Valid()
    ensures pool.storage.OnLoan() <= pool.storage.ledger.peak
  {
    NothingFree(pool.storage);
  }

  /** The loans `lent` are the new ones, and each is the only loan that holds its item. */
  ghost predicate Added(before: set<Loan>, loans: set<Loan>, lent: seq<Loan>)
    reads loans`item, lent`item
  {
    && loans == before + (set l | l in lent)
    && (forall k :: 0 <= k < |lent| ==> lent[k].item != null)
    && (forall l, k :: l in loans && 0 <= k < |lent| && l.item == lent[k].item ==> l == lent[k])
  }

  lemma NoneAdded(loans: set<Loan>)
    ensures Added(loans, loans, [])
  {
  }

  lemma MoreAdded(before: set<Loan>, loans: set<Loan>, lent: seq<Loan>, l: Loan)
    requires Added(before, loans, lent) && l.item != null && forall m :: m in loans ==> m.item != l.item
    ensures Added(before, loans + {l}, lent + [l])
  {
    assert forall k :: 0 <= k < |lent| ==> lent[k] in loans;
  }

  class BoundedPool {
    const storage: Storage
    ghost const capacity: nat

    ghost predicate Valid()
      reads this, storage, storage.ledger.chain, storage.ledger.loans, storage.ledger.holders.Keys
    {
      storage.Valid() && |storage.items| == capacity
    }

    constructor (policy: Policy, n: nat)
      ensures Valid() && fresh(storage) && storage.policy == policy && capacity == n && storage.ledger.loans == {}
    {
      storage := new Storage(policy);
      capacity := n;
      new;
      storage.AddItems(n);
    }

    /** One round of `borrow()`; null means that it goes on waiting, because all items are on loan. */
    method BorrowOne() returns (l: Loan?)
      requires Valid()
      modifies storage, storage.items
      ensures Valid() && storage.items == old(storage.items) && (l == null <==> old(storage.ledger.chain) == [])
      ensures l == null ==> storage.ledger == old(storage.ledger) && forall x :: x in storage.items ==> x.refcount > 0
      ensures l != null ==> fresh(l) && l.item != null && storage.ledger.loans == old(storage.ledger.loans) + {l}
      ensures l != null ==> storage.OnLoan() == old(storage.OnLoan()) + 1
      ensures l != null ==> forall m :: m in old(storage.ledger.loans) ==> m.item != l.item
    {
      hide Storage.Valid, Given;
      NothingFree(storage);
      if storage.free == null {
        forall x | x in storage.items ensures x.refcount > 0 {
          CountsLoans(storage, x);
        }
        return null;
      }
      l := storage.Lend();
    }

    /** `borrow(n, f)` up to its end, or to the point where it waits because all items are on loan. */
    method Borrow(n: nat) returns (lent: seq<Loan>)
      requires Valid()
      modifies storage, storage.items
      ensures Valid() && fresh(lent) && storage.items == old(storage.items)
      ensures |lent| <= n && (|lent| < n ==> storage.ledger.chain == [])
      ensures storage.OnLoan() == old(storage.OnLoan()) + |lent|
      ensures Added(old(storage.ledger.loans), storage.ledger.loans, lent)
    {
      hide Valid, Storage.Valid, Added;
      lent := [];
      NoneAdded(storage.ledger.loans);
      while |lent| < n
        invariant Valid() && |lent| <= n && fresh(lent) && storage.items == old(storage.items)
        invariant storage.OnLoan() == old(storage.OnLoan()) + |lent|
        invariant Added(old(storage.ledger.loans), storage.ledger.loans, lent)
        decreases n - |lent|
      {
        ghost var loans := storage.ledger.loans;
        assert Added(old(storage.ledger.loans), loans, lent);
        var l := BorrowOne();
        if l == null {
          return;
        }
        MoreAdded(old(storage.ledger.loans), loans, lent, l);
        lent := lent + [l];
      }
    }

    /** The number of items never changes. */
    method Perform(op: LoanOp) returns (l: Loan?)
      requires Valid() && op.loan in storage.ledger.loans
      requires op.AssignCopy? || op.AssignMove? ==> op.rhs in storage.ledger.loans
      modifies storage`free, storage`ledger, op.loan`item, Touched(op)
      ensures Valid()
    {
      hide Storage.Valid;
      l := storage.Perform(op);
    }
  }

  ghost function Elements(q: seq<Item>): (r: set<Item>) {
    set x | x in q
  }

  lemma {:induction false} DistinctElements(q: seq<Item>)
    requires NoDuplicates(q)
    ensures |Elements(q)| == |q|
  {
    if q != [] {
      var last := |q| - 1;
      DistinctElements(q[..last]);
      assert q == q[..last] + [q[last]];
      assert Elements(q) == Elements(q[..last]) + {q[last]};
    }
  }

  /** `OnLoan()` is the number of items with a reference. */
  lemma CountsItems(storage: Storage)
    requires storage.Valid()
    ensures storage.OnLoan() == |set x | x in storage.items && x.refcount > 0|
  {
    hide Built, Held;
    var all, idle := Elements(storage.items), Elements(storage.ledger.chain);
    DistinctElements(storage.items);
    DistinctElements(storage.ledger.chain);
    assert (set x | x in storage.items && x.refcount > 0) == all - idle;
    assert idle <= all;
  }

  /** The count of an item is the number of loans that hold it; the item is on the free list if and
      only if that is none, and it holds a live object exactly when the policy says so. */
  lemma CountsLoans(storage: Storage, x: Item)
    requires storage.Valid() && x in storage.items
    ensures
      var holding := set l | l in storage.ledger.loans && l.item == x;
      && x.refcount == |holding|
      && (x in storage.ledger.chain <==> holding == {})
      && (x.constructed <==> storage.policy.Preserve? || holding != {})
  {
    hide FreeList;
    var g := storage.ledger;
    assert (set l | l in g.loans && l.item == x) == g.holders[x];
  }

  lemma NothingFree(storage: Storage)
    requires storage.Valid()
    ensures storage.OnLoan() <= storage.ledger.peak
    ensures storage.free == null <==> storage.ledger.chain == []
    ensures storage.free != null ==>
              storage.free in storage.items && forall m :: m in storage.ledger.loans ==> m.item != storage.free
  {
    hide Counted, Built;
    if storage.free != null {
      FirstFree(storage.ledger.chain, storage.ledger.holders, storage.free);
    }
  }
}

/** `containers::list`: a doubly linked list that keeps released entries on a free list. */
module List {

  import opened Common
  import opened Chains

  /** `data` is None while the entry is raw storage, on the free list. */
  class Entry<T> {
    var data: Option<T>
    var next: Entry?<T>
    var prev: Entry?<T>

    constructor ()
      ensures data.None? && next == null && prev == null
    {
      data, next, prev := None, null, null;
    }
  }

  /** `first` heads a well-linked, acyclic, null-terminated chain of exactly the entries of `q`. */
  ghost predicate Chain<T>(first: Entry?<T>, q: seq<Entry<T>>)
    reads q
  {
    && first == (if q == [] then null else q[0])
    && (forall i, j :: 0 <= i < j < |q| ==> q[i] != q[j])
    && (forall i :: 0 <= i < |q| ==> q[i].next == After(q, i, null) && q[i].prev == Before(q, i, null))
  }

  /** `unlink()`: takes the entry out of the chain and returns the new first entry. */
  method Unlink<T>(entry: Entry<T>, first: Entry?<T>, ghost q: seq<Entry<T>>, ghost i: nat) returns (r: Entry?<T>)
    requires Chain(first, q) && i < |q| && q[i] == entry
    modifies q
    ensures Chain(r, Without(q, i)) && entry.next == null && entry.prev == null && entry !in Without(q, i)
    ensures forall e :: e in q ==> e.data == old(e.data)
  {
    hide After, Before;
    Adjacent(q, i, null);
    r := first;
    if first == entry {
      r := first.next;
    }
    if entry.prev != null {
      entry.prev.next := entry.next;
    }
    if entry.next != null {
      entry.next.prev := entry.prev;
    }
    entry.prev := null;
    entry.next := null;
    assert forall j :: 0 <= j < |q| && j != i ==> q[j].next == After(q, if j + 1 == i then i else j, null);
    assert forall j :: 0 <= j < |q| && j != i ==> q[j].prev == Before(q, if j == i + 1 then i else j, null);
    ghost var rest := Without(q, i);
    forall k | 0 <= k < |rest| ensures rest[k].next == After(rest, k, null) && rest[k].prev == Before(rest, k, null) {
      Neighbours(q, i, k, null);
    }
  }

  /** `link()`: puts an unlinked entry at the front of the chain. */
  method Link<T>(entry: Entry<T>, first: Entry?<T>, ghost q: seq<Entry<T>>) returns (r: Entry?<T>)
    requires Chain(first, q) && entry !in q && entry.next == null && entry.prev == null
    modifies q, entry
    ensures r == entry && Chain(r, [entry] + q)
    ensures entry.data == old(entry.data) && forall e :: e in q ==> e.data == old(e.data)
  {
    ghost var more := [entry] + q;
    if first != null {
      entry.next := first;
      first.prev := entry;
    }
    r := entry;
    forall k | 0 <= k < |more| ensures more[k].next == After(more, k, null) && more[k].prev == Before(more, k, null) {
      assert k > 0 ==> more[k] == q[k - 1];
    }
  }

  ghost predicate Disjoint<T>(q: seq<Entry<T>>, p: seq<Entry<T>>) {
    forall i, j :: 0 <= i < |q| && 0 <= j < |p| ==> q[i] != p[j]
  }

  lemma Distinct<T>(first: Entry?<T>, q: seq<Entry<T>>)
    requires Chain(first, q)
    ensures first == (if q == [] then null else q[0]) && forall i, j :: 0 <= i < j < |q| ==> q[i] != q[j]
  {
  }

  /** Constructs or destroys the value of an entry of the chain; the links do not change. */
  method SetData<T>(entry: Entry<T>, data: Option<T>, ghost first: Entry?<T>, ghost q: seq<Entry<T>>)
    requires Chain(first, q)
    modifies entry`data
    ensures entry.data == data && Chain(first, q)
  {
    entry.data := data;
  }

  /** Moves entry `i` of one chain to the front of another one and gives it new data. */
  method Move<T>(entry: Entry<T>, from: Entry?<T>, ghost q: seq<Entry<T>>, ghost i: nat,
                 to: Entry?<T>, ghost p: seq<Entry<T>>, data: Option<T>)
    returns (from': Entry?<T>, to': Entry?<T>)
    requires Chain(from, q) && Chain(to, p) && i < |q| && q[i] == entry && Disjoint(q, p)
    modifies q, p
    ensures Chain(from', Without(q, i)) && Chain(to', [entry] + p) && entry.data == data
    ensures Disjoint(Without(q, i), [entry] + p)
    ensures forall k :: 0 <= k < |q| && k != i ==> q[k].data == old(q[k].data)
    ensures forall k :: 0 <= k < |p| ==> p[k].data == old(p[k].data)
  {
    hide Chain, After, Before;
    Distinct(from, q);
    from' := Unlink(entry, from, q, i);
    to' := Link(entry, to, p);
    SetData(entry, data, to', [entry] + p);
  }

  /** Entries that hold no value. */
  ghost predicate Raw<T>(q: seq<Entry<T>>)
    reads q
  {
    forall i :: 0 <= i < |q| ==> q[i].data.None?
  }

  /** Entries that hold exactly the given values, in order. */
  ghost predicate Store<T>(q: seq<Entry<T>>, values: seq<T>)
    reads q
  {
    |q| == |values| && forall i :: 0 <= i < |q| ==> q[i].data == Some(values[i])
  }

  lemma StoreSize<T>(q: seq<Entry<T>>, values: seq<T>)
    requires Store(q, values)
    ensures |q| == |values|
  {
  }

  /** Moves the first raw entry in front of the list and constructs a value in it. */
  method Activate<T>(entry: Entry<T>, free: Entry?<T>, ghost q: seq<Entry<T>>,
                     head: Entry?<T>, ghost p: seq<Entry<T>>, ghost values: seq<T>, x: T)
    returns (free': Entry?<T>, head': Entry?<T>)
    requires Chain(free, q) && Chain(head, p) && Disjoint(p, q) && Raw(q) && Store(p, values)
    requires q != [] && q[0] == entry
    modifies q, p
    ensures Chain(free', q[1..]) && Chain(head', [entry] + p) && Disjoint([entry] + p, q[1..])
    ensures Raw(q[1..]) && Store([entry] + p, [x] + values)
  {
    hide Chain;
    assert Without(q, 0) == q[1..];
    free', head' := Move(entry, free, q, 0, head, p, Some(x));
  }

  /** Destroys the value of entry `i` of the list and moves the entry to the free list. */
  method Deactivate<T>(entry: Entry<T>, head: Entry?<T>, ghost q: seq<Entry<T>>, ghost i: nat,
                       free: Entry?<T>, ghost p: seq<Entry<T>>, ghost values: seq<T>)
    returns (head': Entry?<T>, free': Entry?<T>)
    requires Chain(head, q) && Chain(free, p) && Disjoint(q, p) && Store(q, values) && Raw(p)
    requires i < |q| == |values| && q[i] == entry
    modifies q, p
    ensures Chain(head', Without(q, i)) && Chain(free', [entry] + p) && Disjoint(Without(q, i), [entry] + p)
    ensures Store(Without(q, i), Without(values, i)) && Raw([entry] + p)
  {
    hide Chain, Without;
    head', free' := Move(entry, head, q, i, free, p, None);
  }

  class List<T> {
    var size: nat
    var capacity: nat
    var free: Entry?<T>
    var head: Entry?<T>
    ghost var live: seq<Entry<T>>    // the chain at `head`
    ghost var spare: seq<Entry<T>>   // the chain at `free`
    ghost var contents: seq<T>       // the values of the list
    ghost var peak: nat              // the largest size so far

    /** The two chains are disjoint and hold all entries ever allocated; live entries hold the
        values of the list and spare ones none; and memory is bounded by the peak size. */
    ghost predicate Valid()
      reads this, live, spare
    {
      && Chain(head, live) && Chain(free, spare) && Disjoint(live, spare)
      && Store(live, contents) && Raw(spare)
      && size == |live| <= peak && capacity == |live| + |spare|
      && (capacity == 0 || 8 <= capacity <= Max(8, 2 * peak))
    }

    constructor ()
      ensures Valid() && live == [] && spare == [] && contents == [] && peak == 0
    {
      size, capacity, free, head := 0, 0, null, null;
      live, spare, contents, peak := [], [], [], 0;
    }

    /** One round of `grow()`: pushes a new raw entry on the free list. */
    method AddSpare()
      requires Chain(free, spare) && Raw(spare)
      modifies this`free, this`spare, spare
      ensures Chain(free, spare) && Raw(spare)
      ensures |spare| == |old(spare)| + 1 && spare[1..] == old(spare) && fresh(spare[0])
    {
      hide Chain;
      var entry := new Entry<T>();
      free := Link(entry, free, spare);
      spare := [entry] + spare;
    }

    /** `grow(count)`: allocates entries and pushes each on the empty free list. */
    method Grow(count: nat)
      requires free == null && spare == []
      modifies this`free, this`spare, this`capacity
      ensures Chain(free, spare) && Raw(spare) && |spare| == count
      ensures capacity == old(capacity) + count && fresh(spare)
    {
      for i := 0 to count
        invariant Chain(free, spare) && Raw(spare) && |spare| == i && fresh(spare)
        modifies this`free, this`spare
      {
        hide Chain, Raw;
        ghost var before := spare;
        AddSpare();
        assert spare == [spare[0]] + before;
      }
      capacity := capacity + count;
    }

    /** Grows a list whose free list is empty, so that there is a spare entry. */
    method NeedSpare()
      requires Valid()
      modifies this`free, this`spare, this`capacity
      ensures Valid() && spare != [] && (if old(spare) == [] then fresh(spare) else spare == old(spare))
      ensures capacity == if old(spare) == [] then old(capacity) + Max(old(capacity), 8) else old(capacity)
    {
      hide Chain;
      Distinct(free, spare);
      if free == null {
        Grow(Max(capacity, 8));
      }
    }

    /** Moves the first spare entry to the front of the list and constructs the value in it. */
    method Occupy(x: T) returns (it: Entry<T>)
      requires Valid() && spare != []
      modifies this, live, spare
      ensures Valid() && live == [it] + old(live) && contents == [x] + old(contents)
      ensures it == old(spare[0]) && spare == old(spare[1..]) && peak == Max(old(peak), size)
      ensures capacity == old(capacity)
    {
      hide Chain, Max, Store, Raw, Disjoint;
      Distinct(free, spare);
      StoreSize(live, contents);
      it := free;
      free, head := Activate(it, free, spare, head, live, contents, x);
      spare := spare[1..];
      live := [it] + live;
      contents := [x] + contents;
      size := size + 1;
      peak := Max(peak, size);
    }

    /** `emplace_front()`: the list grows in front by one value; entries that were live keep their
        place and their value. */
    method EmplaceFront(x: T) returns (it: Entry<T>)
      requires Valid()
      modifies this, live, spare
      ensures Valid() && live == [it] + old(live) && contents == [x] + old(contents)
      ensures peak == Max(old(peak), size) && forall e :: e in spare || e == it ==> e in old(spare) || fresh(e)
      ensures forall e :: e in old(spare) ==> e in spare || e == it
      ensures capacity == if old(spare) == [] then old(capacity) + Max(old(capacity), 8) else old(capacity)
    {
      hide Chain, Max;
      NeedSpare();
      assert spare == [spare[0]] + spare[1..];
      it := Occupy(x);
    }

    /** `erase()` at any live entry removes its value and nothing else. */
    method Erase(it: Entry<T>, ghost i: nat)
      requires Valid() && i < |live| && live[i] == it
      modifies this, live, spare
      ensures Valid() && live == Without(old(live), i) && contents == Without(old(contents), i)
      ensures spare == [it] + old(spare) && peak == old(peak) && capacity == old(capacity)
    {
      hide Chain, Without, Max, Store, Raw, Disjoint;
      StoreSize(live, contents);
      head, free := Deactivate(it, head, live, i, free, spare, contents);
      spare := [it] + spare;
      live := Without(live, i);
      contents := Without(contents, i);
      size := size - 1;
    }
  }
}

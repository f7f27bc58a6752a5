/** `containers::vector`: contiguous elements in an inline buffer, or on the heap once they
    outgrow it. */
module Vector {

  import opened Common

  /** A slot is Raw, or holds a live object. Constructing needs a Raw slot, destroying a live one,
      and storage is released only when all its slots are Raw again. */
  datatype Slot<+T> = Raw | Live(value: T)

  ghost predicate AllRaw<T>(a: array<Slot<T>>)
    reads a
  {
    forall i :: 0 <= i < a.Length ==> a[i].Raw?
  }

  /** The first slots hold `values`, and the others are Raw. */
  ghost predicate Stores<T>(a: array<Slot<T>>, values: seq<T>)
    reads a
  {
    && |values| <= a.Length
    && (forall i :: 0 <= i < |values| ==> a[i] == Live(values[i]))
    && (forall i :: |values| <= i < a.Length ==> a[i].Raw?)
  }

  /** Move-constructs the first `n` elements of `to` from those of `from`; the objects moved from
      stay alive until they are destroyed. */
  method MoveElements<T>(from: array<Slot<T>>, to: array<Slot<T>>, n: nat, ghost values: seq<T>)
    requires Stores(from, values) && |values| == n <= to.Length && AllRaw(to) && from != to
    modifies to
    ensures Stores(to, values)
  {
    for i := 0 to n
      invariant Stores(to, values[..i])
    {
      assert to[i].Raw?;
      to[i] := from[i];
    }
    assert values[..n] == values;
  }

  /** Destroys the first `n` elements. */
  method DestroyElements<T>(a: array<Slot<T>>, n: nat, ghost values: seq<T>)
    requires Stores(a, values) && |values| == n
    modifies a
    ensures AllRaw(a)
  {
    for i := 0 to n
      invariant forall k :: 0 <= k < i || n <= k < a.Length ==> a[k].Raw?
      invariant forall k :: i <= k < n ==> a[k] == Live(values[k])
    {
      assert a[i].Live?;
      a[i] := Raw;
    }
  }

  method Construct<T>(a: array<Slot<T>>, n: nat, x: T, ghost values: seq<T>)
    requires Stores(a, values) && |values| == n < a.Length
    modifies a
    ensures Stores(a, values + [x])
  {
    assert a[n].Raw?;
    a[n] := Live(x);
  }

  method Destroy<T>(a: array<Slot<T>>, n: nat, ghost values: seq<T>)
    requires Stores(a, values) && |values| == n + 1
    modifies a
    ensures Stores(a, values[..n])
  {
    assert a[n].Live?;
    a[n] := Raw;
  }

  // ---- capacity and cost ----

  /** `moved` counts the elements that growing has moved so far. */
  datatype Cost = Cost(count: nat, capacity: nat, moved: nat)

  function Reserved(c: Cost, n: nat): (r: Cost) {
    if n > c.capacity then Cost(c.count, Max(2 * n, 8), c.moved + c.count) else c
  }

  function Pushed(c: Cost): (r: Cost) {
    Reserved(c, c.count + 1).(count := c.count + 1)
  }

  function Pushes(c: Cost, k: nat): (r: Cost) {
    if k == 0 then c else Pushed(Pushes(c, k - 1))
  }

  /** `k` calls of `push_back` on a new vector move fewer than `2 * k` elements in all, whatever the
      size of the inline buffer. */
  lemma {:induction false} PushesAreCheap(base: nat, k: nat)
    ensures
      var r := Pushes(Cost(0, base, 0), k);
      && r.count == k <= r.capacity && r.moved <= r.capacity
      && (if k == 0 then r.moved == 0 else r.moved < 2 * k)
  {
    if k > 0 {
      PushesAreCheap(base, k - 1);
    }
  }

  class Vector<T> {
    const buffer: array<Slot<T>>
    var elements: array<Slot<T>>
    var count: nat
    var capacity: nat
    var onHeap: bool
    ghost var contents: seq<T>
    ghost var moved: nat

    /** The elements in use hold the contents; an inline buffer that is not in use holds nothing.
        Growing has moved no more elements than there is room for now. */
    ghost predicate Valid()
      reads this, buffer, elements
    {
      && Stores(elements, contents) && count == |contents| && capacity == elements.Length
      && (if onHeap then elements != buffer && AllRaw(buffer) else elements == buffer)
      && moved <= capacity
    }

    ghost function Costs(): (c: Cost)
      reads this
    {
      Cost(count, capacity, moved)
    }

    constructor (base: nat)
      ensures Valid() && contents == [] && Costs() == Cost(0, base, 0) && !onHeap && fresh(elements)
    {
      buffer := new Slot<T>[base](_ => Raw);
      elements, count, capacity, onHeap := buffer, 0, base, false;
      contents, moved := [], 0;
    }

    /** `reserve(n)`: makes room; the contents do not change. */
    method Reserve(n: nat)
      requires Valid()
      modifies this, elements
      ensures Valid() && contents == old(contents) && capacity >= n && Costs() == Reserved(old(Costs()), n)
      ensures elements == old(elements) || fresh(elements)
    {
      if n > capacity {
        capacity := Max(n * 2, 8);
        var grown := new Slot<T>[capacity](_ => Raw);
        MoveElements(elements, grown, count, contents);
        moved := moved + count;
        DestroyElements(elements, count, contents);
        elements, onHeap := grown, true;
      }
    }

    /** `push_back()` and `emplace_back()` */
    method PushBack(x: T)
      requires Valid()
      modifies this, elements
      ensures Valid() && contents == old(contents) + [x] && Costs() == Pushed(old(Costs()))
      ensures elements == old(elements) || fresh(elements)
    {
      Reserve(count + 1);
      Construct(elements, count, x, contents);
      count := count + 1;
      contents := contents + [x];
    }

    /** `pop_back()` on a vector that is not empty. */
    method PopBack()
      requires Valid() && count > 0
      modifies this, elements
      ensures Valid() && contents == old(contents)[..old(count) - 1] && capacity == old(capacity) && moved == old(moved)
      ensures elements == old(elements)
    {
      count := count - 1;
      Destroy(elements, count, contents);
      contents := contents[..count];
    }

    /** `resize(n)`: cuts off the contents, or fills them up with default values. */
    method Resize(n: nat, zero: T)
      requires Valid()
      modifies this, elements
      ensures Valid() && |contents| == n && capacity >= n
      ensures forall i :: 0 <= i < n ==> contents[i] == if i < |old(contents)| then old(contents)[i] else zero
      ensures elements == old(elements) || fresh(elements)
    {
      Reserve(n);
      while count < n
        invariant Valid() && |old(contents)| <= count && (count <= n || count == |old(contents)|)
        invariant forall i :: 0 <= i < count ==> contents[i] == if i < |old(contents)| then old(contents)[i] else zero
        invariant capacity >= n && (elements == old(elements) || fresh(elements))
        decreases n - count
      {
        Construct(elements, count, zero, contents);
        count := count + 1;
        contents := contents + [zero];
      }
      while n < count
        invariant Valid() && n <= count
        invariant forall i :: 0 <= i < count ==> contents[i] == if i < |old(contents)| then old(contents)[i] else zero
        invariant capacity >= n && (elements == old(elements) || fresh(elements))
      {
        count := count - 1;
        Destroy(elements, count, contents);
        contents := contents[..count];
      }
    }

    /** Construction from another vector, which may have an inline buffer of another size. */
    constructor Copy(base: nat, other: Vector<T>)
      requires other.Valid()
      ensures Valid() && contents == other.contents && fresh(elements) && fresh(buffer)
    {
      buffer := new Slot<T>[base](_ => Raw);
      elements, count, capacity, onHeap := buffer, 0, base, false;
      contents, moved := [], 0;
      new;
      Reserve(other.count);
      CopyFrom(other);
    }

    /** The loop that construction from another vector, by copy or by move, has in common. */
    method CopyFrom(other: Vector<T>)
      requires Valid() && other.Valid() && contents == [] && other.count <= capacity
      requires elements !in {other.elements, other.buffer} && this != other
      modifies this`count, this`contents, elements
      ensures Valid() && contents == other.contents
    {
      count := other.count;
      MoveElements(other.elements, elements, count, other.contents);
      contents := other.contents;
    }

    /** Move construction leaves the other vector empty. */
    constructor Move(base: nat, other: Vector<T>, zero: T)
      requires other.Valid()
      modifies other, other.elements
      ensures Valid() && contents == old(other.contents) && fresh(elements) && fresh(buffer)
      ensures other.Valid() && other.contents == []
    {
      buffer := new Slot<T>[base](_ => Raw);
      elements, count, capacity, onHeap := buffer, 0, base, false;
      contents, moved := [], 0;
      new;
      Reserve(other.count);
      CopyFrom(other);
      other.Resize(0, zero);
    }

    /** `free()` as the destructor calls it: no object is left alive in either storage. */
    method Free()
      requires Valid()
      modifies elements
      ensures AllRaw(elements) && AllRaw(buffer)
    {
      DestroyElements(elements, count, contents);
    }
  }
}

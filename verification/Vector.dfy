/** The growable array of Core/mstd/vector.hpp. */
module Vector {
  import opened Prelude

  /** Size, capacity, and the element moves made by all reallocations so far. */
  datatype Growth = Growth(size: nat, capacity: nat, moves: nat)

  /** One to begin with, then one and a half times the capacity, rounded up. */
  function NextCapacity(capacity: nat): nat {
    if capacity == 0 then 1 else (3 * capacity + 1) / 2
  }

  function Pushed(g: Growth): Growth {
    if g.size == g.capacity then Growth(g.size + 1, NextCapacity(g.capacity), g.moves + g.size)
    else g.(size := g.size + 1)
  }

  /** The growth after `n` pushes onto an empty vector. */
  function AfterPushes(n: nat): Growth {
    if n == 0 then Growth(0, 0, 0) else Pushed(AfterPushes(n - 1))
  }

  predicate Cheap(g: Growth) {
    g.size <= g.capacity && g.moves <= 2 * g.capacity && g.moves <= 3 * g.size &&
    if g.size == 0 then g.capacity == 0 else 2 * g.capacity < 3 * g.size
  }

  lemma HalfAsMuchAgain(capacity: nat)
    requires capacity > 0
    ensures 3 * capacity <= 2 * NextCapacity(capacity) <= 3 * capacity + 1
  {
  }

  lemma PushIsCheap(g: Growth)
    requires Cheap(g)
    ensures Cheap(Pushed(g)) && Pushed(g).size == g.size + 1
  {
    if g.capacity == 0 {
      assert Pushed(g) == Growth(1, 1, 0);
    } else {
      HalfAsMuchAgain(g.capacity);
    }
  }

  lemma {:induction false} PushesAreCheap(n: nat)
    ensures AfterPushes(n).size == n && Cheap(AfterPushes(n))
  {
    if n > 0 {
      PushesAreCheap(n - 1);
      PushIsCheap(AfterPushes(n - 1));
      assert AfterPushes(n) == Pushed(AfterPushes(n - 1));
    }
  }

  /** Amortised cost: over any run of pushes, all reallocations together have moved at most twice
      the capacity and at most three elements per element pushed, and less than half of the pushed
      size again is reserved. */
  lemma {:induction false} AmortisedGrowth(n: nat)
    ensures var g := AfterPushes(n);
            g.size == n <= g.capacity && g.moves <= 2 * g.capacity && g.moves <= 3 * n &&
            (n > 0 ==> 2 * g.capacity < 3 * n)
  {
    PushesAreCheap(n);
  }

  class Vector<T(0)> {
    var data: array<T>
    var capacity: nat
    var size: nat
    ghost var moves: nat

    ghost predicate Valid()
      reads this
    {
      data.Length == capacity && size <= capacity
    }

    ghost function Contents(): seq<T>
      reads this, data
      requires Valid()
    {
      data[..size]
    }

    ghost function Cost(): Growth
      reads this
    {
      Growth(size, capacity, moves)
    }

    constructor ()
      ensures Valid() && fresh(data) && Contents() == [] && Cost() == AfterPushes(0)
    {
      data := new T[0];
      capacity, size, moves := 0, 0, 0;
    }

    /** The initializer-list constructor pushes its elements one by one. */
    constructor FromList(items: seq<T>)
      ensures Valid() && fresh(data) && Contents() == items && Cost() == AfterPushes(|items|)
    {
      data := new T[0];
      capacity, size, moves := 0, 0, 0;
      new;
      for i := 0 to |items|
        invariant Valid() && fresh(data) && Contents() == items[..i] && Cost() == AfterPushes(i)
      {
        PushBack(items[i]);
      }
    }

    /** resize: moves every element into a new allocation. */
    method Resize(newCapacity: nat)
      requires Valid() && size <= newCapacity
      modifies this
      ensures Valid() && fresh(data) && capacity == newCapacity && size == old(size)
      ensures Contents() == old(Contents()) && moves == old(moves) + size
    {
      var newData := new T[newCapacity];
      ghost var before := moves;
      for i := 0 to size
        invariant Valid() && size == old(size) && data == old(data) && data[..] == old(data[..])
        invariant newData[..i] == data[..i] && moves == before + i
      {
        newData[i] := data[i];
        moves := moves + 1;
      }
      data := newData;
      capacity := newCapacity;
    }

    method PushBack(value: T)
      requires Valid()
      modifies this, data
      ensures Valid() && (data == old(data) || fresh(data))
      ensures Contents() == old(Contents()) + [value] && Cost() == Pushed(old(Cost()))
    {
      if size == capacity {
        Resize(NextCapacity(capacity));
      }
      data[size] := value;
      size := size + 1;
    }

    /** operator[]: an index past the end is refused, whatever the capacity. */
    method At(index: nat) returns (r: Option<T>)
      requires Valid()
      ensures r == if index < |Contents()| then Some(Contents()[index]) else None
    {
      if index >= size { return None; }
      return Some(data[index]);
    }
  }
}

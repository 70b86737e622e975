/** The ring of psdaq/psdaq/service/Fifo.hh: as a value, and as the class. */
module Fifo {
  import Bits

  datatype Ring<T> = Ring(slots: seq<T>, head: nat, tail: nat, count: nat)

  /** The remainder by size of an index below twice the size. */
  function Wrap(i: nat, size: nat): nat {
    if i < size then i else i - size
  }

  lemma WrapIsMod(i: nat, size: nat)
    requires i < 2 * size
    ensures Wrap(i, size) == i % size
  {
    Bits.ModUnique(i, size, if i < size then 0 else 1, Wrap(i, size));
  }

  ghost predicate Valid<T>(r: Ring<T>) {
    && r.head < |r.slots| && r.tail < |r.slots| && r.count <= |r.slots|
    && Wrap(r.tail + 1, |r.slots|) == Wrap(r.head + r.count, |r.slots|)
  }

  ghost function Index<T>(r: Ring<T>, i: nat): (j: nat)
    requires r.head < |r.slots| && i < |r.slots|
    ensures j < |r.slots|
  {
    Wrap(r.head + i, |r.slots|)
  }

  /** What the ring holds, oldest first. */
  ghost function Contents<T>(r: Ring<T>): (c: seq<T>)
    requires Valid(r)
    ensures |c| == r.count
    ensures forall i :: 0 <= i < r.count ==> c[i] == r.slots[Index(r, i)]
  {
    seq(r.count, i requires 0 <= i < r.count => r.slots[Index(r, i)])
  }

  function Pushed<T>(r: Ring<T>, item: T): Ring<T>
    requires r.tail < |r.slots|
  {
    var tail := Wrap(r.tail + 1, |r.slots|);
    if r.count >= |r.slots| then r
    else Ring(r.slots[tail := item], r.head, tail, r.count + 1)
  }

  function Popped<T>(r: Ring<T>): Ring<T> {
    if r.count == 0 then r else Ring(r.slots, Wrap(r.head + 1, |r.slots|), r.tail, r.count - 1)
  }

  lemma PushContents<T>(r: Ring<T>, item: T)
    requires Valid(r)
    ensures Valid(Pushed(r, item)) && |Pushed(r, item).slots| == |r.slots|
    ensures Contents(Pushed(r, item)) == if r.count < |r.slots| then Contents(r) + [item] else Contents(r)
  {
  }

  lemma PopContents<T>(r: Ring<T>)
    requires Valid(r)
    ensures Valid(Popped(r)) && |Popped(r).slots| == |r.slots|
    ensures Contents(Popped(r)) == if r.count > 0 then Contents(r)[1..] else Contents(r)
    ensures r.count > 0 ==> r.slots[r.head] == Contents(r)[0]
  {
    if r.count > 0 {
      assert forall i :: 0 <= i < r.count - 1 ==> Index(Popped(r), i) == Index(r, i + 1);
    }
  }

  /** The next push takes the slot just popped exactly when the ring was full. */
  lemma VacatedSlot<T>(r: Ring<T>)
    requires Valid(r) && r.count > 0
    ensures Wrap(Popped(r).tail + 1, |r.slots|) == r.head <==> r.count == |r.slots|
  {
  }

  /** Changing the item at the front. */
  lemma FrontChanged<T>(r: Ring<T>, item: T)
    requires Valid(r) && r.count > 0
    ensures Valid(r.(slots := r.slots[r.head := item]))
    ensures Contents(r.(slots := r.slots[r.head := item])) == [item] + Contents(r)[1..]
  {
  }

  class FifoRing<T> {
    var head: nat
    var tail: nat
    var count: nat
    const items: array<T>

    /** The fields as a value. */
    ghost function View(): Ring<T>
      reads this, items
    {
      Ring(items[..], head, tail, count)
    }

    constructor (size: nat, initial: T)
      requires size > 0
      ensures fresh(items) && items.Length == size
      ensures Valid(View()) && Contents(View()) == []
    {
      head, tail, count := 0, size - 1, 0;
      items := new T[size](_ => initial);
    }

    /** True when full. */
    method Push(item: T) returns (full: bool)
      requires Valid(View())
      modifies this`tail, this`count, items
      ensures full == (old(count) == items.Length)
      ensures View() == Pushed(old(View()), item)
      ensures Valid(View()) && Contents(View()) == if full then old(Contents(View()))
              else old(Contents(View())) + [item]
    {
      PushContents(View(), item);
      if count >= items.Length {
        return true;
      }
      WrapIsMod(tail + 1, items.Length);
      tail := (tail + 1) % items.Length;
      items[tail] := item;
      count := count + 1;
      return false;
    }

    /** The item popped, or nothing when empty. */
    method Pop(initial: T) returns (empty: bool, item: T)
      requires Valid(View())
      modifies this`head, this`count
      ensures empty == (old(count) == 0)
      ensures View() == Popped(old(View()))
      ensures Valid(View()) && old(Contents(View())) == if empty then Contents(View()) else [item] + Contents(View())
    {
      PopContents(View());
      if count == 0 {
        return true, initial;
      }
      item := items[head];
      WrapIsMod(head + 1, items.Length);
      head := (head + 1) % items.Length;
      count := count - 1;
      empty := false;
    }

    method Front() returns (item: T)
      requires Valid(View()) && count > 0
      ensures item == Contents(View())[0]
    {
      PopContents(View());
      item := items[head];
    }
  }
}

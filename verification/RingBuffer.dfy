/** src/trading/indicators/RingBuffer.h: the fixed-capacity window under the rolling indicators. */
module RingBuffer {
  import opened Domain

  /** Pushing on the logical contents: the oldest value falls out of a full window. */
  function Pushed<T>(s: seq<T>, v: T, cap: nat): seq<T> {
    if cap == 0 then []
    else if |s| >= cap then s[1..] + [v]
    else s + [v]
  }

  /** The physical slot `i` places after `head`. */
  function Slot(head: nat, i: nat, cap: nat): (slot: nat)
    requires head < cap && i <= cap
    ensures slot == if head + i < cap then head + i else head + i - cap
  {
    (head + i) % cap
  }

  class Buffer<T(0)> {
    const buf: array<T>
    const cap: nat
    var head: nat
    var size: nat

    ghost predicate Valid()
      reads this
    {
      buf.Length == cap && size <= cap && if cap == 0 then head == 0 else head < cap
    }

    /** The stored values, oldest first. */
    ghost function Contents(): (s: seq<T>)
      reads this, buf
      requires Valid()
      ensures |s| == size
    {
      seq(size, i requires 0 <= i < size && Valid() reads this, buf => buf[Slot(head, i, cap)])
    }

    constructor (capacity: nat)
      ensures Valid() && fresh(buf) && cap == capacity && Contents() == []
    {
      buf := new T[capacity];
      cap, head, size := capacity, 0, 0;
    }

    method Clear()
      requires Valid()
      modifies this`head, this`size
      ensures Valid() && Contents() == []
    {
      head, size := 0, 0;
    }

    method Push(v: T) returns (overwritten: Option<T>)
      requires Valid()
      modifies this`head, this`size, buf
      ensures Valid()
      ensures Contents() == Pushed(old(Contents()), v, cap)
      ensures overwritten == if cap != 0 && old(size) == cap then Some(old(Contents())[0]) else None
    {
      hide Slot;
      if cap == 0 {
        return None;
      }
      if size == cap {
        overwritten := Some(buf[head]);
        buf[head] := v;
        head := Slot(head, 1, cap);
      } else {
        overwritten := None;
        var idx := Slot(head, size, cap);
        buf[idx] := v;
        size := size + 1;
      }
    }

    /** `back` places before the newest value; the source adds cap to stay non-negative. */
    function PhysicalFromNewest(back: nat): (slot: nat)
      reads this
      requires Valid() && back < size
      ensures slot == Slot(head, size - 1 - back, cap)
    {
      var newest := Slot(head, size - 1, cap);
      Slot(newest, cap - back, cap)
    }

    method ValueFromBack(back: nat) returns (v: Option<T>)
      requires Valid()
      ensures v == if back < size then Some(Contents()[size - 1 - back]) else None
    {
      if back >= size {
        return None;
      }
      return Some(buf[PhysicalFromNewest(back)]);
    }

    predicate Full()
      reads this
    {
      cap != 0 && size == cap
    }
  }
}

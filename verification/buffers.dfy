/**
 * The part of `java.nio.Buffer` (as `ShortBuffer` and `ByteBuffer`) that the
 * audio code relies on: a fixed backing array with a `position` and a
 * `limit`; relative `get`/`put` move the position. A value is an element
 * (a short or a byte); elements are unbounded integers here and the callers
 * state the range they keep.
 */
module Buffers {
  import opened Common

  const SHORT_MIN: int := -0x8000
  const SHORT_MAX: int := 0x7FFF

  predicate IsShort(x: int) {
    SHORT_MIN <= x <= SHORT_MAX
  }

  class Buffer {
    const data: array<int>
    var position: int
    var limit: int

    /** The invariant of every `java.nio` buffer: 0 <= position <= limit <= capacity. */
    ghost predicate Valid()
      reads this
    {
      0 <= position <= limit <= data.Length
    }

    function Capacity(): nat {
      data.Length
    }

    function Remaining(): int
      reads this
    {
      limit - position
    }

    predicate HasRemaining()
      reads this
    {
      position < limit
    }

    /** The elements between position and limit: what a relative read would return. */
    function Content(): (c: seq<int>)
      requires Valid()
      reads this, data
      ensures |c| == Remaining()
    {
      data[position..limit]
    }

    /** `allocate(capacity)` / `allocateDirect`: zero-filled, position 0, limit = capacity. */
    constructor Allocate(capacity: nat)
      ensures Valid() && position == 0 && limit == capacity && data.Length == capacity
      ensures fresh(data) && forall i :: 0 <= i < capacity ==> data[i] == 0
    {
      data := new int[capacity](_ => 0);
      position := 0;
      limit := capacity;
    }

    /** Relative `get()`: the element at the position; the position moves by one. */
    method Get() returns (x: int)
      requires Valid() && position < limit
      modifies this
      ensures Valid() && x == data[old(position)]
      ensures position == old(position) + 1 && limit == old(limit)
    {
      x := data[position];
      position := position + 1;
    }

    /** Relative `put(x)`: stores at the position; the position moves by one. */
    method Put(x: int)
      requires Valid() && position < limit
      modifies this, data
      ensures Valid() && data[..] == old(data[..])[old(position) := x]
      ensures position == old(position) + 1 && limit == old(limit)
    {
      data[position] := x;
      position := position + 1;
    }

    /**
     * Bulk `put(src)`: copies `src`'s remaining elements to this buffer's
     * position and moves both positions past them. Java throws when `src` is
     * this buffer or does not fit, which the requires exclude.
     */
    method PutAll(src: Buffer)
      requires Valid() && src.Valid() && src != this && src.data != data
      requires src.Remaining() <= Remaining()
      modifies this, data, src
      ensures Valid() && src.Valid()
      ensures data[..] == old(data[..position]) + old(src.Content()) + old(data[position + src.Remaining()..])
      ensures position == old(position) + old(src.Remaining()) && limit == old(limit)
      ensures src.position == old(src.limit) && src.limit == old(src.limit)
      ensures unchanged(src.data)
    {
      var n := src.limit - src.position;
      ghost var p0, s0, before, from := position, src.position, data[..], src.data[..];
      var i := 0;
      while i < n
        invariant 0 <= i <= n && src.position == s0 + i && position == p0 + i
        invariant src.limit == old(src.limit) && limit == old(limit)
        invariant data[..] == before[..p0] + from[s0..s0 + i] + before[p0 + i..]
        invariant unchanged(src.data)
      {
        var x := src.Get();
        Put(x);
        i := i + 1;
      }
    }

    /** `limit(n)`: Java requires 0 <= n <= capacity and pulls the position back to n if beyond. */
    method SetLimit(n: int)
      requires Valid() && 0 <= n <= data.Length
      modifies this
      ensures Valid() && limit == n && position == Min(old(position), n)
    {
      limit := n;
      if position > n {
        position := n;
      }
    }

    /** `position(n)`: Java requires 0 <= n <= limit. */
    method SetPosition(n: int)
      requires Valid() && 0 <= n <= limit
      modifies this
      ensures Valid() && position == n && limit == old(limit)
    {
      position := n;
    }

    /** `clear()`: position 0, limit = capacity; the contents stay. */
    method Clear()
      modifies this
      ensures Valid() && position == 0 && limit == data.Length
    {
      position := 0;
      limit := data.Length;
    }

    /** `flip()`: the limit becomes the position and the position 0. */
    method Flip()
      requires Valid()
      modifies this
      ensures Valid() && limit == old(position) && position == 0
    {
      limit := position;
      position := 0;
    }
  }
}

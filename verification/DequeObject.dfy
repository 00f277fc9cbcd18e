/**
  The Chase-Lev deque as an object whose operations run one after the other: it behaves as a
  sequence, and resizing costs amortised constant time.
 */
module DequeObject {
  import opened Prelude
  import opened Arithmetic
  import opened Rings

  /** Credit stored in a deque of n elements and capacity size. */
  function Potential(n: nat, size: nat): (r: nat)
    ensures r >= 2 * (2 * n - size) && r >= 3 * (size - 2 * n)
  {
    if 2 * n >= size then 2 * (2 * n - size) else 3 * (size - 2 * n)
  }

  /** The capacity after a push onto, or a pop from, n elements: it doubles when only the spare slot is
      free, and halves when one of at most a third, but more than the initial capacity, is popped. */
  function NextCapacity(n: nat, size: nat, push: bool, logInit: nat): nat {
    if push && n + 1 >= size then 2 * size
    else if !push && n > 1 && n <= size / 3 && n > Pow2(logInit) then size / 2
    else size
  }

  class Buffer<T(0)> {
    const log: nat
    const segment: array<T>
    ghost var puts: nat     // elements put so far

    ghost predicate Valid()
    {
      segment.Length == Pow2(log)
    }

    constructor (log: nat)
      ensures Valid() && this.log == log && fresh(segment) && puts == 0
    {
      this.log := log;
      this.segment := new T[Pow2(log)];
      this.puts := 0;
    }

    method Get(i: nat) returns (x: T)
      requires Valid()
      ensures x == At(segment[..], i)
    {
      x := segment[i % segment.Length];
    }

    method Put(i: nat, x: T)
      requires Valid()
      modifies segment, this`puts
      ensures segment[..] == Rings.Put(old(segment[..]), i, x) && puts == old(puts) + 1
    {
      segment[i % segment.Length] := x;
      puts := puts + 1;
    }

    /** A buffer of another size with the elements of [t, b) at their indices, each put once. */
    method Resize(b: nat, t: nat, newLog: nat) returns (buffer: Buffer<T>)
      requires Valid() && t <= b && b - t <= Pow2(newLog)
      ensures buffer.Valid() && buffer.log == newLog && fresh(buffer) && fresh(buffer.segment)
      ensures Window(buffer.segment[..], t, b) == Window(segment[..], t, b) && buffer.puts == b - t
    {
      buffer := new Buffer(newLog);
      var i := t;
      while i < b
        invariant t <= i <= b
        invariant buffer.Valid() && buffer.log == newLog && fresh(buffer) && fresh(buffer.segment) && buffer.puts == i - t
        invariant segment[..] == old(segment[..])
        invariant forall j: nat :: t <= j < i ==> At(buffer.segment[..], j) == At(segment[..], j)
      {
        var x := Get(i);
        ghost var before := buffer.segment[..];
        buffer.Put(i, x);
        forall j: nat | t <= j < i ensures At(buffer.segment[..], j) == At(segment[..], j) {
          PutElsewhere(before, i, j, x);
        }
        i := i + 1;
      }
    }
  }

  class Deque<T(0)> {
    var top: nat
    var bottom: nat
    var buffer: Buffer<T>
    const logInit: nat
    ghost var copied: nat   // elements put by the copy loops of all resizes so far
    ghost var ops: nat      // successful operations so far

    ghost predicate Shaped()
      reads this, buffer, buffer.segment
    {
      && buffer.Valid() && logInit <= buffer.log
      && top <= bottom < top + buffer.segment.Length
    }

    /** m operations pay for everything copied so far and for the credit of n elements. */
    ghost predicate Paid(n: nat, m: nat)
      reads this, buffer, buffer.segment
    {
      2 * copied + Potential(n, buffer.segment.Length) <= 6 * m + 3 * Pow2(logInit)
    }

    ghost predicate Valid()
      reads this, buffer, buffer.segment
    {
      Shaped() && Paid(bottom - top, ops)
    }

    ghost function Contents(): (q: seq<T>)
      requires Shaped()
      reads this, buffer, buffer.segment
    {
      Window(buffer.segment[..], top, bottom)
    }

    constructor (logInit: nat)
      ensures Valid() && this.logInit == logInit && Contents() == [] && ops == 0 && fresh(buffer) && fresh(buffer.segment)
    {
      this.logInit := logInit;
      top, bottom := 0, 0;
      copied, ops := 0, 0;
      buffer := new Buffer(logInit);
    }

    /** The resize of push_bottom: afterwards a slot besides the spare one is free. */
    method EnsureRoom()
      requires Valid()
      modifies this`buffer, this`copied
      ensures Shaped() && Contents() == old(Contents()) && bottom - top <= buffer.segment.Length - 2
      ensures Paid(bottom - top + 1, ops + 1)
      ensures buffer == old(buffer) || (fresh(buffer) && fresh(buffer.segment))
      ensures buffer == old(buffer) ==> buffer.segment[..] == old(buffer.segment[..])
      ensures buffer.segment.Length == NextCapacity(bottom - top, old(buffer.segment.Length), true, logInit)
    {
      var size := bottom - top;
      if size >= buffer.segment.Length - 1 {
        buffer := buffer.Resize(bottom, top, buffer.log + 1);
        copied := copied + buffer.puts;
      }
    }

    method PushBottom(x: T)
      requires Valid()
      modifies this, buffer.segment, buffer`puts
      ensures Valid() && Contents() == old(Contents()) + [x] && ops == old(ops) + 1
      ensures buffer.segment.Length == NextCapacity(|old(Contents())|, old(buffer.segment.Length), true, logInit)
      ensures 2 * copied <= 6 * ops + 3 * Pow2(logInit)
      ensures buffer == old(buffer) || (fresh(buffer) && fresh(buffer.segment))
    {
      EnsureRoom();
      WindowPut(buffer.segment[..], top, bottom, x);
      buffer.Put(bottom, x);
      bottom := bottom + 1;
      ops := ops + 1;
    }

    /** The shrinking resize of pop_bottom, which copies the element being popped as well. */
    method Shrink()
      requires Shaped() && Paid(bottom - top + 1, ops)
      requires Pow2(logInit) < bottom + 1 - top <= buffer.segment.Length / 3
      modifies this`buffer, this`copied
      ensures Shaped() && Contents() == old(Contents())
      ensures Paid(bottom - top, ops + 1) && 2 * buffer.segment.Length == old(buffer.segment.Length)
      ensures fresh(buffer) && fresh(buffer.segment)
    {
      Pow2Strict(logInit, buffer.log);
      ghost var before := buffer.segment[..];
      buffer := buffer.Resize(bottom + 1, top, buffer.log - 1);
      copied := copied + buffer.puts;
      assert Contents() == Window(buffer.segment[..], top, bottom + 1)[..bottom - top];
      assert Window(before, top, bottom) == Window(before, top, bottom + 1)[..bottom - top];
    }

    method PopBottom() returns (r: Option<T>)
      requires Valid()
      modifies this
      ensures Valid() && (buffer == old(buffer) || (fresh(buffer) && fresh(buffer.segment)))
      ensures buffer.segment.Length == NextCapacity(|old(Contents())|, old(buffer.segment.Length), false, logInit)
      ensures 2 * copied <= 6 * ops + 3 * Pow2(logInit)
      ensures r.None? <==> old(Contents()) == []
      ensures r.None? ==> Contents() == [] && ops == old(ops)
      ensures r.Some? ==> old(Contents()) == Contents() + [r.value] && ops == old(ops) + 1
    {
      var size := bottom - top;
      if size == 0 {
        r := None;
      } else if size == 1 {
        var x := buffer.Get(top);
        r := Some(x);
        top := top + 1;
        ops := ops + 1;
      } else {
        var x := buffer.Get(bottom - 1);
        r := Some(x);
        bottom := bottom - 1;
        assert old(Contents()) == Contents() + [x];
        if size <= buffer.segment.Length / 3 && size > Pow2(logInit) {
          Shrink();
        }
        ops := ops + 1;
      }
    }

    method Steal() returns (r: Option<T>)
      requires Valid()
      modifies this
      ensures Valid() && buffer == old(buffer)
      ensures 2 * copied <= 6 * ops + 3 * Pow2(logInit)
      ensures r.None? <==> old(Contents()) == []
      ensures r.None? ==> Contents() == [] && ops == old(ops)
      ensures r.Some? ==> old(Contents()) == [r.value] + Contents() && ops == old(ops) + 1
    {
      if bottom - top > 0 {
        var x := buffer.Get(top);
        r := Some(x);
        top := top + 1;
        ops := ops + 1;
      } else {
        r := None;
      }
    }
  }
}

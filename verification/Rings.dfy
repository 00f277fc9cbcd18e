/** A sequence used as a ring: index i is kept in slot i modulo the length. */
module Rings {
  import opened Arithmetic

  function At<T>(slots: seq<T>, i: nat): T
    requires |slots| > 0
  {
    slots[i % |slots|]
  }

  function Put<T>(slots: seq<T>, i: nat, x: T): seq<T>
    requires |slots| > 0
  {
    slots[i % |slots| := x]
  }

  /** Indices less than the size apart have different slots. */
  lemma PutElsewhere<T>(slots: seq<T>, i: nat, j: nat, x: T)
    requires |slots| > 0 && i != j && i - j < |slots| && j - i < |slots|
    ensures At(Put(slots, i, x), j) == At(slots, j)
  {
    if i % |slots| == j % |slots| {
      if i < j { SameRemainder(i, j, |slots|); } else { SameRemainder(j, i, |slots|); }
    }
  }

  /** The elements of the indices [t, b). */
  function Window<T>(slots: seq<T>, t: nat, b: nat): (q: seq<T>)
    requires |slots| > 0 && t <= b
    ensures |q| == b - t
    ensures forall k :: 0 <= k < b - t ==> q[k] == At(slots, t + k)
  {
    seq(b - t, k requires 0 <= k < b - t => At(slots, t + k))
  }

  /** Writing the index after a window that leaves a slot free appends to the window. */
  lemma WindowPut<T>(slots: seq<T>, t: nat, b: nat, x: T)
    requires |slots| > 0 && t <= b && b - t < |slots|
    ensures Window(Put(slots, b, x), t, b + 1) == Window(slots, t, b) + [x]
  {
    forall k | 0 <= k < b - t ensures Window(Put(slots, b, x), t, b + 1)[k] == Window(slots, t, b)[k] {
      PutElsewhere(slots, b, t + k, x);
    }
  }

  /** Taking the front off a window. */
  lemma WindowFront<T>(cells: seq<T>, d: nat, e: nat)
    requires |cells| > 0 && d < e
    ensures Window(cells, d, e) == [At(cells, d)] + Window(cells, d + 1, e)
  {
  }
}

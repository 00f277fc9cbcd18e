/** Small shared vocabulary: options, duplicate-free sequences and a pigeonhole lemma. */
module Prelude {

  datatype Option<+T> = None | Some(value: T)

  /** No value occurs at two different indices. */
  ghost predicate NoDup<T>(q: seq<T>) {
    forall i, j :: 0 <= i < j < |q| ==> q[i] != q[j]
  }

  /** The set of the numbers below n. */
  ghost function Below(n: nat): (r: set<nat>)
    ensures |r| == n
    ensures forall k: nat :: k in r <==> k < n
  {
    if n == 0 then {} else
      var r := Below(n - 1);
      r + {n - 1}
  }

  /** A duplicate-free sequence is as long as the set of its elements. */
  lemma {:induction false} NoDupCardinality<T>(q: seq<T>)
    requires NoDup(q)
    ensures |set x | x in q| == |q|
  {
    if q == [] {
      assert (set x | x in q) == {};
    } else {
      var rest := q[..|q| - 1];
      NoDupCardinality(rest);
      assert q == rest + [q[|q| - 1]];
      assert (set x | x in q) == (set x | x in rest) + {q[|q| - 1]};
    }
  }

  lemma {:induction false} SubsetCardinality<T>(a: set<T>, b: set<T>)
    requires a <= b
    ensures |a| <= |b|
    ensures |a| == |b| ==> a == b
  {
    if a != {} {
      var x :| x in a;
      SubsetCardinality(a - {x}, b - {x});
    }
  }

  /** Duplicate-free sequences of numbers below n have at most n entries. */
  lemma Pigeonhole(q: seq<nat>, n: nat)
    requires NoDup(q)
    requires forall k :: 0 <= k < |q| ==> q[k] < n
    ensures |q| <= n
  {
    NoDupCardinality(q);
    SubsetCardinality((set x | x in q), Below(n));
  }
}

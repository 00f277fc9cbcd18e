/** The partition of a range into batches by submit_batched and submit_batched_n. */
module Batches {
  import opened Arithmetic

  /** The arguments of one task: its range and, for submit_batched_n, its number. */
  datatype Batch = Batch(start: nat, end: nat, index: nat)

  datatype Outcome = DivisionByZero | AssertionFailed | Submitted(batches: seq<Batch>)

  function DivCeil(a: nat, b: nat): (r: nat)
    requires b > 0
    ensures r * b >= a && (r > 0 ==> (r - 1) * b < a)
  {
    if a == 0 then 0 else
      var q := (a - 1) / b;
      assert (q + 1) * b == q * b + b;
      q + 1
  }

  function Min(a: nat, b: nat): nat { if a < b then a else b }

  /** The batch size the code settles on. */
  function BatchSize(n: nat, max: nat): nat
    requires max > 0
  {
    DivCeil(n, max)
  }

  lemma SizesFit(n: nat, max: nat)
    requires n > 0 && max > 0
    ensures 0 < BatchSize(n, max) <= n
    ensures 0 < DivCeil(n, BatchSize(n, max)) <= max
  {
    var size := BatchSize(n, max);
    if size > n {
      MulMono(n, size - 1, max);
      assert n * max >= n by { MulMono(1, max, n); }
    }
    var num := DivCeil(n, size);
    if num > max { MulMono(max, num - 1, size); }
  }

  /** What the code computes for batch i of the given size. */
  function BatchOf(n: nat, size: nat, i: nat): Batch {
    Batch((i * size) % WRAP, Min(((i + 1) * size) % WRAP, n), i)
  }

  /** The batches are non-empty, numbered in order, adjoin one another and together are [0, n). */
  ghost predicate Tiles(b: seq<Batch>, n: nat) {
    && |b| > 0 && b[0].start == 0 && b[|b| - 1].end == n
    && (forall i :: 0 <= i < |b| ==> b[i].start < b[i].end && b[i].index == i)
    && (forall i :: 0 < i < |b| ==> b[i - 1].end == b[i].start)
  }

  /** Such batches are disjoint and cover the range: every number is in exactly one of them. */
  lemma {:induction false} TilesOrdered(b: seq<Batch>, n: nat, i: nat, j: nat)
    requires Tiles(b, n) && i < j < |b|
    ensures b[i].end <= b[j].start
    decreases j
  {
    if i < j - 1 { TilesOrdered(b, n, i, j - 1); }
  }

  lemma {:induction false} TilesFind(b: seq<Batch>, n: nat, x: nat, k: nat) returns (i: nat)
    requires Tiles(b, n) && k < |b| && x < b[k].end
    ensures i <= k && b[i].start <= x < b[i].end
    decreases k
  {
    if b[k].start <= x { i := k; } else { i := TilesFind(b, n, x, k - 1); }
  }

  lemma EachNumberInOneBatch(b: seq<Batch>, n: nat, x: nat)
    requires Tiles(b, n) && x < n
    ensures exists i: nat :: i < |b| && b[i].start <= x < b[i].end
    ensures forall i: nat, j: nat :: i < |b| && j < |b| && b[i].start <= x < b[i].end && b[j].start <= x < b[j].end ==> i == j
    ensures forall i: nat :: i < |b| ==> b[i].end <= n
  {
    var k := TilesFind(b, n, x, |b| - 1);
    forall i: nat, j: nat | i < |b| && j < |b| && b[i].start <= x < b[i].end && b[j].start <= x < b[j].end
      ensures i == j
    {
      if i < j { TilesOrdered(b, n, i, j); } else if j < i { TilesOrdered(b, n, j, i); }
    }
    forall i: nat | i < |b| ensures b[i].end <= n {
      if i < |b| - 1 { TilesOrdered(b, n, i, |b| - 1); }
    }
  }

  /** q is the least number of pieces of size b that cover a. */
  ghost predicate LeastCover(q: nat, a: nat, b: nat) {
    q * b >= a && forall r: nat :: r * b >= a ==> q <= r
  }

  lemma DivCeilIsLeast(a: nat, b: nat)
    requires b > 0
    ensures LeastCover(DivCeil(a, b), a, b)
  {
    var q := DivCeil(a, b);
    forall r: nat | r * b >= a ensures q <= r {
      if r < q { MulMono(r, q - 1, b); }
    }
  }

  /** The batches have the least size with which at most max of them cover n, except that the last may
      be smaller, and there are no more of them than needed. */
  ghost predicate EvenlySplit(b: seq<Batch>, n: nat, max: nat) {
    exists size: nat ::
      && LeastCover(size, n, max) && LeastCover(|b|, n, size)
      && forall i :: 0 <= i < |b| - 1 ==> b[i].end - b[i].start == size
  }

  /** All the batches the code computes. */
  function BatchesOf(n: nat, max: nat): (b: seq<Batch>)
    requires n > 0 && max > 0
  {
    SizesFit(n, max);
    var size := BatchSize(n, max);
    seq(DivCeil(n, size), i requires i >= 0 => BatchOf(n, size, i))
  }

  ghost predicate Computed(b: seq<Batch>, n: nat, size: nat) {
    forall i :: 0 <= i < |b| ==> b[i] == BatchOf(n, size, i)
  }

  /** As long as the end of the last batch before clamping fits 32 bits, nothing wraps. */
  lemma BatchExact(n: nat, size: nat, num: nat, i: nat)
    requires 0 < size && num == DivCeil(n, size) && 0 < n && num * size < WRAP && i < num
    ensures
      var b := BatchOf(n, size, i);
      && b.start == i * size && b.start < b.end
      && b.end == if i + 1 < num then (i + 1) * size else n
  {
    MulMono(i, num - 1, size);
    MulMono(i + 1, num, size);
    assert (i + 1) * size == i * size + size;
    if i + 1 < num { MulMono(i + 1, num - 1, size); }
    DivModUnique(i * size, WRAP, 0, i * size);
    DivModUnique((i + 1) * size, WRAP, 0, (i + 1) * size);
  }

  lemma NoWrapTiles(b: seq<Batch>, n: nat, size: nat)
    requires 0 < size && |b| == DivCeil(n, size) && 0 < n < WRAP && Computed(b, n, size)
    requires |b| * size < WRAP
    ensures Tiles(b, n)
  {
    forall i | 0 <= i < |b| ensures b[i].start < b[i].end && b[i].index == i {
      BatchExact(n, size, |b|, i);
    }
    forall i | 0 < i < |b| ensures b[i - 1].end == b[i].start {
      BatchExact(n, size, |b|, i - 1);
      BatchExact(n, size, |b|, i);
    }
    BatchExact(n, size, |b|, 0);
    BatchExact(n, size, |b|, |b| - 1);
  }

  /** Otherwise the end of the last batch wraps to a number below the batch size. */
  lemma WrapBreaks(b: seq<Batch>, n: nat, size: nat)
    requires 0 < size <= n < WRAP && |b| == DivCeil(n, size) && Computed(b, n, size)
    requires |b| * size >= WRAP
    ensures |b| > 0 && b[|b| - 1].end < size && !Tiles(b, n)
  {
    var num := |b|;
    assert num > 0;
    assert num * size == (num - 1) * size + size;
    assert b[num - 1] == BatchOf(n, size, num - 1);
    DivModUnique(num * size, WRAP, 1, num * size - WRAP);
  }

  lemma ComputedIsAll(b: seq<Batch>, n: nat, max: nat)
    requires n > 0 && max > 0 && |b| == DivCeil(n, BatchSize(n, max)) && Computed(b, n, BatchSize(n, max))
    ensures b == BatchesOf(n, max)
  {
    hide BatchOf, DivCeil;
  }

  /** The batches are right exactly if the number of batches times their size is below 2^32. */
  lemma TilesExactly(n: nat, max: nat)
    requires 0 < n < WRAP && max > 0
    ensures Tiles(BatchesOf(n, max), n) <==> |BatchesOf(n, max)| * BatchSize(n, max) < WRAP
  {
    var b := BatchesOf(n, max);
    SizesFit(n, max);
    if |b| * BatchSize(n, max) < WRAP {
      NoWrapTiles(b, n, BatchSize(n, max));
    } else {
      WrapBreaks(b, n, BatchSize(n, max));
    }
  }

  lemma SplitEvenly(b: seq<Batch>, n: nat, max: nat)
    requires 0 < n < WRAP && max > 0 && |b| == DivCeil(n, BatchSize(n, max)) && Computed(b, n, BatchSize(n, max))
    requires |b| * BatchSize(n, max) < WRAP
    ensures EvenlySplit(b, n, max)
  {
    var size := BatchSize(n, max);
    SizesFit(n, max);
    DivCeilIsLeast(n, max);
    DivCeilIsLeast(n, size);
    forall i | 0 <= i < |b| - 1 ensures b[i].end - b[i].start == size {
      BatchExact(n, size, |b|, i);
      assert (i + 1) * size == i * size + size;
    }
    hide Computed, BatchOf, DivCeil, LeastCover;
    assert LeastCover(size, n, max);
  }

  /** The loop header computes each batch from its number. */
  lemma FirstBatch(n: nat, size: nat)
    requires size < WRAP
    ensures Batch(0, Min(size, n), 0) == BatchOf(n, size, 0)
  {
  }

  lemma NextBatch(n: nat, size: nat, batch: nat)
    requires batch + 1 < WRAP
    ensures Batch((batch * size) % WRAP, Min((((batch + 1) % WRAP) * size) % WRAP, n), batch) == BatchOf(n, size, batch)
  {
    DivModUnique(batch + 1, WRAP, 0, batch + 1);
  }

  /** The loop that fills the task array. */
  method FillTasks(n: nat, size: nat, num: nat) returns (tasks: seq<Batch>)
    requires n < WRAP && size < WRAP && num < WRAP
    ensures |tasks| == num && Computed(tasks, n, size)
  {
    tasks := [];
    var batch: nat, start: nat, end: nat := 0, 0, Min(size, n);
    FirstBatch(n, size);
    hide BatchOf, Min;
    while batch < num
      invariant batch == |tasks| <= num && Computed(tasks, n, size)
      invariant batch < num ==> Batch(start, end, batch) == BatchOf(n, size, batch)
    {
      tasks := tasks + [Batch(start, end, batch)];
      DivModUnique(batch + 1, WRAP, 0, batch + 1);
      batch := (batch + 1) % WRAP;
      start := (batch * size) % WRAP;
      end := Min((((batch + 1) % WRAP) * size) % WRAP, n);
      if batch < num { NextBatch(n, size, batch); }
    }
  }

  /** submit_batched_n up to the call of submit_raw; submit_batched drops the index. */
  method SubmitBatched(n: nat, max: nat) returns (r: Outcome)
    requires n < WRAP && max < WRAP
    ensures r.DivisionByZero? <==> n == 0 || max == 0
    ensures !r.AssertionFailed?
    ensures r.Submitted? ==> 0 < |r.batches| <= max && r.batches == BatchesOf(n, max)
    ensures r.Submitted? ==> (Tiles(r.batches, n) <==> |r.batches| * BatchSize(n, max) < WRAP)
    ensures r.Submitted? && Tiles(r.batches, n) ==> EvenlySplit(r.batches, n, max)
  {
    if max == 0 {
      return DivisionByZero;
    }
    var size := DivCeil(n, max);
    if size == 0 {
      return DivisionByZero;
    }
    var num := DivCeil(n, size);
    SizesFit(n, max);
    if num > max {
      return AssertionFailed;
    }
    var tasks := FillTasks(n, size, num);
    ComputedIsAll(tasks, n, max);
    TilesExactly(n, max);
    if |tasks| * size < WRAP { SplitEvenly(tasks, n, max); }
    hide Computed, BatchOf, Tiles, EvenlySplit;
    r := Submitted(tasks);
  }

  /** The failing family is not empty: 2^32 - 1 elements in at most two batches. */
  lemma TwoHalvesWrap()
    ensures BatchesOf(WRAP - 1, 2) == [Batch(0, WRAP / 2, 0), Batch(WRAP / 2, 0, 1)]
    ensures !Tiles(BatchesOf(WRAP - 1, 2), WRAP - 1)
  {
    assert BatchSize(WRAP - 1, 2) == WRAP / 2 && DivCeil(WRAP - 1, WRAP / 2) == 2;
    assert BatchOf(WRAP - 1, WRAP / 2, 0) == Batch(0, WRAP / 2, 0);
    assert BatchOf(WRAP - 1, WRAP / 2, 1) == Batch(WRAP / 2, 0, 1);
    TilesExactly(WRAP - 1, 2);
  }
}

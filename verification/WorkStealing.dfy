/** How a worker thread finds its next task when every thread owns a deque of tasks. */
module WorkStealing {
  import opened Prelude
  import opened Arithmetic

  /** Indices of all deques below n but the thread's own, in order. */
  function Others(n: nat, own: nat): (r: seq<nat>)
    ensures |r| == if own < n then n - 1 else n
    ensures forall k :: 0 <= k < |r| ==> r[k] == if k < own then k else k + 1
  {
    if n == 0 then [] else Others(n - 1, own) + (if n - 1 == own then [] else [n - 1])
  }

  /** The place in the stealer list that iteration i of the loop tries. */
  function Target(last: nat, i: nat, m: nat): (r: nat)
    requires m > 0
    ensures r < m
  {
    ((last + i) % WRAP) % m
  }

  /** The iterations try different stealers … */
  lemma TargetsDiffer(last: nat, i: nat, j: nat, m: nat)
    requires i < j < m && last + m <= WRAP
    ensures Target(last, i, m) != Target(last, j, m)
  {
    DivModUnique(last + i, WRAP, 0, last + i);
    DivModUnique(last + j, WRAP, 0, last + j);
    if Target(last, i, m) == Target(last, j, m) { SameRemainder(last + i, last + j, m); }
  }

  lemma RemainderFound(last: nat, k: nat, m: nat) returns (i: nat)
    requires k < m
    ensures i < m && (last + i) % m == k
    ensures i == if last % m <= k then k - last % m else m - last % m + k
  {
    var r, q := last % m, last / m;
    assert last == q * m + r;
    if r <= k {
      i := k - r;
      DivModUnique(last + i, m, q, k);
    } else {
      i := m - r + k;
      assert (q + 1) * m == q * m + m;
      DivModUnique(last + i, m, q + 1, k);
    }
  }

  /** … and one of them tries stealer k. */
  lemma TargetFound(last: nat, k: nat, m: nat) returns (i: nat)
    requires k < m && last + m <= WRAP
    ensures i < m && Target(last, i, m) == k
  {
    i := RemainderFound(last, k, m);
    DivModUnique(last + i, WRAP, 0, last + i);
  }

  /** Going up from start and around, index j comes before index w. */
  predicate Before(start: nat, j: nat, w: nat) {
    if start <= w then start <= j < w else start <= j || j < w
  }

  /** The loop starts at the index congruent to the last target and goes up from there, around the end. */
  lemma TargetsGoUp(last: nat, i: nat, j: nat, m: nat) returns (k: nat)
    requires i < m && j < m && last + m <= WRAP && Before(last % m, j, Target(last, i, m))
    ensures k < i && Target(last, k, m) == j
  {
    k := RemainderFound(last, j, m);
    DivModUnique(last + k, WRAP, 0, last + k);
    var w := Target(last, i, m);
    var i' := RemainderFound(last, w, m);
    DivModUnique(last + i', WRAP, 0, last + i');
    if i < i' { TargetsDiffer(last, i, i', m); } else if i' < i { TargetsDiffer(last, i', i, m); }
  }

  /** The deques in the order in which one call tries to steal from them. */
  function VisitOrder(n: nat, own: nat, last: nat): (r: seq<nat>)
    requires own < n
  {
    var o := Others(n, own);
    seq(n - 1, i requires 0 <= i < n - 1 => o[Target(last, i, n - 1)])
  }

  /** Every deque but the thread's own is tried, and none twice. */
  lemma VisitsEveryOtherOnce(n: nat, own: nat, last: nat)
    requires own < n && last + n <= WRAP
    ensures NoDup(VisitOrder(n, own, last))
    ensures forall d: nat :: d in VisitOrder(n, own, last) <==> d < n && d != own
  {
    var v, m := VisitOrder(n, own, last), n - 1;
    forall i, j | 0 <= i < j < |v| ensures v[i] != v[j] { TargetsDiffer(last, i, j, m); }
    forall d: nat | d < n && d != own ensures d in v {
      var i := TargetFound(last, if d < own then d else d - 1, m);
      assert v[i] == d;
    }
  }

  /** A thread's view: tls_t with its own deque, its stealers and the last steal target. */
  class Worker {
    var own: nat
    var stealers: seq<nat>
    var lastStealTarget: nat

    /** The fields as the code sets them for n deques. */
    ghost predicate Valid(n: nat)
      reads this
    {
      own < n && stealers == Others(n, own) && lastStealTarget <= n && n + n <= WRAP
    }

    constructor ()
      ensures stealers == []
    {
      own, stealers, lastStealTarget := 0, [], 0;
    }

    /** prepare_chase_lev for n deques. */
    method Prepare(n: nat, index: nat)
      requires index < n && n + n <= WRAP && stealers == []
      modifies this
      ensures Valid(n) && own == index && lastStealTarget == index + 1
    {
      own := index;
      var t := 0;
      while t < n
        invariant t <= n && own == index && stealers == Others(t, index)
      {
        if t != index {
          stealers := stealers + [t];
        }
        t := t + 1;
      }
      lastStealTarget := index + 1;
    }

    /** get_task on the given deques (front first); next are the deques afterwards. */
    method GetTask<T>(deques: seq<seq<T>>) returns (task: Option<T>, next: seq<seq<T>>)
      requires Valid(|deques|)
      modifies this`lastStealTarget
      ensures Valid(|deques|) && |next| == |deques|
      ensures task.None? <==> forall d :: 0 <= d < |deques| ==> deques[d] == []
      ensures task.None? ==> next == deques && lastStealTarget == old(lastStealTarget)
      ensures task.Some? && deques[own] != [] ==>
        && deques[own] == next[own] + [task.value] && lastStealTarget == old(lastStealTarget)
        && next == deques[own := next[own]]
      ensures task.Some? && deques[own] == [] ==>
        Stolen(deques, stealers, old(lastStealTarget), lastStealTarget, task.value, next)
    {
      next := deques;
      if deques[own] != [] {
        var b := |deques[own]| - 1;
        return Some(deques[own][b]), deques[own := deques[own][..b]];
      }
      VisitsEveryOtherOnce(|deques|, own, lastStealTarget);
      ghost var order := VisitOrder(|deques|, own, lastStealTarget);
      var i := 0;
      while i < |stealers|
        invariant i <= |stealers| && next == deques && lastStealTarget == old(lastStealTarget)
        invariant forall k :: 0 <= k < i ==> deques[order[k]] == []
      {
        var target := ((lastStealTarget + i) % WRAP) % |stealers|;
        var d := stealers[target];
        assert d == order[i];
        if deques[d] != [] {
          lastStealTarget := target;
          next := deques[d := deques[d][1..]];
          forall j: nat | j < |stealers| && Before(old(lastStealTarget) % |stealers|, j, target) ensures deques[stealers[j]] == [] {
            var k := TargetsGoUp(old(lastStealTarget), i, j, |stealers|);
            assert order[k] == stealers[j];
          }
          return Some(deques[d][0]), next;
        }
        i := i + 1;
      }
      forall d | 0 <= d < |deques| ensures deques[d] == [] {
        if d != own { assert d in order; }
      }
      task := None;
    }
  }

  /** Counting up from the stealer whose index is congruent to the last target, and around, stealer w is
      the first whose deque is not empty, and x was the oldest task there. */
  ghost predicate Stolen<T>(deques: seq<seq<T>>, stealers: seq<nat>, last: nat, w: nat, x: T, next: seq<seq<T>>)
    requires forall j :: 0 <= j < |stealers| ==> stealers[j] < |deques|
  {
    && w < |stealers| && |next| == |deques|
    && (forall j: nat :: j < |stealers| && Before(last % |stealers|, j, w) ==> deques[stealers[j]] == [])
    && var d := stealers[w];
       deques[d] == [x] + next[d] && next == deques[d := next[d]]
  }
}

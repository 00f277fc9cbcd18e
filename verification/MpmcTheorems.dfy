/** What the bounded queue promises in every state of every interleaving. */
module MpmcTheorems {
  import opened MpmcProtocol

  // ----- runs ----------------------------------------------------------------------------------

  ghost predicate CanRun<T>(s: State<T>, actions: seq<Action<T>>)
    decreases |actions|
  {
    actions != [] ==> Enabled(s, actions[0]) && CanRun(Do(s, actions[0]), actions[1..])
  }

  ghost function Run<T>(s: State<T>, actions: seq<Action<T>>): State<T>
    requires CanRun(s, actions)
    decreases |actions|
  {
    if actions == [] then s else Run(Do(s, actions[0]), actions[1..])
  }

  /** Every run keeps the invariant, in particular deq <= enq <= deq + capacity. */
  lemma {:induction false} RunInv<T>(s: State<T>, actions: seq<Action<T>>)
    requires Inv(s) && CanRun(s, actions)
    ensures Inv(Run(s, actions))
    decreases |actions|
  {
    if actions != [] {
      StepInv(s, actions[0]);
      RunInv(Do(s, actions[0]), actions[1..]);
    }
  }

  /** In every state of every run of a new queue the positions are at most a capacity apart. */
  lemma PositionsBounded<T>(s: State<T>, actions: seq<Action<T>>)
    requires Init(s) && CanRun(s, actions)
    ensures
      var q := Run(s, actions);
      q.deq <= q.enq <= q.deq + q.cap && q.cap >= 2 && |q.hist| == q.enq
  {
    InitInv(s);
    RunInv(s, actions);
  }

  // ----- refinement of a bounded FIFO ------------------------------------------------------------

  /** The abstract queue: claimed for enqueue and not yet claimed for dequeue. */
  ghost function Contents<T>(s: State<T>): seq<T>
    requires Inv(s)
  {
    s.hist[s.deq..s.enq]
  }

  ghost predicate ClaimsEnqueue<T>(s: State<T>, a: Action<T>)
    requires Enabled(s, a)
  {
    a.Advance? && !a.spurious && s.pc[a.t].EnqCas? && s.pc[a.t].pos == s.enq
  }

  ghost predicate ClaimsDequeue<T>(s: State<T>, a: Action<T>)
    requires Enabled(s, a)
  {
    a.Advance? && !a.spurious && s.pc[a.t].DeqCas? && s.pc[a.t].pos == s.deq
  }

  /** The successful CAS is the moment a call takes effect: an enqueue appends its value to a
      queue with room, a dequeue removes the front, and no other step changes the contents. */
  lemma StepRefinesFifo<T>(s: State<T>, a: Action<T>)
    requires Inv(s) && Enabled(s, a)
    ensures Inv(Do(s, a))
    ensures
      var q, q' := Contents(s), Contents(Do(s, a));
      if ClaimsEnqueue(s, a) then |q| < s.cap && q' == q + [s.pc[a.t].v]
      else if ClaimsDequeue(s, a) then q != [] && q == [s.hist[s.pc[a.t].pos]] + q'
      else q' == q
  {
    StepInv(s, a);
    assert ThreadOk(s, a.t);
    if ClaimsEnqueue(s, a) {
      EnqCellFree(s, s.pc[a.t].pos);
    } else if ClaimsDequeue(s, a) {
      DeqCellFull(s, s.pc[a.t].pos);
    }
  }

  /** A dequeue that returns hands out the value the enqueuer of its position claimed it with,
      and nobody was handed that position before. */
  lemma DeliversOnceInOrder<T>(s: State<T>, a: Action<T>)
    requires Inv(s) && Enabled(s, a) && a.Advance? && s.pc[a.t].DeqRelease?
    ensures
      var pos := s.pc[a.t].pos;
      && pos !in s.delivered && pos < |s.hist|
      && Do(s, a).answer[a.t] == Value(s.hist[pos])
      && Do(s, a).delivered == s.delivered[pos := s.hist[pos]]
  {
    assert ThreadOk(s, a.t);
    assert DeliveredOk(s, s.pc[a.t].pos);
  }

  /** Conservation: a claimed position is delivered, or held by exactly one dequeuer. */
  lemma ClaimedPositions<T>(s: State<T>, p: nat)
    requires Inv(s) && p < s.deq
    ensures p in s.delivered ==> s.delivered[p] == s.hist[p] && forall t: nat :: t < |s.pc| ==> !HoldsDeq(s.pc[t], p)
    ensures p !in s.delivered ==>
      && (exists t: nat :: t < |s.pc| && HoldsDeq(s.pc[t], p))
      && (forall t: nat, u: nat :: t < |s.pc| && u < |s.pc| && HoldsDeq(s.pc[t], p) && HoldsDeq(s.pc[u], p) ==> t == u)
  {
    assert DeliveredOk(s, p);
    forall t: nat | t < |s.pc| && HoldsDeq(s.pc[t], p) ensures t == s.deqBy[p] { assert ThreadOk(s, t); }
  }

  // ----- no data race on a cell --------------------------------------------------------------------

  /** The thread may read or write the data of cell i. */
  ghost predicate UsesCell<T>(s: State<T>, t: nat, i: nat)
    requires Sized(s)
  {
    && t < |s.pc|
    && (s.pc[t].EnqWrite? || s.pc[t].EnqPublish? || s.pc[t].DeqRead? || s.pc[t].DeqRelease?)
    && Cell(s.cap, s.pc[t].pos) == i
  }

  lemma CellUsedByOneThread<T>(s: State<T>, i: nat, t: nat, u: nat)
    requires Inv(s) && UsesCell(s, t, i) && UsesCell(s, u, i)
    ensures t == u
  {
    assert ThreadOk(s, t) && ThreadOk(s, u);
  }

  // ----- what a false result means -----------------------------------------------------------------

  /** The value of position p can be taken: its enqueuer has published it. */
  ghost predicate Published<T>(s: State<T>, p: nat)
    requires Sized(s)
  {
    p < s.enq && forall t: nat :: t < |s.pc| ==> !HoldsEnq(s.pc[t], p)
  }

  /** enqueue ends there with the answer "full" exactly when, at the sequence load, its position is
      still the next one and the position one capacity earlier has not been handed out. */
  lemma EnqueueFailsExactly<T>(s: State<T>, t: nat, v: T, pos: nat, spurious: bool)
    requires Inv(s) && t < |s.pc| && s.pc[t] == EnqSeq(v, pos)
    ensures
      var s' := Do(s, Advance(t, spurious));
      if pos == s.enq && s.cap <= pos && pos - s.cap !in s.delivered then s'.pc[t].Rest? && s'.answer[t] == Full
      else !s'.pc[t].Rest?
  {
    assert ThreadOk(s, t);
    var i := Cell(s.cap, pos);
    assert CellOk(s, i);
    var p := s.base[i];
    if p < pos { SameCell(s.cap, p, pos); }
    if pos < p { SameCell(s.cap, pos, p); }
    if s.cap <= pos {
      NextRound(s.cap, pos - s.cap);
      if pos - s.cap < s.deq { assert DeliveredOk(s, pos - s.cap); }
    }
    if pos - s.cap >= 0 && p != pos - s.cap && pos - s.cap < s.deq && pos - s.cap !in s.delivered {
      assert ThreadOk(s, s.deqBy[pos - s.cap]);
    }
  }

  /** dequeue ends there with the answer "empty" exactly when its position is still the next one and is
      not published. */
  lemma DequeueFailsExactly<T>(s: State<T>, t: nat, pos: nat, spurious: bool)
    requires Inv(s) && t < |s.pc| && s.pc[t] == DeqSeq(pos)
    ensures
      var s' := Do(s, Advance(t, spurious));
      if pos == s.deq && !Published(s, pos) then s'.pc[t].Rest? && s'.answer[t] == Empty
      else !s'.pc[t].Rest?
  {
    assert ThreadOk(s, t);
    var i := Cell(s.cap, pos);
    assert CellOk(s, i);
    var p := s.base[i];
    if p < pos { SameCell(s.cap, p, pos); }
    if pos < p { SameCell(s.cap, pos, p); }
    forall u: nat | u < |s.pc| && HoldsEnq(s.pc[u], pos) ensures p == pos && s.sequence[i] == pos { assert ThreadOk(s, u); }
  }

  /** With no other call in flight the answers are exactly full and empty. */
  lemma AloneFullAndEmptyAreExact<T>(s: State<T>, t: nat, spurious: bool)
    requires Inv(s) && t < |s.pc|
    requires forall u: nat :: u < |s.pc| && u != t ==> s.pc[u].Rest?
    ensures s.pc[t].EnqSeq? && s.pc[t].pos == s.enq ==>
      var s' := Do(s, Advance(t, spurious));
      if |Contents(s)| == s.cap then s'.pc[t].Rest? && s'.answer[t] == Full else !s'.pc[t].Rest?
    ensures s.pc[t].DeqSeq? && s.pc[t].pos == s.deq ==>
      var s' := Do(s, Advance(t, spurious));
      if Contents(s) == [] then s'.pc[t].Rest? && s'.answer[t] == Empty else !s'.pc[t].Rest?
  {
    match s.pc[t] {
      case EnqSeq(v, pos) =>
        EnqueueFailsExactly(s, t, v, pos, spurious);
        if pos == s.enq && s.cap <= pos && pos - s.cap < s.deq { assert DeliveredOk(s, pos - s.cap); }
      case DeqSeq(pos) => DequeueFailsExactly(s, t, pos, spurious);
      case _ =>
    }
  }

  // ----- a call that runs alone ---------------------------------------------------------------------

  function Steps<T>(t: nat, n: nat): seq<Action<T>> {
    seq(n, _ => Advance(t, false))
  }

  /** Taking one step off a run of thread t. */
  lemma PeelStep<T>(s: State<T>, t: nat, n: nat)
    requires n > 0 && Enabled(s, Advance(t, false)) && CanRun(Do(s, Advance(t, false)), Steps(t, n - 1))
    ensures CanRun(s, Steps(t, n)) && Run(s, Steps(t, n)) == Run(Do(s, Advance(t, false)), Steps(t, n - 1))
  {
    var all: seq<Action<T>> := Steps(t, n);
    assert all[1..] == Steps(t, n - 1);
  }

  /** The state after an uninterrupted enqueue that finds its cell free. */
  function Enqueued<T>(s: State<T>, t: nat, v: T): State<T>
    requires Sized(s) && t < |s.pc|
  {
    var i := Cell(s.cap, s.enq);
    s.(answer := s.answer[t := Stored], sequence := s.sequence[i := s.enq + 1], data := s.data[i := v],
       enq := s.enq + 1, hist := s.hist + [v], enqBy := s.enqBy + [t])
  }

  /** An uninterrupted enqueue takes six steps and stores its value. */
  lemma SoloEnqueue<T>(s: State<T>, t: nat, v: T)
    requires Sized(s) && t < |s.pc| && s.pc[t].Rest? && s.sequence[Cell(s.cap, s.enq)] == s.enq
    ensures
      var s1 := Goto(s, t, EnqLoad(v));
      CanRun(s1, Steps(t, 5)) && Run(s1, Steps(t, 5)) == Enqueued(s, t, v)
  {
    var s1 := Goto(s, t, EnqLoad(v));
    var s2 := Goto(s, t, EnqSeq(v, s.enq));
    var s3 := Goto(s, t, EnqCas(v, s.enq));
    var s4 := EnqClaim(s, t, v, s.enq);
    var s5 := EnqStore(s4, t, v, s.enq);
    assert Goto(s1, t, EnqSeq(v, s.enq)) == s2;
    assert Goto(s2, t, EnqCas(v, s.enq)) == s3;
    assert EnqClaim(s3, t, v, s.enq) == s4;
    assert s.pc[t := EnqPublish(s.enq)][t := Rest] == s.pc;
    assert EnqDone(s5, t, s.enq) == Enqueued(s, t, v);
    PeelStep(s5, t, 1);
    PeelStep(s4, t, 2);
    PeelStep(s3, t, 3);
    PeelStep(s2, t, 4);
    PeelStep(s1, t, 5);
  }

  /** The state after an uninterrupted dequeue that finds its position published. */
  function Dequeued<T>(s: State<T>, t: nat): State<T>
    requires Sized(s) && t < |s.pc|
  {
    var i := Cell(s.cap, s.deq);
    var v := s.data[i];
    s.(answer := s.answer[t := Value(v)], sequence := s.sequence[i := s.deq + s.cap], base := s.base[i := s.deq + s.cap],
       deq := s.deq + 1, deqBy := s.deqBy + [t], delivered := s.delivered[s.deq := v])
  }

  lemma SoloDequeue<T>(s: State<T>, t: nat)
    requires Sized(s) && t < |s.pc| && s.pc[t].Rest? && s.sequence[Cell(s.cap, s.deq)] == s.deq + 1
    ensures
      var s1 := Goto(s, t, DeqLoad);
      CanRun(s1, Steps(t, 5)) && Run(s1, Steps(t, 5)) == Dequeued(s, t)
  {
    var v := s.data[Cell(s.cap, s.deq)];
    var s1 := Goto(s, t, DeqLoad);
    var s2 := Goto(s, t, DeqSeq(s.deq));
    var s3 := Goto(s, t, DeqCas(s.deq));
    var s4 := DeqClaim(s, t, s.deq);
    var s5 := Goto(s4, t, DeqRelease(s.deq, v));
    assert Goto(s1, t, DeqSeq(s.deq)) == s2;
    assert Goto(s2, t, DeqCas(s.deq)) == s3;
    assert DeqClaim(s3, t, s.deq) == s4;
    assert s.pc[t := DeqRead(s.deq)][t := DeqRelease(s.deq, v)][t := Rest] == s.pc;
    assert DeqDone(s5, t, s.deq, v) == Dequeued(s, t);
    PeelStep(s5, t, 1);
    PeelStep(s4, t, 2);
    PeelStep(s3, t, 3);
    PeelStep(s2, t, 4);
    PeelStep(s1, t, 5);
  }

  // ----- a false result does not mean full ------------------------------------------------------------

  lemma {:induction false} RunAppend<T>(s: State<T>, a: seq<Action<T>>, b: seq<Action<T>>)
    requires CanRun(s, a) && CanRun(Run(s, a), b)
    ensures CanRun(s, a + b) && Run(s, a + b) == Run(Run(s, a), b)
    decreases |a|
  {
    if a == [] {
      assert a + b == b;
    } else {
      hide Do, Enabled;
      RunAppend(Do(s, a[0]), a[1..], b);
      assert (a + b)[1..] == a[1..] + b;
    }
  }

  /** A call together with the solo steps that follow it. */
  lemma CallThenSteps<T>(s: State<T>, a: Action<T>, t: nat, n: nat)
    requires Enabled(s, a) && CanRun(Do(s, a), Steps(t, n))
    ensures CanRun(s, [a] + Steps(t, n)) && Run(s, [a] + Steps(t, n)) == Run(Do(s, a), Steps(t, n))
  {
    assert ([a] + Steps(t, n))[1..] == Steps(t, n);
  }

  /** Three claims of position deq by thread t: load, look, CAS. */
  lemma SoloClaim<T>(s: State<T>, t: nat)
    requires Sized(s) && t < |s.pc| && s.pc[t].Rest? && s.sequence[Cell(s.cap, s.deq)] == s.deq + 1
    ensures
      var s1 := Goto(s, t, DeqLoad);
      CanRun(s1, Steps(t, 3)) && Run(s1, Steps(t, 3)) == DeqClaim(s, t, s.deq)
  {
    var s1 := Goto(s, t, DeqLoad);
    var s2 := Goto(s, t, DeqSeq(s.deq));
    var s3 := Goto(s, t, DeqCas(s.deq));
    assert Goto(s1, t, DeqSeq(s.deq)) == s2;
    assert Goto(s2, t, DeqCas(s.deq)) == s3;
    assert DeqClaim(s3, t, s.deq) == DeqClaim(s, t, s.deq);
    PeelStep(s3, t, 1);
    PeelStep(s2, t, 2);
    PeelStep(s1, t, 3);
  }

  lemma SoloFull<T>(s: State<T>, t: nat, v: T)
    requires Sized(s) && t < |s.pc| && s.pc[t].Rest? && s.sequence[Cell(s.cap, s.enq)] < s.enq
    ensures
      var s1 := Goto(s, t, EnqLoad(v));
      CanRun(s1, Steps(t, 2)) && Run(s1, Steps(t, 2)) == s.(answer := s.answer[t := Full])
  {
    var s1 := Goto(s, t, EnqLoad(v));
    var s2 := Goto(s, t, EnqSeq(v, s.enq));
    assert Goto(s1, t, EnqSeq(v, s.enq)) == s2;
    assert s.pc[t := Rest] == s.pc;
    assert Return(s2, t, Full) == s.(answer := s.answer[t := Full]);
    PeelStep(s2, t, 1);
    PeelStep(s1, t, 2);
  }

  /** A run of a queue with two cells that ends with an enqueue answered "full" although the
      queue holds nothing: a dequeuer that has claimed a position but not read it yet keeps
      the cell, while the other position has come and gone. */
  lemma FullAnswerFromAnEmptyQueue<T>(s: State<T>, v: T) returns (actions: seq<Action<T>>)
    requires Init(s) && s.cap == 2 && |s.pc| == 3
    ensures CanRun(s, actions) && Inv(Run(s, actions))
    ensures Contents(Run(s, actions)) == [] && |Run(s, actions).answer| == 3 && Run(s, actions).answer[0] == Full
  {
    var a := Enqueued(s, 0, v);
    var b := Enqueued(a, 0, v);
    var c := DeqClaim(b, 1, 0);
    var d := Dequeued(c, 2);
    SoloEnqueue(s, 0, v); CallThenSteps(s, Action.Enqueue(0, v), 0, 5);
    SoloEnqueue(a, 0, v); CallThenSteps(a, Action.Enqueue(0, v), 0, 5);
    SoloClaim(b, 1); CallThenSteps(b, Action.Dequeue(1), 1, 3);
    SoloDequeue(c, 2); CallThenSteps(c, Action.Dequeue(2), 2, 5);
    SoloFull(d, 0, v); CallThenSteps(d, Action.Enqueue(0, v), 0, 2);
    actions := [Action.Enqueue(0, v)] + Steps(0, 5);
    RunAppend(s, actions, [Action.Enqueue(0, v)] + Steps(0, 5));
    actions := actions + ([Action.Enqueue(0, v)] + Steps(0, 5));
    RunAppend(s, actions, [Action.Dequeue(1)] + Steps(1, 3));
    actions := actions + ([Action.Dequeue(1)] + Steps(1, 3));
    RunAppend(s, actions, [Action.Dequeue(2)] + Steps(2, 5));
    actions := actions + ([Action.Dequeue(2)] + Steps(2, 5));
    RunAppend(s, actions, [Action.Enqueue(0, v)] + Steps(0, 2));
    actions := actions + ([Action.Enqueue(0, v)] + Steps(0, 2));
    InitInv(s);
    RunInv(s, actions);
  }
}

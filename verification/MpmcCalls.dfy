/**
  What enqueue and dequeue do and answer, from their first step to their last, under every
  interleaving with other threads.
 */
module MpmcCalls {
  import opened MpmcProtocol
  import opened MpmcTheorems

  // ----- runs -----------------------------------------------------------------------------------------

  ghost predicate Moved<T(!new)>(s: State<T>, a: Action<T>, q: State<T>) {
    Enabled(s, a) && q == Do(s, a)
  }

  /** The states along a run of a new queue. */
  ghost predicate Path<T(!new)>(states: seq<State<T>>, actions: seq<Action<T>>) {
    && |states| == |actions| + 1 && Init(states[0])
    && forall k :: 0 <= k < |actions| ==> Moved(states[k], actions[k], states[k + 1])
  }

  lemma {:induction false} PathInv<T(!new)>(states: seq<State<T>>, actions: seq<Action<T>>, k: nat)
    requires Path(states, actions) && k < |states|
    ensures Inv(states[k])
  {
    if k == 0 {
      InitInv(states[0]);
    } else {
      PathInv(states, actions, k - 1);
      assert Moved(states[k - 1], actions[k - 1], states[k]);
      hide Init, Enabled, Do, Inv;
      StepInv(states[k - 1], actions[k - 1]);
    }
  }

  lemma PathStep<T(!new)>(states: seq<State<T>>, actions: seq<Action<T>>, k: nat)
    requires Path(states, actions) && k < |actions|
    ensures |states| == |actions| + 1 && Enabled(states[k], actions[k]) && states[k + 1] == Do(states[k], actions[k])
    ensures Inv(states[k]) && Inv(states[k + 1])
  {
    PathInv(states, actions, k);
    PathInv(states, actions, k + 1);
    assert Moved(states[k], actions[k], states[k + 1]);
  }

  lemma PathLength<T(!new)>(states: seq<State<T>>, actions: seq<Action<T>>)
    requires Path(states, actions)
    ensures |states| == |actions| + 1
  {
  }

  /** What was claimed stays claimed. */
  ghost predicate Extends<T(!new)>(s: State<T>, q: State<T>) {
    && s.enq <= q.enq <= |q.hist| && s.deq <= q.deq && |s.hist| == |s.enqBy| == s.enq && |q.enqBy| == q.enq && |s.deqBy| == s.deq && |q.deqBy| == q.deq
    && (forall p: nat :: p < s.enq ==> q.hist[p] == s.hist[p] && q.enqBy[p] == s.enqBy[p])
    && (forall p: nat :: p < s.deq ==> q.deqBy[p] == s.deqBy[p])
  }

  /** A step of another thread leaves thread t alone and claims nothing for it. */
  lemma OthersLeaveThread<T(!new)>(s: State<T>, a: Action<T>, t: nat)
    requires Enabled(s, a) && t < |s.pc| && a.t != t
    ensures
      var q := Do(s, a);
      && Extends(s, q) && |q.pc| == |s.pc| == |q.answer| && q.pc[t] == s.pc[t] && q.answer[t] == s.answer[t] && q.cap == s.cap
      && (forall p: nat :: s.enq <= p < q.enq ==> q.enqBy[p] != t)
      && (forall p: nat :: s.deq <= p < q.deq ==> q.deqBy[p] != t)
  {
  }

  /** Thread t is inside a call from step i + 1 to step j, and out of it at step j. */
  ghost predicate CallSpan<T(!new)>(states: seq<State<T>>, t: nat, i: nat, j: nat) {
    && i < j < |states| && t < |states[j].pc| && states[j].pc[t].Rest?
    && forall n :: i < n < j ==> t < |states[n].pc| && !states[n].pc[t].Rest?
  }

  // ----- enqueue ------------------------------------------------------------------------------------------

  /** Thread t has claimed no position from `from` on, except possibly `but`. */
  ghost predicate ClaimedOnly<T(!new)>(s: State<T>, t: nat, from: nat, but: int) {
    |s.enqBy| == s.enq && forall p: nat :: from <= p < s.enq && s.enqBy[p] == t ==> p == but
  }

  /** The position next at step c is one that thread t claimed there for v. */
  ghost predicate ClaimedFor<T(!new)>(states: seq<State<T>>, t: nat, v: T, i: nat, c: nat, n: nat) {
    && i < c < n < |states| && states[i].enq <= states[c].enq < states[n].enq && |states[n].hist| == |states[n].enqBy| == states[n].enq
    && states[n].hist[states[c].enq] == v && states[n].enqBy[states[c].enq] == t
    && ClaimedOnly(states[n], t, states[i].enq, states[c].enq)
  }

  /** At step c the cell of the next position was still held for the position one capacity before. */
  ghost predicate FoundFull<T(!new)>(states: seq<State<T>>, c: nat) {
    c < |states| && states[c].cap <= states[c].enq && states[c].enq - states[c].cap !in states[c].delivered
  }

  /** How far the enqueue of v that thread t began at step i has come at step n; c is the step of its
      successful CAS, or of the look at which it gave up. */
  ghost predicate Enqueuing<T(!new)>(states: seq<State<T>>, t: nat, v: T, i: nat, n: nat, c: nat) {
    && i < n < |states| && t < |states[n].pc| && t < |states[n].answer| && states[i].enq <= states[n].enq
    && var s := states[n];
       match s.pc[t]
       case EnqLoad(w) => w == v && ClaimedOnly(s, t, states[i].enq, -1)
       case EnqSeq(w, _) => w == v && ClaimedOnly(s, t, states[i].enq, -1)
       case EnqCas(w, _) => w == v && ClaimedOnly(s, t, states[i].enq, -1)
       case EnqWrite(w, pos) => w == v && ClaimedFor(states, t, v, i, c, n) && pos == states[c].enq
       case EnqPublish(pos) => ClaimedFor(states, t, v, i, c, n) && pos == states[c].enq
       case Rest =>
         || (s.answer[t] == Stored && ClaimedFor(states, t, v, i, c, n))
         || (s.answer[t] == Full && i < c < n && FoundFull(states, c) && ClaimedOnly(s, t, states[i].enq, -1))
       case _ => false
  }

  lemma OwnEnqueueStep<T(!new)>(s: State<T>, a: Action<T>)
    requires Inv(s) && Enabled(s, a) && a.Advance? && !s.pc[a.t].DeqLoad? && !s.pc[a.t].DeqSeq? && !s.pc[a.t].DeqCas? && !s.pc[a.t].DeqRead? && !s.pc[a.t].DeqRelease?
    ensures
      var q, t := Do(s, a), a.t;
      && |q.pc| == |s.pc| == |q.answer| && Extends(s, q)
      && match s.pc[t]
         case EnqLoad(v) => q.enq == s.enq && q.pc[t].EnqSeq? && q.pc[t].v == v
         case EnqSeq(v, pos) =>
           && q.enq == s.enq
           && if q.pc[t].Rest? then q.answer[t] == Full && s.cap <= s.enq && s.enq - s.cap !in s.delivered
              else (q.pc[t].EnqCas? || q.pc[t].EnqLoad?) && q.pc[t].v == v
         case EnqCas(v, pos) =>
           if q.enq == s.enq then q.pc[t].EnqSeq? && q.pc[t].v == v
           else q.enq == s.enq + 1 && q.pc[t] == EnqWrite(v, s.enq) && q.hist[s.enq] == v && q.enqBy[s.enq] == t
         case EnqWrite(_, pos) => q.enq == s.enq && q.pc[t] == EnqPublish(pos)
         case EnqPublish(_) => q.enq == s.enq && q.pc[t].Rest? && q.answer[t] == Stored
         case _ => true
  {
    assert ThreadOk(s, a.t);
    if s.pc[a.t].EnqSeq? { EnqueueFailsExactly(s, a.t, s.pc[a.t].v, s.pc[a.t].pos, a.spurious); }
  }

  lemma EnqueuingOwn<T(!new)>(states: seq<State<T>>, actions: seq<Action<T>>, t: nat, v: T, i: nat, n: nat, c: nat) returns (c': nat)
    requires Path(states, actions) && n < |actions| && Enqueuing(states, t, v, i, n, c) && !states[n].pc[t].Rest? && actions[n].t == t
    ensures Enqueuing(states, t, v, i, n + 1, c')
  {
    PathStep(states, actions, n);
    hide Path, Do;
    var s, a := states[n], actions[n];
    assert a.Advance?;
    OwnEnqueueStep(s, a);
    hide Inv;
    c' := if s.pc[t].EnqSeq? || s.pc[t].EnqCas? then n else c;
  }

  lemma EnqueuingOther<T(!new)>(states: seq<State<T>>, actions: seq<Action<T>>, t: nat, v: T, i: nat, n: nat, c: nat)
    requires Path(states, actions) && n < |actions| && Enqueuing(states, t, v, i, n, c) && !states[n].pc[t].Rest? && actions[n].t != t
    ensures Enqueuing(states, t, v, i, n + 1, c)
  {
    PathStep(states, actions, n);
    hide Path, Do, Inv;
    OthersLeaveThread(states[n], actions[n], t);
  }

  lemma {:induction false} EnqueuingAlong<T(!new)>(states: seq<State<T>>, actions: seq<Action<T>>, i: nat, j: nat, t: nat, v: T) returns (c: nat)
    requires Path(states, actions) && i < |actions| && actions[i] == Enqueue(t, v) && i < j < |states|
    requires forall n :: i < n < j ==> t < |states[n].pc| && !states[n].pc[t].Rest?
    ensures Enqueuing(states, t, v, i, j, c)
    decreases j
  {
    PathLength(states, actions);
    if j == i + 1 {
      EnqueueBegins(states, actions, i);
      c := 0;
    } else {
      hide Path, Enqueuing;
      c := EnqueuingAlong(states, actions, i, j - 1, t, v);
      if actions[j - 1].t == t {
        c := EnqueuingOwn(states, actions, t, v, i, j - 1, c);
      } else {
        EnqueuingOther(states, actions, t, v, i, j - 1, c);
      }
    }
  }

  lemma EnqueueBegins<T(!new)>(states: seq<State<T>>, actions: seq<Action<T>>, i: nat)
    requires Path(states, actions) && i < |actions| && actions[i].Enqueue?
    ensures Enqueuing(states, actions[i].t, actions[i].v, i, i + 1, 0)
  {
    PathStep(states, actions, i);
    hide Path;
  }

  /** enqueue, from its first step to its return: either it answers "stored" and has claimed exactly one
      position, for the value it was called with, or it answers "full", has claimed none, and at some
      look of its own the position one capacity before the next had not been handed out. */
  lemma EnqueueAnswersExactly<T(!new)>(states: seq<State<T>>, actions: seq<Action<T>>, i: nat, j: nat) returns (c: nat)
    requires Path(states, actions) && i < |actions| && actions[i].Enqueue? && CallSpan(states, actions[i].t, i, j)
    ensures
      var t, v := actions[i].t, actions[i].v;
      && i < c < j && t < |states[j].answer|
      && if states[j].answer[t] == Stored then ClaimedFor(states, t, v, i, c, j)
         else states[j].answer[t] == Full && FoundFull(states, c) && ClaimedOnly(states[j], t, states[i].enq, -1)
  {
    c := EnqueuingAlong(states, actions, i, j, actions[i].t, actions[i].v);
  }

  // ----- dequeue ------------------------------------------------------------------------------------------

  ghost predicate TookOnly<T(!new)>(s: State<T>, t: nat, from: nat, but: int) {
    |s.deqBy| == s.deq && forall p: nat :: from <= p < s.deq && s.deqBy[p] == t ==> p == but
  }

  /** The position next at step c is one that thread t claimed there, and no other since step i. */
  ghost predicate TookAt<T(!new)>(states: seq<State<T>>, t: nat, i: nat, c: nat, n: nat) {
    && i < c < n < |states| && states[i].deq <= states[c].deq < states[n].deq && |states[n].deqBy| == states[n].deq
    && states[n].deqBy[states[c].deq] == t && c + 1 < |states| && states[c + 1].deq == states[c].deq + 1
    && TookOnly(states[n], t, states[i].deq, states[c].deq)
  }

  ghost predicate FoundUnpublished<T(!new)>(states: seq<State<T>>, c: nat) {
    c < |states| && Sized(states[c]) && !Published(states[c], states[c].deq)
  }

  /** How far the dequeue that thread t began at step i has come at step n; c is the step of its
      successful CAS, or of the look at which it gave up. */
  ghost predicate Dequeuing<T(!new)>(states: seq<State<T>>, t: nat, i: nat, n: nat, c: nat) {
    && i < n < |states| && t < |states[n].pc| && t < |states[n].answer| && states[i].deq <= states[n].deq
    && var s := states[n];
       match s.pc[t]
       case DeqLoad => TookOnly(s, t, states[i].deq, -1)
       case DeqSeq(_) => TookOnly(s, t, states[i].deq, -1)
       case DeqCas(_) => TookOnly(s, t, states[i].deq, -1)
       case DeqRead(pos) => TookAt(states, t, i, c, n) && pos == states[c].deq
       case DeqRelease(pos, _) => TookAt(states, t, i, c, n) && pos == states[c].deq
       case Rest =>
         || (TookAt(states, t, i, c, n) && states[c].deq < |s.hist| && s.answer[t] == Value(s.hist[states[c].deq]))
         || (s.answer[t] == Empty && i < c < n && FoundUnpublished(states, c) && TookOnly(s, t, states[i].deq, -1))
       case _ => false
  }

  lemma OwnDequeueStep<T(!new)>(s: State<T>, a: Action<T>)
    requires Inv(s) && Enabled(s, a) && a.Advance? && (s.pc[a.t].DeqLoad? || s.pc[a.t].DeqSeq? || s.pc[a.t].DeqCas? || s.pc[a.t].DeqRead? || s.pc[a.t].DeqRelease?)
    ensures
      var q, t := Do(s, a), a.t;
      && |q.pc| == |s.pc| == |q.answer| && Extends(s, q)
      && match s.pc[t]
         case DeqLoad => q.deq == s.deq && q.pc[t].DeqSeq?
         case DeqSeq(pos) =>
           && q.deq == s.deq
           && if q.pc[t].Rest? then q.answer[t] == Empty && !Published(s, s.deq) else q.pc[t].DeqCas? || q.pc[t].DeqLoad?
         case DeqCas(pos) =>
           if q.deq == s.deq then q.pc[t].DeqSeq?
           else q.deq == s.deq + 1 && q.pc[t] == DeqRead(s.deq) && q.deqBy[s.deq] == t
         case DeqRead(pos) => q.deq == s.deq && q.pc[t].DeqRelease? && q.pc[t].pos == pos
         case DeqRelease(pos, _) => q.deq == s.deq && q.pc[t].Rest? && pos < |s.hist| && q.answer[t] == Value(s.hist[pos])
         case _ => true
  {
    assert ThreadOk(s, a.t);
    if s.pc[a.t].DeqSeq? { DequeueFailsExactly(s, a.t, s.pc[a.t].pos, a.spurious); }
  }

  lemma DequeuingOwn<T(!new)>(states: seq<State<T>>, actions: seq<Action<T>>, t: nat, i: nat, n: nat, c: nat) returns (c': nat)
    requires Path(states, actions) && n < |actions| && Dequeuing(states, t, i, n, c) && !states[n].pc[t].Rest? && actions[n].t == t
    ensures Dequeuing(states, t, i, n + 1, c')
  {
    PathStep(states, actions, n);
    hide Path, Do;
    var s, a := states[n], actions[n];
    assert a.Advance?;
    OwnDequeueStep(s, a);
    assert Sized(s);
    hide Inv, Published;
    c' := if s.pc[t].DeqSeq? || s.pc[t].DeqCas? then n else c;
  }

  lemma DequeuingOther<T(!new)>(states: seq<State<T>>, actions: seq<Action<T>>, t: nat, i: nat, n: nat, c: nat)
    requires Path(states, actions) && n < |actions| && Dequeuing(states, t, i, n, c) && !states[n].pc[t].Rest? && actions[n].t != t
    ensures Dequeuing(states, t, i, n + 1, c)
  {
    PathStep(states, actions, n);
    hide Path, Do, Inv;
    OthersLeaveThread(states[n], actions[n], t);
  }

  lemma {:induction false} DequeuingAlong<T(!new)>(states: seq<State<T>>, actions: seq<Action<T>>, i: nat, j: nat, t: nat) returns (c: nat)
    requires Path(states, actions) && i < |actions| && actions[i] == Dequeue(t) && i < j < |states|
    requires forall n :: i < n < j ==> t < |states[n].pc| && !states[n].pc[t].Rest?
    ensures Dequeuing(states, t, i, j, c)
    decreases j
  {
    PathLength(states, actions);
    if j == i + 1 {
      DequeueBegins(states, actions, i);
      c := 0;
    } else {
      hide Path, Dequeuing;
      c := DequeuingAlong(states, actions, i, j - 1, t);
      if actions[j - 1].t == t {
        c := DequeuingOwn(states, actions, t, i, j - 1, c);
      } else {
        DequeuingOther(states, actions, t, i, j - 1, c);
      }
    }
  }

  lemma DequeueBegins<T(!new)>(states: seq<State<T>>, actions: seq<Action<T>>, i: nat)
    requires Path(states, actions) && i < |actions| && actions[i].Dequeue?
    ensures Dequeuing(states, actions[i].t, i, i + 1, 0)
  {
    PathStep(states, actions, i);
    hide Path;
  }

  /** dequeue, from its first step to its return: either it has claimed exactly one position and answers
      with the value that was enqueued there, or it answers "empty", has claimed none, and at some look
      of its own the next position was not published. */
  lemma DequeueAnswersExactly<T(!new)>(states: seq<State<T>>, actions: seq<Action<T>>, i: nat, j: nat) returns (c: nat)
    requires Path(states, actions) && i < |actions| && actions[i].Dequeue? && CallSpan(states, actions[i].t, i, j)
    ensures
      var t := actions[i].t;
      && i < c < j && t < |states[j].answer|
      && if states[j].answer[t].Value? then
           TookAt(states, t, i, c, j) && states[c].deq < |states[j].hist| && states[j].answer[t].v == states[j].hist[states[c].deq]
         else states[j].answer[t] == Empty && FoundUnpublished(states, c) && TookOnly(states[j], t, states[i].deq, -1)
  {
    c := DequeuingAlong(states, actions, i, j, actions[i].t);
  }

  lemma {:induction false} PositionsGrow<T(!new)>(states: seq<State<T>>, actions: seq<Action<T>>, k: nat, j: nat)
    requires Path(states, actions) && k <= j < |states|
    ensures states[k].deq <= states[j].deq && states[k].enq <= states[j].enq
    decreases j
  {
    PathLength(states, actions);
    hide Path;
    if k < j {
      PositionsGrow(states, actions, k, j - 1);
      PathStep(states, actions, j - 1);
      StepGrows(states[j - 1], actions[j - 1]);
      hide Inv, Do, Enabled;
    }
  }

  lemma StepGrows<T>(s: State<T>, a: Action<T>)
    requires Enabled(s, a)
    ensures s.deq <= Do(s, a).deq && s.enq <= Do(s, a).enq
  {
  }

  /** No two dequeues answer for the same position: each claims its own, in the order of their CASes. */
  lemma PositionsDiffer<T(!new)>(states: seq<State<T>>, actions: seq<Action<T>>, t: nat, i: nat, c: nat, n: nat, t2: nat, i2: nat, c2: nat, n2: nat)
    requires Path(states, actions) && TookAt(states, t, i, c, n) && TookAt(states, t2, i2, c2, n2) && c < c2
    ensures states[c].deq < states[c2].deq
  {
    PositionsGrow(states, actions, c + 1, c2);
  }
}

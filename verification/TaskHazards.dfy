/**
  Why the task layer needs H4 and H5, and exactly when a counter is conserved across its release
  and next use: if and only if the count is 0 when it is reset.
 */
module TaskHazards {
  import opened Prelude
  import Runs
  import opened SchedulerCore
  import SchedulerProof
  import opened TaskLayer
  import opened TaskLayerInv
  import opened TaskTheorems

  /** Which hypothesis a run need not respect. */
  datatype Without = SecondHalfOfH4 | H5

  /** The step respects all others. */
  ghost predicate Follows(w: Without, s: Layer, a: LayerAction) {
    && CanDo(s, a) && Orderly(s, a) && NoneMisled(s, a) && ReleasesOnce(s, a)
    && (w.H5? ==> OnTargetZero(a)) && (w.SecondHalfOfH4? ==> NoOverlap(s, a))
  }

  ghost predicate Step(w: Without, s: Layer, a: LayerAction, q: Layer) {
    Follows(w, s, a) && q == DoTask(s, a)
  }

  ghost function Steps(w: Without): (Layer, LayerAction, Layer) -> bool {
    (s, a, q) => Step(w, s, a, q)
  }

  /** The code can get from s to q. */
  ghost predicate Reaches(w: Without, s: Layer, q: Layer) {
    Runs.Connected(Steps(w), s, q)
  }

  lemma Here(w: Without, s: Layer)
    ensures Reaches(w, s, s)
  {
    Runs.ConnectedToItself(Steps(w), s);
  }

  lemma OneStep(w: Without, o: Layer, s: Layer, a: LayerAction) returns (q: Layer)
    requires Reaches(w, o, s) && Follows(w, s, a)
    ensures Reaches(w, o, q) && q == DoTask(s, a)
  {
    q := DoTask(s, a);
    Runs.ConnectedByStep(Steps(w), o, s, a, q);
  }

  // ----- the exact condition -----------------------------------------------------------------------

  /** A reset keeps a counter conserved exactly if the count is 0 just before it. */
  lemma ResetConservesExactly(s: Layer, t: nat, c: nat)
    requires CanDo(s, Proceed(t)) && s.call[t] == Fetched(c) && Conserved(s, c) && Sized(DoTask(s, Proceed(t)))
    ensures Conserved(DoTask(s, Proceed(t)), c) <==> s.core.counts[c] == 0
  {
    var q := DoTask(s, Proceed(t));
    assert ReservedOn(q, c) == ReservedOn(s, c) && QueuedOn(q, c) == QueuedOn(s, c) && RunningOn(q, c) == RunningOn(s, c);
  }

  /** Thread t is about to drop the handle of counter c. */
  ghost predicate AboutToDrop(s: Layer, t: nat, c: nat) {
    && Sized(s) && t < |s.call| && c < |s.stage| && s.call[t] == Dropping(c) && s.core.pc[t].User? && s.reserved[t] == []
    && CounterQuiet(s.core, c)
  }

  /** Thread t drops the handle and gives the index back, and thread u fetches it. */
  lemma RecycleSteps(w: Without, o: Layer, s: Layer, t: nat, u: nat, c: nat) returns (q: Layer)
    requires Reaches(w, o, s) && AboutToDrop(s, t, c) && (u == t || InTask(s, u))
    ensures Reaches(w, o, q) && q == s.(call := s.call[t := NoCall][u := Fetched(c)], stage := s.stage[c := HeldBy(u)])
  {
    hide Reaches;
    q := OneStep(w, o, s, Proceed(t));
    q := OneStep(w, o, q, Proceed(t));
    assert q == s.(call := s.call[t := NoCall], stage := s.stage[c := Unused]);
    q := OneStep(w, o, q, Acquire(u, c));
  }

  /** From every state in which a conserved counter is about to be dropped, its next acquisition,
      by whichever thread, finds it conserved exactly if the count is 0 at the drop. */
  lemma RecyclingConservesExactly(w: Without, o: Layer, s: Layer, t: nat, u: nat, c: nat) returns (q: Layer)
    requires Reaches(w, o, s) && AboutToDrop(s, t, c) && Conserved(s, c) && (u == t || InTask(s, u))
    ensures Reaches(w, o, q) && Sized(q) && |q.core.counts| == |s.core.counts|
    ensures Conserved(q, c) <==> s.core.counts[c] == 0
  {
    hide Reaches, Conserved;
    var m := RecycleSteps(w, o, s, t, u, c);
    SameTasksConserved(s, m, c);
    q := OneStep(w, o, m, Proceed(u));
    SchedulerProof.ResetSlots(m.core, c);
    ResetConservesExactly(m, u, c);
  }

  lemma SameTasksConserved(s: Layer, m: Layer, c: nat)
    requires Sized(s) && Sized(m) && c < |s.core.counts| && m.core == s.core
    requires m.reserved == s.reserved && m.tasks == s.tasks && m.running == s.running
    ensures Conserved(m, c) <==> Conserved(s, c)
  {
    assert ReservedOn(m, c) == ReservedOn(s, c) && QueuedOn(m, c) == QueuedOn(s, c) && RunningOn(m, c) == RunningOn(s, c);
  }

  // ----- a submission during a release ---------------------------------------------------------------

  lemma SoundStep(w: Without, o: Layer, s: Layer, a: LayerAction) returns (q: Layer)
    requires Reaches(w, o, s) && Follows(w, s, a) && TasksInv(s) && Sound(s, a)
    ensures Reaches(w, o, q) && q == DoTask(s, a) && TasksInv(q) && Sized(q)
  {
    q := OneStep(w, o, s, a);
    hide Reaches, DoTask, Follows, Sound, PlacesOk, CallsOk;
    TasksStepInv(s, a);
  }

  /** Thread u submits n tasks on counter c. */
  lemma SubmitSteps(w: Without, o: Layer, s: Layer, u: nat, c: nat, n: nat) returns (q: Layer)
    requires Reaches(w, o, s) && TasksInv(s) && CanDo(s, Submit(u, c, n)) && (w.SecondHalfOfH4? ==> NoRelease(s, c))
    requires forall t: nat :: t < |s.core.pc| ==> !ActsOnZero(s.core.pc[t], c)
    ensures Reaches(w, o, q) && TasksInv(q) && Sized(q) && q.core == Update(s.core, u, c, n, false)
    ensures q.call == s.call && q.stage == s.stage && q.tasks == s.tasks && q.running == s.running
    ensures q.reserved == s.reserved[u := Fresh(s.next, n, c)]
  {
    hide Reaches, TasksInv, Fresh, Ids;
    q := SoundStep(w, o, s, Submit(u, c, n));
    q := SoundStep(w, o, q, Add(u));
    assert q.call == s.call;
  }

  /** Without H5 a counter loses tasks: from every state in which thread t has found the count on
      target and is about to drop the handle, a submission by another thread, whose handle is
      still alive, leaves n tasks outstanding that the next reset forgets. */
  lemma SubmissionDuringReleaseBreaks(s: Layer, t: nat, u: nat, c: nat, n: nat) returns (q: Layer)
    requires TasksInv(s) && AboutToDrop(s, t, c) && InTask(s, u) && n > 0
    requires forall v: nat :: v < |s.core.pc| ==> !ActsOnZero(s.core.pc[v], c)
    ensures CanDo(s, Submit(u, c, n)) && !NoOverlap(s, Submit(u, c, n))
    ensures Reaches(H5, s, q) && Sized(q) && |q.core.counts| == |s.core.counts| && !Conserved(q, c)
  {
    Here(H5, s);
    assert CallOk(s, t) && CounterOk(s, c);
    hide Reaches, Conserved, CallsOk, PlacesOk;
    assert ReleaseOf(s.call[t], c);
    var m := SubmitSteps(H5, s, s, u, c, n);
    InvConserves(m, c);
    q := RecyclingConservesExactly(H5, s, m, t, t, c);
  }

  // ----- runs into these situations ---------------------------------------------------------------------

  /** Thread t is in task code, and nobody waits, scans or is in a call. */
  ghost predicate Calm(s: Layer, t: nat) {
    && TasksInv(s) && Sized(s) && InTask(s, t)
    && (forall id :: id in s.core.slots ==> s.core.slots[id].free)
    && (forall v: nat :: v < |s.core.pc| ==> !s.core.pc[v].Scan? && !s.core.pc[v].Waiting?)
    && (forall v: nat :: v < |s.call| ==> s.call[v].NoCall? && s.reserved[v] == [])
  }

  lemma CalmQuiet(s: Layer, t: nat, c: nat)
    requires Calm(s, t)
    ensures CounterQuiet(s.core, c) && NoRelease(s, c) && NoSubmission(s, c)
    ensures forall v: nat :: v < |s.core.pc| ==> !ActsOnZero(s.core.pc[v], c)
  {
  }

  /** The reset of an unused counter changes nothing. */
  lemma IdleReset(s: State, c: nat)
    requires Shape(s) && c < |s.counts| && CounterQuiet(s, c) && s.counts[c] == 0
    ensures Reset(s, c) == s
  {
    SchedulerProof.ResetSlots(s, c);
    assert s.counts[c := 0] == s.counts;
  }

  /** Thread t acquires counter c. */
  lemma AcquireSteps(w: Without, o: Layer, s: Layer, t: nat, c: nat) returns (q: Layer)
    requires Reaches(w, o, s) && Calm(s, t) && c < |s.stage| && s.stage[c].Unused? && s.core.counts[c] == 0
    ensures Reaches(w, o, q) && Calm(q, t) && q.core == s.core && q.stage == s.stage[c := Live] && q.tasks == s.tasks
  {
    CalmQuiet(s, t, c);
    IdleReset(s.core, c);
    hide Reaches, TasksInv, Shape, Reset;
    q := SoundStep(w, o, s, Acquire(t, c));
    q := BindSteps(w, o, q, t, c);
    assert q.call == s.call && q.stage == s.stage[c := Live];
  }

  lemma BindSteps(w: Without, o: Layer, s: Layer, t: nat, c: nat) returns (q: Layer)
    requires Reaches(w, o, s) && TasksInv(s) && Sized(s) && t < |s.call| && c < |s.stage| && s.call[t] == Fetched(c)
    requires CounterQuiet(s.core, c) && Reset(s.core, c) == s.core
    ensures Reaches(w, o, q) && TasksInv(q) && Sized(q) && q.core == s.core && q.tasks == s.tasks && q.reserved == s.reserved
    ensures q.call == s.call[t := NoCall] && q.stage == s.stage[c := Live]
  {
    hide Reaches, TasksInv, Shape, Reset;
    q := SoundStep(w, o, s, Proceed(t));
    assert q.stage == s.stage && q.core == s.core;
    q := SoundStep(w, o, q, Proceed(t));
    assert q.call == s.call[t := NoCall];
  }

  /** A scan passes the slots of a counter nobody waits on. */
  lemma {:induction false} PassSlots(w: Without, o: Layer, s: Layer, t: nat) returns (q: Layer)
    requires Reaches(w, o, s) && TasksInv(s) && Sized(s) && t < |s.core.pc|
    requires s.core.pc[t].Scan? && s.core.pc[t].phase.AtFree? && !s.core.pc[t].finishing
    requires CounterQuiet(s.core, s.core.pc[t].counter)
    ensures Reaches(w, o, q) && TasksInv(q) && Sized(q) && q == s.(core := s.core.(pc := s.core.pc[t := User]))
    decreases s.core.width - s.core.pc[t].i
  {
    var pc := s.core.pc[t];
    assert s.core.slots[SlotId(pc.counter, pc.i)].free;
    hide TasksInv, Reaches;
    q := SoundStep(w, o, s, Core(Advance(t)));
    assert q == s.(core := s.core.(pc := s.core.pc[t := NextSlot(s.core.width, pc)]));
    if pc.i + 1 < s.core.width { q := PassSlots(w, o, q, t); }
  }

  /** Thread t submits one task on counter c and enqueues it. */
  lemma SubmitOne(w: Without, o: Layer, s: Layer, t: nat, c: nat) returns (q: Layer)
    requires Reaches(w, o, s) && Calm(s, t) && c < |s.stage| && s.stage[c].Live? && s.core.busy[s.core.cur[t]]
    ensures Reaches(w, o, q) && Calm(q, t) && q.stage == s.stage && |q.tasks| == |s.tasks| + 1
    ensures q.core.counts == s.core.counts[c := s.core.counts[c] + 1] && q.core.pc == s.core.pc && q.core.cur == s.core.cur
    ensures q.core.busy == s.core.busy
  {
    hide Reaches, TasksInv;
    CalmQuiet(s, t, c);
    var m := SubmitSteps(w, o, s, t, c, 1);
    assert s.core.busy[s.core.cur[t] := true] == s.core.busy;
    var p := PassSlots(w, o, m, t);
    assert p.core.pc == s.core.pc;
    q := SoundStep(w, o, p, Enqueue(t));
    assert q.reserved[t] == [];
  }

  /** Thread 0 has submitted a task on counter 0 and thread 1 is at its task loop. */
  lemma OneTask(w: Without, o: Layer) returns (s: Layer)
    requires LayerInit(o) && |o.core.pc| >= 2 && |o.stage| >= 1
    ensures Reaches(w, o, s) && Calm(s, 0) && |s.core.pc| == |o.core.pc| && s.core.pc[1].Loop? && |s.tasks| == 1
    ensures s.stage == o.stage[0 := Live] && s.core.counts == o.core.counts[0 := 1] && o.core.counts[0] == 0
  {
    Here(w, o);
    LayerInitInv(o);
    assert Calm(o, 0);
    hide Reaches, TasksInv, Calm;
    s := EnterLoop(w, o);
    s := AcquireSteps(w, o, s, 0, 0);
    s := SubmitOne(w, o, s, 0, 0);
  }

  lemma EnterLoop(w: Without, o: Layer) returns (s: Layer)
    requires LayerInit(o) && |o.core.pc| >= 2 && TasksInv(o) && Reaches(w, o, o)
    ensures Reaches(w, o, s) && Calm(s, 0) && s == o.(core := s.core) && s.core.pc == o.core.pc[1 := Loop]
    ensures s.core.busy == o.core.busy && s.core.cur == o.core.cur && s.core.counts == o.core.counts
  {
    hide Reaches, TasksInv;
    s := SoundStep(w, o, o, Core(Advance(1)));
  }

  lemma CalmInTask(s: Layer, t: nat, v: nat)
    requires Calm(s, t) && v < |s.core.pc| && s.core.pc[v].User?
    ensures Sized(s) && InTask(s, v)
  {
  }

  lemma StartOther(w: Without, o: Layer, s: Layer) returns (q: Layer)
    requires Reaches(w, o, s) && Calm(s, 0) && |s.core.pc| >= 2 && s.core.pc[1].Loop? && |s.tasks| == 1
    ensures Reaches(w, o, q) && Calm(q, 0) && q.core.pc == s.core.pc[1 := User]
    ensures q.stage == s.stage && q.core.counts == s.core.counts
  {
    hide Reaches, TasksInv;
    q := SoundStep(w, o, s, Start(1));
  }

  /** Thread t begins to release counter c and finds it on target. */
  lemma LookSteps(w: Without, o: Layer, s: Layer, t: nat, c: nat, target: Option<int>) returns (q: Layer)
    requires Reaches(w, o, s) && Calm(s, t) && c < |s.stage| && s.stage[c].Live?
    requires (target.Some? ==> s.core.counts[c] == target.value) && (w.H5? ==> target == Some(0))
    ensures Reaches(w, o, q) && TasksInv(q) && Sized(q) && q == s.(call := s.call[t := Dropping(c)]) && AboutToDrop(q, t, c)
    ensures forall v: nat :: v < |q.core.pc| ==> !ActsOnZero(q.core.pc[v], c)
  {
    CalmQuiet(s, t, c);
    hide Reaches, TasksInv, Calm;
    q := SoundStep(w, o, s, LayerAction.Release(t, c, target));
    q := SoundStep(w, o, q, Proceed(t));
    assert q.call == s.call[t := Dropping(c)] && q.stage == s.stage;
  }

  /** With two threads and two counters, a run that respects all hypotheses leads to a state in which
      thread 0 has found counter 1 on target and is about to drop it, while thread 1 runs a task. */
  lemma DropIsReachable(w: Without, o: Layer) returns (s: Layer)
    requires LayerInit(o) && |o.core.pc| >= 2 && |o.stage| >= 2
    ensures Reaches(w, o, s) && TasksInv(s) && AboutToDrop(s, 0, 1) && InTask(s, 1) && s.core.counts[1] == 0
    ensures forall v: nat :: v < |s.core.pc| ==> !ActsOnZero(s.core.pc[v], 1)
  {
    assert o.stage[1].Unused? && o.core.counts[1] == 0;
    s := OneTask(w, o);
    hide Reaches, TasksInv, LayerInit;
    s := StartOther(w, o, s);
    hide Calm, Shape;
    s := AcquireSteps(w, o, s, 0, 1);
    assert InTask(s, 1) by { CalmInTask(s, 0, 1); }
    s := LookSteps(w, o, s, 0, 1, Some(0));
  }

  /** So with the other hypotheses respected throughout, but not H5, a counter's value can fall short
      of its tasks. */
  lemma WithoutH5ConservationBreaks(o: Layer, n: nat) returns (s: Layer, q: Layer)
    requires LayerInit(o) && |o.core.pc| >= 2 && |o.stage| >= 2 && n > 0
    ensures Reaches(H5, o, s) && Reaches(H5, s, q) && Sized(q) && |q.core.counts| >= 2 && !Conserved(q, 1)
  {
    hide Reaches, TasksInv, LayerInit, Conserved;
    s := DropIsReachable(H5, o);
    q := SubmissionDuringReleaseBreaks(s, 0, 1, 1, n);
  }

  /** The same without the second half of H4: thread 0 releases a counter whose count is 1. */
  lemma WithoutH4ConservationBreaks(o: Layer) returns (q: Layer)
    requires LayerInit(o) && |o.core.pc| >= 2 && |o.stage| >= 1
    ensures Reaches(SecondHalfOfH4, o, q) && Sized(q) && |q.core.counts| >= 1 && !Conserved(q, 0)
  {
    var w := SecondHalfOfH4;
    q := OneTask(w, o);
    hide Reaches, TasksInv, LayerInit, Conserved;
    q := LookSteps(w, o, q, 0, 0, None);
    InvConserves(q, 0);
    q := RecyclingConservesExactly(w, o, q, 0, 0, 0);
  }
}

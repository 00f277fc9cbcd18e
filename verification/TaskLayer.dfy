/**
  Tasks on top of the wait/wake protocol: submission, execution, the counter conservation law
  and what a finished wait says about tasks.

  A layer state holds a protocol state, the task queue and the tasks' history.  Every layer
  action projects to one protocol action or to none.
 */
module TaskLayer {
  import opened Prelude
  import opened SchedulerCore

  /** A task is an opaque id with the counter index stored in its metadata. */
  datatype Task = Task(id: nat, counter: nat)

  /** History: where a task is. */
  datatype Where = Reserved(t: nat) | InQueue | RunBy(fiber: nat) | Done

  /** Where a counter index is: in the free queue, in the hands of a thread that acquires or
      releases it, or bound to a live handle. */
  datatype Stage = Unused | HeldBy(t: nat) | Live

  /** A call of the counter interface in progress on a thread. */
  datatype Call =
    | NoCall
    | Submitting(c: nat, n: nat)                  // submitTasks: handle read, about to add n
    | Fetched(c: nat)                             // acquire: index dequeued, about to reset the counter
    | Renewed(c: nat)                             // about to obtain a handle for it
    | Releasing(c: nat, target: Option<int>)      // release: handle read, about to load the count
    | Dropping(c: nat)                            // on target, about to release the handle
    | Giving(c: nat)                              // about to enqueue the index

  datatype Layer = Layer(
    core: State,
    tasks: seq<Task>,              // mTasks
    reserved: seq<seq<Task>>,      // per thread: counted in by submitTasks, still to be enqueued
    running: map<nat, Task>,       // per fiber: the task it executes
    stage: seq<Stage>,             // per counter
    call: seq<Call>,               // per thread
    next: nat,                     // history: ids below it are used up
    places: map<nat, Where>,
    pending: seq<set<nat>>,        // history, per counter: submitted since reset, decrement not applied
    all: seq<set<nat>>,            // history, per counter: submitted since reset
    finished: set<nat>)            // history: decrement applied

  datatype LayerAction =
    | Core(a: Action)                                  // a protocol step that touches no task
    | Submit(t: nat, counter: nat, n: nat)             // submitTasks: read the handle
    | Add(t: nat)                                      // submitTasks: the fetch_add
    | Enqueue(t: nat)                                  // submitTasks: enqueue the next task
    | Start(t: nat)                                    // getNextTask dequeued a task
    | Finish(t: nat)                                   // the task returned: counterIncrement(-1)
    | Acquire(t: nat, counter: nat)                    // acquireCounterHandle: dequeue an index
    | Release(t: nat, counter: nat, target: Option<int>)   // read the handle; no target: releaseCounter
    | Proceed(t: nat)                                  // the next step of an acquisition or a release

  function Fresh(next: nat, n: nat, c: nat): (r: seq<Task>)
    ensures |r| == n
    ensures forall k :: 0 <= k < n ==> r[k] == Task(next + k, c)
  {
    seq(n, k requires k >= 0 => Task(next + k, c))
  }

  predicate IsFresh(next: nat, n: nat, x: nat) {
    next <= x < next + n
  }

  ghost function Ids(next: nat, n: nat): set<nat> {
    set x: nat | x < next + n && IsFresh(next, n, x)
  }

  lemma {:induction false} IdsSize(next: nat, n: nat)
    ensures |Ids(next, n)| == n
  {
    if n > 0 {
      IdsSize(next, n - 1);
      assert Ids(next, n) == Ids(next, n - 1) + {next + n - 1};
    }
  }

  ghost predicate Sized(s: Layer) {
    && Shape(s.core)
    && |s.reserved| == |s.call| == |s.core.pc|
    && |s.stage| == |s.pending| == |s.all| == |s.core.counts|
  }

  /** Thread t runs task code and is not inside a call. */
  ghost predicate InTask(s: Layer, t: nat)
    requires Sized(s)
  {
    t < |s.core.pc| && s.core.pc[t].User? && s.reserved[t] == [] && s.call[t].NoCall?
  }

  ghost predicate CanDo(s: Layer, a: LayerAction) {
    && Sized(s)
    && match a
       case Core(b) =>
         && Enabled(s.core, b)
         && (b.Advance? || b.GetPinned? || b.GetReady? || (b.Wait? && InTask(s, b.t) && s.stage[b.counter].Live?))
       case Submit(t, c, n) => InTask(s, t) && c < |s.stage| && s.stage[c].Live? && n > 0
       case Add(t) =>
         && t < |s.call| && s.call[t].Submitting? && s.call[t].c < |s.stage| && s.call[t].n > 0
         && s.core.pc[t].User? && s.reserved[t] == []
       case Enqueue(t) => t < |s.core.pc| && s.core.pc[t].User? && s.reserved[t] != []
       case Start(t) => Enabled(s.core, GetTask(t)) && s.tasks != []
       case Finish(t) => InTask(s, t) && s.core.cur[t] in s.running && s.running[s.core.cur[t]].counter < |s.stage|
       case Acquire(t, c) => InTask(s, t) && c < |s.stage| && s.stage[c].Unused?
       case Release(t, c, _) => InTask(s, t) && c < |s.stage| && s.stage[c].Live?
       case Proceed(t) => t < |s.call| && !s.call[t].NoCall? && !s.call[t].Submitting? && s.call[t].c < |s.stage|
  }

  /** The protocol action that a layer action performs. */
  ghost function Projection(s: Layer, a: LayerAction): Option<Action>
    requires CanDo(s, a)
  {
    match a
    case Core(b) => Some(b)
    case Add(t) => Some(Increment(t, s.call[t].c, s.call[t].n, false))
    case Start(t) => Some(GetTask(t))
    case Finish(t) => Some(Increment(t, s.running[s.core.cur[t]].counter, -1, true))
    case Proceed(t) => if s.call[t].Fetched? then Some(Renew(s.call[t].c)) else None
    case _ => None
  }

  ghost function CoreAfter(s: Layer, a: LayerAction): State
    requires CanDo(s, a)
  {
    match Projection(s, a)
    case Some(b) => Do(s.core, b)
    case None => s.core
  }

  /** The control point after the next step of an acquisition or a release. */
  function AfterCall(call: Call, count: int): Call {
    match call
    case Fetched(c) => Renewed(c)
    case Releasing(c, target) => if target.Some? && target.value != count then NoCall else Dropping(c)
    case Dropping(c) => Giving(c)
    case _ => NoCall
  }

  /** The stage of the counter after that step by thread t. */
  function AfterStage(call: Call, stage: Stage, t: nat): Stage {
    match call
    case Renewed(_) => Live
    case Dropping(_) => HeldBy(t)
    case Giving(_) => Unused
    case _ => stage
  }

  ghost function DoTask(s: Layer, a: LayerAction): Layer
    requires CanDo(s, a)
  {
    var core := CoreAfter(s, a);
    match a
    case Core(_) => s.(core := core)
    case Submit(t, c, n) => s.(call := s.call[t := Submitting(c, n)])
    case Add(t) =>
      var c, n := s.call[t].c, s.call[t].n;
      s.(core := core,
         call := s.call[t := NoCall],
         reserved := s.reserved[t := Fresh(s.next, n, c)],
         next := s.next + n,
         places := map id | id in s.places.Keys + Ids(s.next, n) :: if id in Ids(s.next, n) then Reserved(t) else s.places[id],
         pending := s.pending[c := s.pending[c] + Ids(s.next, n)],
         all := s.all[c := s.all[c] + Ids(s.next, n)])
    case Enqueue(t) =>
      s.(tasks := s.tasks + [s.reserved[t][0]],
         reserved := s.reserved[t := s.reserved[t][1..]],
         places := s.places[s.reserved[t][0].id := InQueue])
    case Start(t) =>
      s.(core := core,
         tasks := s.tasks[1..],
         running := s.running[s.core.cur[t] := s.tasks[0]],
         places := s.places[s.tasks[0].id := RunBy(s.core.cur[t])])
    case Finish(t) =>
      var task := s.running[s.core.cur[t]];
      s.(core := core,
         running := s.running - {s.core.cur[t]},
         places := s.places[task.id := Done],
         pending := s.pending[task.counter := s.pending[task.counter] - {task.id}],
         finished := s.finished + {task.id})
    case Acquire(t, c) => s.(call := s.call[t := Fetched(c)], stage := s.stage[c := HeldBy(t)])
    case Release(t, c, target) => s.(call := s.call[t := Releasing(c, target)])
    case Proceed(t) =>
      var c := s.call[t].c;
      s.(core := core,
         call := s.call[t := AfterCall(s.call[t], s.core.counts[c])],
         stage := s.stage[c := AfterStage(s.call[t], s.stage[c], t)],
         pending := if s.call[t].Fetched? then s.pending[c := {}] else s.pending,
         all := if s.call[t].Fetched? then s.all[c := {}] else s.all)
  }

  // ----- hypotheses ----------------------------------------------------------------------------

  /** The protocol step respects H1 and H2. */
  ghost predicate Orderly(s: Layer, a: LayerAction)
    requires CanDo(s, a)
  {
    Projection(s, a).Some? ==> Enabled(s.core, Projection(s, a).value) && Disciplined(s.core, Projection(s, a).value)
  }

  /** A waiter has seen the counter at 0 and may return because of it. */
  predicate SawZero(pc: Pc, c: nat) {
    pc.Waiting? && pc.counter == c && (pc.wait.Check? || pc.wait.Compare? || pc.wait.Cas?) && pc.wait.seen == 0
  }

  /** A thread acts on the counter being 0: a waiter that saw it, or a scan for waits for 0. */
  predicate ActsOnZero(pc: Pc, c: nat) {
    SawZero(pc, c) || (pc.Scan? && pc.counter == c && pc.value == 0)
  }

  /** H3: nothing is added to a counter while a thread acts on its being 0. */
  ghost predicate NoneMisled(s: Layer, a: LayerAction)
    requires CanDo(s, a)
  {
    a.Add? ==> forall t: nat :: t < |s.core.pc| ==> !ActsOnZero(s.core.pc[t], s.call[a.t].c)
  }

  /** A submission has read the handle and has not added to the count yet. */
  predicate SubmitsOn(call: Call, c: nat) {
    call.Submitting? && call.c == c
  }

  /** A release has read the handle and has not released it yet. */
  predicate ReleaseOf(call: Call, c: nat) {
    (call.Releasing? || call.Dropping?) && call.c == c
  }

  ghost predicate NoSubmission(s: Layer, c: nat) {
    forall t: nat :: t < |s.call| ==> !SubmitsOn(s.call[t], c)
  }

  ghost predicate NoRelease(s: Layer, c: nat) {
    forall t: nat :: t < |s.call| ==> !ReleaseOf(s.call[t], c)
  }

  /** H4, first half: a handle is released at most once. */
  ghost predicate ReleasesOnce(s: Layer, a: LayerAction)
    requires CanDo(s, a)
  {
    a.Release? ==> NoRelease(s, a.counter)
  }

  /** H4, second half: a counter used for tasks is released through releaseCounterIfOnTarget(c, 0). */
  predicate OnTargetZero(a: LayerAction) {
    a.Release? ==> a.target == Some(0)
  }

  /** H5: no submission on a handle overlaps its release. */
  ghost predicate NoOverlap(s: Layer, a: LayerAction)
    requires CanDo(s, a)
  {
    && (a.Submit? ==> NoRelease(s, a.counter))
    && (a.Release? ==> NoSubmission(s, a.counter))
  }

  /** What H4 and H5 are for: when a handle is dropped, the count is 0 and no submission has the
      handle in its hands. */
  ghost predicate Settled(s: Layer, a: LayerAction)
    requires CanDo(s, a)
  {
    a.Proceed? && s.call[a.t].Dropping? ==> s.core.counts[s.call[a.t].c] == 0 && NoSubmission(s, s.call[a.t].c)
  }

  /** The hypotheses on the use of handles. */
  ghost predicate Sound(s: Layer, a: LayerAction)
    requires CanDo(s, a)
  {
    ReleasesOnce(s, a) && Settled(s, a)
  }

  /** All hypotheses. */
  ghost predicate Allowed(s: Layer, a: LayerAction)
    requires CanDo(s, a)
  {
    Sound(s, a) && Orderly(s, a) && NoneMisled(s, a)
  }
}

/** The invariant of the task layer and its preservation. */
module TaskLayerInv {
  import opened SchedulerCore
  import opened SchedulerInv
  import SchedulerProof
  import opened FiberHandOff
  import opened TaskLayer

  // ----- where tasks are ---------------------------------------------------------------------

  ghost predicate DistinctIds(q: seq<Task>) {
    forall i, j :: 0 <= i < j < |q| ==> q[i].id != q[j].id
  }

  /** The task is recorded at w and counted as pending on its counter. */
  ghost predicate Located(s: Layer, task: Task, w: Where) {
    && task.id in s.places && s.places[task.id] == w
    && task.counter < |s.pending| && task.id in s.pending[task.counter]
  }

  ghost predicate ReservedOk(s: Layer, t: nat)
    requires t < |s.reserved|
  {
    && DistinctIds(s.reserved[t])
    && forall k :: 0 <= k < |s.reserved[t]| ==> Located(s, s.reserved[t][k], Reserved(t))
  }

  ghost predicate QueueOk(s: Layer) {
    DistinctIds(s.tasks) && forall k :: 0 <= k < |s.tasks| ==> Located(s, s.tasks[k], InQueue)
  }

  ghost predicate RunningOk(s: Layer, f: nat)
    requires Sized(s)
  {
    f in s.running ==> f < |s.core.busy| && s.core.busy[f] && Located(s, s.running[f], RunBy(f))
  }

  /** A pending id is found where its place says. */
  ghost predicate PendingOk(s: Layer, c: nat, id: nat)
    requires c < |s.pending|
  {
    id in s.pending[c] ==>
      && id in s.places
      && match s.places[id]
         case Reserved(t) => t < |s.reserved| && Task(id, c) in s.reserved[t]
         case InQueue => Task(id, c) in s.tasks
         case RunBy(f) => f in s.running && s.running[f] == Task(id, c)
         case Done => false
  }

  ghost predicate CounterOk(s: Layer, c: nat)
    requires Sized(s) && c < |s.pending|
  {
    && s.core.counts[c] == |s.pending[c]|
    && s.pending[c] <= s.all[c] <= s.pending[c] + s.finished
    && (!s.stage[c].Live? ==> s.pending[c] == {})
  }

  ghost predicate PlacesOk(s: Layer)
    requires Sized(s)
  {
    && (forall id :: id in s.places ==> id < s.next)
    && (forall t: nat :: t < |s.reserved| ==> ReservedOk(s, t))
    && QueueOk(s)
    && (forall f: nat :: RunningOk(s, f))
    && (forall c: nat, id: nat :: c < |s.pending| ==> PendingOk(s, c, id))
  }

  // ----- zero is final -----------------------------------------------------------------------

  // ----- calls in progress ---------------------------------------------------------------------

  /** A call in progress runs in task code, and its counter is where the call needs it. */
  ghost predicate CallOk(s: Layer, t: nat)
    requires Sized(s) && t < |s.call|
  {
    var call := s.call[t];
    && (!call.NoCall? ==> s.core.pc[t].User? && s.reserved[t] == [] && call.c < |s.stage|)
    && match call
       case NoCall => true
       case Submitting(c, n) => n > 0 && s.stage[c].Live?
       case Releasing(c, _) => s.stage[c].Live?
       case Dropping(c) => s.stage[c].Live?
       case _ => s.stage[call.c] == HeldBy(t)
  }

  /** Two threads do not release the same counter. */
  predicate Apart(x: Call, y: Call) {
    x.Releasing? || x.Dropping? ==> !ReleaseOf(y, x.c)
  }

  ghost predicate CallsOk(s: Layer)
    requires Sized(s)
  {
    && (forall t: nat :: t < |s.call| ==> CallOk(s, t))
    && (forall t: nat, u: nat :: t < |s.call| && u < |s.call| && t != u ==> Apart(s.call[t], s.call[u]))
  }

  /** What every run with H4 and H5 keeps: tasks are where they are recorded to be, and counters
      count them. */
  ghost predicate TasksInv(s: Layer) {
    && HandOff(s.core) && Sized(s) && PlacesOk(s) && CallsOk(s)
    && (forall c: nat :: c < |s.pending| ==> CounterOk(s, c))
  }

  /** A thread that acts on a counter being 0 is right: the counter still is at 0. */
  ghost predicate ZeroOk(s: Layer, pc: Pc)
    requires Sized(s) && PcShape(pc, s.core.width, |s.core.counts|, |s.core.place|)
  {
    (pc.Scan? || pc.Waiting?) && ActsOnZero(pc, pc.counter) ==> s.core.counts[pc.counter] == 0
  }

  /** What H1, H2 and H3 keep as well. */
  ghost predicate LayerInv(s: Layer) {
    TasksInv(s) && Inv(s.core) && forall t: nat :: t < |s.core.pc| ==> ZeroOk(s, s.core.pc[t])
  }

  ghost predicate LayerInit(s: Layer) {
    && Sized(s) && Init(s.core) && s.tasks == [] && s.running == map[] && s.places == map[] && s.finished == {}
    && (forall t :: 0 <= t < |s.reserved| ==> s.reserved[t] == [])
    && (forall t :: 0 <= t < |s.call| ==> s.call[t] == NoCall)
    && (forall c :: 0 <= c < |s.stage| ==> s.stage[c] == Unused && s.pending[c] == {} && s.all[c] == {})
  }

  lemma LayerInitInv(s: Layer)
    requires LayerInit(s)
    ensures LayerInv(s)
  {
    InitInv(s.core);
    InvHandOff(s.core);
  }

  // ----- protocol steps ------------------------------------------------------------------------

  /** The step of thread t leaves the counts, the fibers' tasks and the other threads alone. */
  ghost predicate Untouched(s: State, s': State, t: nat) {
    && s'.counts == s.counts && s'.busy == s.busy && |s'.pc| == |s.pc| && s'.width == s.width && |s'.place| == |s.place|
    && t < |s.pc| && s'.pc == s.pc[t := s'.pc[t]]
  }

  lemma ScanKeeps(s: State, t: nat)
    requires CanAdvance(s, t) && s.pc[t].Scan?
    ensures Untouched(s, ScanStep(s, t), t)
  {
  }

  lemma WaitKeeps(s: State, t: nat)
    requires CanAdvance(s, t) && s.pc[t].Waiting?
    ensures Untouched(s, WaitStep(s, t), t)
  {
  }

  lemma CoreKeeps(s: State, a: Action)
    requires Enabled(s, a) && (a.Advance? || a.GetPinned? || a.GetReady? || a.Wait?)
    ensures Untouched(s, Do(s, a), a.t)
  {
    if a.Advance? && s.pc[a.t].Scan? {
      ScanKeeps(s, a.t);
    } else if a.Advance? && s.pc[a.t].Waiting? {
      WaitKeeps(s, a.t);
    } else {
      hide ScanStep, WaitStep;
    }
  }

  /** A scan keeps its counter and its value for as long as it lasts. */
  lemma ScanZero(s: State, t: nat, s': State)
    requires CanAdvance(s, t) && s.pc[t].Scan? && s' == ScanStep(s, t) && t < |s'.pc|
    ensures s'.pc[t].Scan? ==> s'.pc[t].counter == s.pc[t].counter && s'.pc[t].value == s.pc[t].value
    ensures !s'.pc[t].Waiting?
  {
  }

  /** A waiter's remembered count is the one it loaded. */
  lemma WaitZero(s: State, t: nat, s': State)
    requires CanAdvance(s, t) && s.pc[t].Waiting? && s' == WaitStep(s, t) && t < |s'.pc|
    ensures !s'.pc[t].Scan?
    ensures s'.pc[t].Waiting? && (s'.pc[t].wait.Check? || s'.pc[t].wait.Compare? || s'.pc[t].wait.Cas?) ==>
      && s'.pc[t].counter == s.pc[t].counter
      && if s.pc[t].wait.Load? then s'.pc[t].wait.seen == s.counts[s.pc[t].counter]
         else (s.pc[t].wait.Check? || s.pc[t].wait.Compare? || s.pc[t].wait.Cas?) && s'.pc[t].wait.seen == s.pc[t].wait.seen
  {
  }

  /** A step makes no thread believe in a 0 that is not there. */
  lemma CoreZero(s: Layer, a: Action, s': State)
    requires Sized(s) && Enabled(s.core, a) && (a.Advance? || a.GetPinned? || a.GetReady? || a.Wait?)
    requires s' == Do(s.core, a) && Shape(s') && Untouched(s.core, s', a.t) && ZeroOk(s, s.core.pc[a.t])
    ensures ZeroOk(s, s'.pc[a.t])
  {
    if a.Advance? && s.core.pc[a.t].Scan? {
      ScanZero(s.core, a.t, s');
    } else if a.Advance? && s.core.pc[a.t].Waiting? {
      WaitZero(s.core, a.t, s');
    } else {
      hide ScanStep, WaitStep;
    }
  }

  /** Only thread t moved, and it is in no call. */
  lemma KeepCalls(s: Layer, t: nat, s': Layer)
    requires Sized(s) && Sized(s') && CallsOk(s) && t < |s.call| && s.call[t].NoCall?
    requires s'.call == s.call && s'.stage == s.stage
    requires s'.core.pc == s.core.pc[t := s'.core.pc[t]] && s'.reserved == s.reserved[t := s'.reserved[t]]
    ensures CallsOk(s')
  {
    forall u: nat | u < |s'.call| ensures CallOk(s', u) { assert CallOk(s, u); }
  }

  lemma CoreInv(s: Layer, a: Action)
    requires TasksInv(s) && CanDo(s, Core(a))
    ensures TasksInv(DoTask(s, Core(a)))
  {
    var s' := DoTask(s, Core(a));
    StepHandOff(s.core, a);
    CoreKeeps(s.core, a);
    KeepPlaces(s, s');
    assert CallOk(s, a.t);
    KeepCalls(s, a.t, s');
    forall c: nat | c < |s'.pending| ensures CounterOk(s', c) { assert CounterOk(s, c); }
  }

  /** Nothing about tasks changed. */
  lemma KeepPlaces(s: Layer, s': Layer)
    requires Sized(s) && Sized(s') && PlacesOk(s) && s'.core.busy == s.core.busy && s'.pending == s.pending
    requires s'.tasks == s.tasks && s'.reserved == s.reserved && s'.running == s.running && s'.next == s.next && s'.places == s.places
    ensures PlacesOk(s')
  {
    forall t: nat | t < |s'.reserved| ensures ReservedOk(s', t) { assert ReservedOk(s, t); }
    forall f: nat ensures RunningOk(s', f) { assert RunningOk(s, f); }
    forall c: nat, id: nat | c < |s'.pending| ensures PendingOk(s', c, id) { assert PendingOk(s, c, id); }
  }

  // ----- submitting ------------------------------------------------------------------------------

  /** The effect of the fetch_add of a submission, field by field. */
  ghost predicate Submitted(s: Layer, t: nat, c: nat, n: nat, s': Layer) {
    && Sized(s) && Sized(s') && t < |s.reserved| && c < |s.stage| && s.reserved[t] == [] && s.stage[c].Live?
    && s'.core == Update(s.core, t, c, n, false) && s'.core.busy == s.core.busy
    && s'.tasks == s.tasks && s'.running == s.running && s'.stage == s.stage && s'.finished == s.finished
    && s'.reserved == s.reserved[t := Fresh(s.next, n, c)] && s'.next == s.next + n && s'.call == s.call[t := NoCall]
    && s'.places.Keys == s.places.Keys + Ids(s.next, n)
    && (forall id :: id in s'.places ==> s'.places[id] == if id in Ids(s.next, n) then Reserved(t) else s.places[id])
    && s'.pending == s.pending[c := s.pending[c] + Ids(s.next, n)]
    && s'.all == s.all[c := s.all[c] + Ids(s.next, n)]
  }

  lemma SubmitPlaces(s: Layer, t: nat, c: nat, n: nat, s': Layer)
    requires Submitted(s, t, c, n, s') && PlacesOk(s)
    ensures PlacesOk(s')
  {
    forall u: nat | u < |s'.reserved| ensures ReservedOk(s', u) { assert ReservedOk(s, u); }
    forall f: nat ensures RunningOk(s', f) { assert RunningOk(s, f); }
    forall d: nat, id: nat | d < |s'.pending| ensures PendingOk(s', d, id) {
      assert PendingOk(s, d, id);
      if id in Ids(s.next, n) && d == c { assert s'.reserved[t][id - s.next] == Task(id, c); }
    }
  }

  /** The count and the pending set grow by the same number. */
  lemma SubmitCounter(s: Layer, c: nat, n: nat, s': Layer, d: nat)
    requires Sized(s) && Sized(s') && d < |s.pending| && c < |s.pending| && CounterOk(s, d)
    requires s.stage[c].Live? && s'.stage == s.stage && s'.finished == s.finished
    requires s'.core.counts == s.core.counts[c := s.core.counts[c] + n]
    requires s'.pending == s.pending[c := s.pending[c] + Ids(s.next, n)] && s'.all == s.all[c := s.all[c] + Ids(s.next, n)]
    requires forall id :: id in s.pending[c] ==> id < s.next
    ensures CounterOk(s', d)
  {
    NewIdsCount(s.pending[c], s.next, n);
    hide Ids, Shape;
  }

  lemma NewIdsCount(known: set<nat>, next: nat, n: nat)
    requires forall id :: id in known ==> id < next
    ensures |known + Ids(next, n)| == |known| + n
  {
    IdsSize(next, n);
    assert known !! Ids(next, n);
  }

  lemma AddEffect(s: Layer, t: nat, c: nat, n: nat, s': Layer)
    requires TasksInv(s) && CanDo(s, Add(t)) && s.call[t] == Submitting(c, n) && s' == DoTask(s, Add(t))
    ensures Submitted(s, t, c, n, s') && HandOff(s'.core)
    ensures s'.core.counts == s.core.counts[c := s.core.counts[c] + n]
  {
    StepHandOff(s.core, Increment(t, c, n, false));
    assert ThreadPlaced(s.core, t) && CallOk(s, t);
    hide HandOff, ThreadPlaced, CallsOk, PlacesOk;
    assert s'.core.busy == s.core.busy;
  }

  lemma AddCalls(s: Layer, t: nat, c: nat, n: nat, s': Layer)
    requires Submitted(s, t, c, n, s') && CallsOk(s) && t < |s.core.pc|
    ensures CallsOk(s')
  {
    forall u: nat | u < |s'.call| ensures CallOk(s', u) { assert CallOk(s, u); }
  }

  lemma AddInv(s: Layer, t: nat)
    requires TasksInv(s) && CanDo(s, Add(t))
    ensures TasksInv(DoTask(s, Add(t)))
  {
    hide HandOff, DoTask, Update, Ids;
    var s' := DoTask(s, Add(t));
    var c, n := s.call[t].c, s.call[t].n;
    AddEffect(s, t, c, n, s');
    SubmitPlaces(s, t, c, n, s');
    AddCalls(s, t, c, n, s');
    forall id | id in s.pending[c] ensures id < s.next { assert PendingOk(s, c, id); }
    forall d: nat | d < |s'.pending| ensures CounterOk(s', d) { SubmitCounter(s, c, n, s', d); }
  }

  lemma EnqueueInv(s: Layer, t: nat)
    requires TasksInv(s) && CanDo(s, Enqueue(t))
    ensures TasksInv(DoTask(s, Enqueue(t)))
  {
    var s' := DoTask(s, Enqueue(t));
    var task := s.reserved[t][0];
    assert ReservedOk(s, t);
    assert s.reserved[t] == [task] + s'.reserved[t];
    forall u: nat | u < |s'.reserved| ensures ReservedOk(s', u) { assert ReservedOk(s, u); }
    forall f: nat ensures RunningOk(s', f) { assert RunningOk(s, f); }
    forall c: nat, id: nat | c < |s'.pending| ensures PendingOk(s', c, id) { assert PendingOk(s, c, id); }
    assert CallOk(s, t);
    KeepCalls(s, t, s');
    forall c: nat | c < |s'.pending| ensures CounterOk(s', c) { assert CounterOk(s, c); }
  }

  // ----- executing -------------------------------------------------------------------------------

  lemma StartPlaces(s: Layer, t: nat, s': Layer)
    requires Sized(s) && Sized(s') && PlacesOk(s) && CanDo(s, Start(t)) && s' == DoTask(s, Start(t))
    requires s.core.cur[t] < |s.core.busy| && s'.core.busy == s.core.busy[s.core.cur[t] := true] && !s.core.busy[s.core.cur[t]]
    ensures PlacesOk(s')
  {
    var task := s.tasks[0];
    assert QueueOk(s);
    assert s.tasks == [task] + s'.tasks;
    forall u: nat | u < |s'.reserved| ensures ReservedOk(s', u) { assert ReservedOk(s, u); }
    assert RunningOk(s, s.core.cur[t]);
    forall f: nat ensures RunningOk(s', f) { assert RunningOk(s, f); }
    forall c: nat, id: nat | c < |s'.pending| ensures PendingOk(s', c, id) { assert PendingOk(s, c, id); }
  }

  lemma StartInv(s: Layer, t: nat)
    requires TasksInv(s) && CanDo(s, Start(t))
    ensures TasksInv(DoTask(s, Start(t)))
  {
    var s' := DoTask(s, Start(t));
    StepHandOff(s.core, GetTask(t));
    assert ThreadPlaced(s.core, t);
    StartPlaces(s, t, s');
    assert CallOk(s, t);
    KeepCalls(s, t, s');
    forall c: nat | c < |s'.pending| ensures CounterOk(s', c) { assert CounterOk(s, c); }
  }

  lemma FinishPlaces(s: Layer, t: nat, s': Layer)
    requires Sized(s) && Sized(s') && PlacesOk(s) && CanDo(s, Finish(t)) && s' == DoTask(s, Finish(t))
    requires s.core.cur[t] < |s.core.busy| && s'.core.busy == s.core.busy[s.core.cur[t] := false]
    ensures PlacesOk(s')
  {
    var f0 := s.core.cur[t];
    assert RunningOk(s, f0);
    forall u: nat | u < |s'.reserved| ensures ReservedOk(s', u) { assert ReservedOk(s, u); }
    assert QueueOk(s);
    forall f: nat ensures RunningOk(s', f) { assert RunningOk(s, f); }
    forall c: nat, id: nat | c < |s'.pending| ensures PendingOk(s', c, id) { assert PendingOk(s, c, id); }
  }

  lemma FinishInv(s: Layer, t: nat)
    requires TasksInv(s) && CanDo(s, Finish(t))
    ensures TasksInv(DoTask(s, Finish(t)))
  {
    var s' := DoTask(s, Finish(t));
    var task := s.running[s.core.cur[t]];
    StepHandOff(s.core, Increment(t, task.counter, -1, true));
    FinishPlaces(s, t, s');
    KeepCalls(s, t, s');
    assert RunningOk(s, s.core.cur[t]) && CounterOk(s, task.counter);
    forall c: nat | c < |s'.pending| ensures CounterOk(s', c) { assert CounterOk(s, c); }
  }

  // ----- calls of the counter interface ---------------------------------------------------------------

  ghost predicate IsCall(a: LayerAction) {
    a.Submit? || a.Acquire? || a.Release? || a.Proceed?
  }

  /** Another thread's call is not disturbed. */
  lemma CallsKeepOthers(s: Layer, a: LayerAction, s': Layer, u: nat)
    requires Sized(s) && Sized(s') && CallsOk(s) && IsCall(a) && CanDo(s, a) && Sound(s, a) && s' == DoTask(s, a)
    requires s'.core.pc == s.core.pc && u < |s.call|
    ensures CallOk(s', u)
  {
    assert CallOk(s, u) && CallOk(s, a.t);
    if u != a.t { assert Apart(s.call[u], s.call[a.t]) && Apart(s.call[a.t], s.call[u]); }
  }

  lemma CallsStayApart(s: Layer, a: LayerAction, s': Layer, t: nat, u: nat)
    requires Sized(s) && Sized(s') && CallsOk(s) && IsCall(a) && CanDo(s, a) && Sound(s, a) && s' == DoTask(s, a)
    requires t < |s.call| && u < |s.call| && t != u
    ensures Apart(s'.call[t], s'.call[u])
  {
    assert Apart(s.call[t], s.call[u]);
  }

  /** A call moves no task and, but for the reset, no count. */
  lemma CallCore(s: Layer, a: LayerAction, s': Layer)
    requires TasksInv(s) && IsCall(a) && CanDo(s, a) && s' == DoTask(s, a)
    ensures HandOff(s'.core) && s'.core.pc == s.core.pc && s'.core.busy == s.core.busy && Sized(s')
    ensures s'.pending == s.pending
    ensures forall c: nat :: c < |s.pending| && CounterOk(s, c) ==> s'.core.counts[c] == s.core.counts[c]
  {
    if a.Proceed? && s.call[a.t].Fetched? {
      StepHandOff(s.core, Renew(s.call[a.t].c));
      assert CallOk(s, a.t) && CounterOk(s, s.call[a.t].c);
    }
    hide HandOff;
  }

  lemma CallCounter(s: Layer, a: LayerAction, s': Layer, d: nat)
    requires Sized(s) && Sized(s') && CallsOk(s) && IsCall(a) && CanDo(s, a) && Sound(s, a) && s' == DoTask(s, a)
    requires d < |s.pending| && CounterOk(s, d) && s'.pending == s.pending && s'.core.counts[d] == s.core.counts[d]
    ensures CounterOk(s', d)
  {
    assert CallOk(s, a.t);
  }

  lemma CallInv(s: Layer, a: LayerAction)
    requires TasksInv(s) && IsCall(a) && CanDo(s, a) && Sound(s, a)
    ensures TasksInv(DoTask(s, a))
  {
    var s' := DoTask(s, a);
    CallCore(s, a, s');
    KeepPlaces(s, s');
    hide HandOff, PlacesOk, Sound, CounterOk, CallOk, Apart;
    forall u: nat | u < |s'.call| ensures CallOk(s', u) { CallsKeepOthers(s, a, s', u); }
    forall t: nat, u: nat | t < |s'.call| && u < |s'.call| && t != u ensures Apart(s'.call[t], s'.call[u]) {
      CallsStayApart(s, a, s', t, u);
    }
    forall d: nat | d < |s'.pending| ensures CounterOk(s', d) { CallCounter(s, a, s', d); }
  }

  /** Every task step that respects H4 and H5 keeps tasks, calls and counters in order. */
  lemma TasksStepInv(s: Layer, a: LayerAction)
    requires TasksInv(s) && CanDo(s, a) && Sound(s, a)
    ensures TasksInv(DoTask(s, a))
  {
    match a {
      case Core(b) => CoreInv(s, b);
      case Add(t) => AddInv(s, t);
      case Enqueue(t) => EnqueueInv(s, t);
      case Start(t) => StartInv(s, t);
      case Finish(t) => FinishInv(s, t);
      case _ => CallInv(s, a);
    }
  }

  // ----- zero is final while it is acted on ------------------------------------------------------------

  lemma CoreStepZero(s: Layer, a: Action, u: nat)
    requires LayerInv(s) && CanDo(s, Core(a)) && TasksInv(DoTask(s, Core(a))) && u < |s.core.pc|
    ensures u < |DoTask(s, Core(a)).core.pc| && ZeroOk(DoTask(s, Core(a)), DoTask(s, Core(a)).core.pc[u])
  {
    var s' := DoTask(s, Core(a));
    CoreKeeps(s.core, a);
    assert ZeroOk(s, s.core.pc[a.t]) && ZeroOk(s, s.core.pc[u]);
    CoreZero(s, a, s'.core);
  }

  /** A submission misleads nobody if nobody acts on the counter being 0. */
  lemma AddZero(s: Layer, t: nat, u: nat)
    requires Sized(s) && CanDo(s, Add(t)) && NoneMisled(s, Add(t)) && Sized(DoTask(s, Add(t)))
    requires s.core.counts[s.call[t].c] >= 0 && u < |s.core.pc| && ZeroOk(s, s.core.pc[u])
    ensures ZeroOk(DoTask(s, Add(t)), DoTask(s, Add(t)).core.pc[u])
  {
    hide Fresh, Ids;
  }

  lemma FinishZero(s: Layer, t: nat, u: nat)
    requires Sized(s) && CanDo(s, Finish(t)) && Sized(DoTask(s, Finish(t))) && u < |s.core.pc| && ZeroOk(s, s.core.pc[u])
    requires s.core.counts[s.running[s.core.cur[t]].counter] > 0
    ensures ZeroOk(DoTask(s, Finish(t)), DoTask(s, Finish(t)).core.pc[u])
  {
  }

  lemma OtherStepZero(s: Layer, a: LayerAction, u: nat)
    requires Sized(s) && CanDo(s, a) && Sized(DoTask(s, a)) && u < |s.core.pc| && ZeroOk(s, s.core.pc[u])
    requires a.Enqueue? || a.Start? || IsCall(a)
    ensures u < |DoTask(s, a).core.pc| && ZeroOk(DoTask(s, a), DoTask(s, a).core.pc[u])
  {
  }

  lemma StepZero(s: Layer, a: LayerAction, u: nat)
    requires LayerInv(s) && CanDo(s, a) && Allowed(s, a) && TasksInv(DoTask(s, a)) && u < |s.core.pc|
    ensures u < |DoTask(s, a).core.pc| && ZeroOk(DoTask(s, a), DoTask(s, a).core.pc[u])
  {
    assert ZeroOk(s, s.core.pc[u]);
    hide HandOff, PlacesOk, ZeroOk;
    match a {
      case Core(b) => CoreStepZero(s, b, u);
      case Add(t) => assert CounterOk(s, s.call[t].c); AddZero(s, t, u);
      case Finish(t) => FinishCounts(s, t); FinishZero(s, t, u);
      case _ => OtherStepZero(s, a, u);
    }
  }

  lemma SameThreads(s: Layer, a: LayerAction)
    requires CanDo(s, a)
    ensures |DoTask(s, a).core.pc| == |s.core.pc|
  {
    if a.Core? { CoreKeeps(s.core, a.a); }
    hide ScanStep, WaitStep;
  }

  lemma ProtocolStep(s: Layer, a: LayerAction)
    requires Inv(s.core) && CanDo(s, a) && Orderly(s, a)
    ensures Inv(DoTask(s, a).core)
  {
    if Projection(s, a).Some? { SchedulerProof.StepInv(s.core, Projection(s, a).value); }
    hide Inv, Do;
  }

  /** With H1, H2 and H3 as well, the protocol is safe and threads that act on a 0 stay right. */
  lemma LayerStepInv(s: Layer, a: LayerAction)
    requires LayerInv(s) && CanDo(s, a) && Allowed(s, a)
    ensures LayerInv(DoTask(s, a))
  {
    TasksStepInv(s, a);
    SameThreads(s, a);
    ProtocolStep(s, a);
    hide TasksInv, Inv, DoTask, ZeroOk, Sound, Orderly, NoneMisled;
    forall u: nat | u < |s.core.pc| ensures u < |DoTask(s, a).core.pc| && ZeroOk(DoTask(s, a), DoTask(s, a).core.pc[u]) {
      StepZero(s, a, u);
    }
  }

  /** A running task is still counted. */
  lemma FinishCounts(s: Layer, t: nat)
    requires TasksInv(s) && CanDo(s, Finish(t))
    ensures s.core.counts[s.running[s.core.cur[t]].counter] > 0
  {
    var task := s.running[s.core.cur[t]];
    assert RunningOk(s, s.core.cur[t]) && CounterOk(s, task.counter);
    assert task.id in s.pending[task.counter];
  }
}

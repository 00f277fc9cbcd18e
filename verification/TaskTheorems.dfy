/**
  What the task layer promises: conservation over every run in which handles are dropped only when
  they are settled, as H4 and H5 ensure, and "wait means done" over every run that also respects
  H1, H2 and H3.
 */
module TaskTheorems {
  import opened Prelude
  import opened SchedulerCore
  import opened SchedulerInv
  import opened FiberHandOff
  import opened TaskLayer
  import opened TaskLayerInv

  ghost predicate TaskStep(s: Layer, a: LayerAction, s': Layer) {
    CanDo(s, a) && Sound(s, a) && s' == DoTask(s, a)
  }

  ghost predicate TaskRun(states: seq<Layer>, actions: seq<LayerAction>) {
    && |states| == |actions| + 1 && LayerInit(states[0])
    && forall k :: 0 <= k < |actions| ==> TaskStep(states[k], actions[k], states[k + 1])
  }

  /** The step respects H1, H2 and H3 as well. */
  ghost predicate Honest(s: Layer, a: LayerAction) {
    CanDo(s, a) && Allowed(s, a)
  }

  ghost predicate LayerRun(states: seq<Layer>, actions: seq<LayerAction>) {
    TaskRun(states, actions) && forall k :: 0 <= k < |actions| ==> Honest(states[k], actions[k])
  }

  lemma {:induction false} TaskRunInv(states: seq<Layer>, actions: seq<LayerAction>, k: nat)
    requires TaskRun(states, actions) && k < |states|
    ensures TasksInv(states[k])
  {
    hide TasksInv;
    if k == 0 {
      LayerInitInv(states[0]);
    } else {
      TaskRunInv(states, actions, k - 1);
      assert TaskStep(states[k - 1], actions[k - 1], states[k]);
      TasksStepInv(states[k - 1], actions[k - 1]);
    }
  }

  lemma LayerRunStep(states: seq<Layer>, actions: seq<LayerAction>, k: nat)
    requires LayerRun(states, actions) && k < |actions| && LayerInv(states[k])
    ensures LayerInv(states[k + 1])
  {
    assert TaskStep(states[k], actions[k], states[k + 1]) && Honest(states[k], actions[k]);
    hide LayerInv, LayerInit, DoTask, Allowed;
    LayerStepInv(states[k], actions[k]);
  }

  lemma {:induction false} LayerRunInv(states: seq<Layer>, actions: seq<LayerAction>, k: nat)
    requires LayerRun(states, actions) && k < |states|
    ensures LayerInv(states[k])
  {
    assert |states| == |actions| + 1 && LayerInit(states[0]);
    hide *;
    if k == 0 {
      LayerInitInv(states[0]);
    } else {
      LayerRunInv(states, actions, k - 1);
      LayerRunStep(states, actions, k - 1);
    }
  }

  // ----- counter conservation ----------------------------------------------------------------------

  /** Tasks of counter c that submitTasks has counted in but not enqueued yet. */
  ghost function ReservedOn(s: Layer, c: nat): set<nat> {
    set t: nat, k: nat | t < |s.reserved| && k < |s.reserved[t]| && s.reserved[t][k].counter == c :: s.reserved[t][k].id
  }

  /** Tasks of counter c in the queue. */
  ghost function QueuedOn(s: Layer, c: nat): set<nat> {
    set k: nat | k < |s.tasks| && s.tasks[k].counter == c :: s.tasks[k].id
  }

  /** Tasks of counter c that were dequeued and whose decrement has not happened. */
  ghost function RunningOn(s: Layer, c: nat): set<nat> {
    set f | f in s.running && s.running[f].counter == c :: s.running[f].id
  }

  lemma PendingIsInOnePlace(s: Layer, c: nat, id: nat)
    requires TasksInv(s) && c < |s.pending|
    ensures id in s.pending[c] <==> id in ReservedOn(s, c) || id in QueuedOn(s, c) || id in RunningOn(s, c)
    ensures id in ReservedOn(s, c) ==> id in s.places && s.places[id].Reserved?
    ensures id in QueuedOn(s, c) ==> id in s.places && s.places[id].InQueue?
    ensures id in RunningOn(s, c) ==> id in s.places && s.places[id].RunBy?
  {
    hide Inv, HandOff;
    if id in ReservedOn(s, c) {
      var t: nat, k: nat :| t < |s.reserved| && k < |s.reserved[t]| && s.reserved[t][k].counter == c && s.reserved[t][k].id == id;
      assert ReservedOk(s, t);
    }
    if id in QueuedOn(s, c) {
      assert QueueOk(s);
    }
    if id in RunningOn(s, c) {
      var f :| f in s.running && s.running[f].counter == c && s.running[f].id == id;
      assert RunningOk(s, f);
    }
    if id in s.pending[c] {
      assert PendingOk(s, c, id);
      match s.places[id] {
        case Reserved(t) => var k: nat :| k < |s.reserved[t]| && s.reserved[t][k] == Task(id, c);
        case InQueue => var k: nat :| k < |s.tasks| && s.tasks[k] == Task(id, c);
        case RunBy(f) => assert s.running[f] == Task(id, c);
      }
    }
  }

  /** A counter's value is the number of its tasks that are reserved, queued or running. */
  ghost predicate Conserved(s: Layer, c: nat)
    requires Sized(s) && c < |s.core.counts|
  {
    s.core.counts[c] == |ReservedOn(s, c)| + |QueuedOn(s, c)| + |RunningOn(s, c)|
  }

  lemma InvConserves(s: Layer, c: nat)
    requires TasksInv(s) && c < |s.core.counts|
    ensures Conserved(s, c)
  {
    assert CounterOk(s, c);
    var r, q, x := ReservedOn(s, c), QueuedOn(s, c), RunningOn(s, c);
    forall id: nat ensures id in s.pending[c] <==> id in r || id in q || id in x { PendingIsInOnePlace(s, c, id); }
    assert s.pending[c] == r + q + x;
    forall id: nat | id in r ensures id !in q && id !in x { PendingIsInOnePlace(s, c, id); }
    forall id: nat | id in q ensures id !in x { PendingIsInOnePlace(s, c, id); }
    hide TasksInv;
    assert r !! q && (r + q) !! x;
    assert |r + q| == |r| + |q|;
    assert |(r + q) + x| == |r + q| + |x|;
  }

  /** Every counter is conserved in every state of every run in which handles are settled when they
      are dropped, however often the counter returns to 0 and is submitted on again. */
  lemma CounterConservation(states: seq<Layer>, actions: seq<LayerAction>, i: nat, c: nat)
    requires TaskRun(states, actions) && i < |states| && c < |states[i].core.counts|
    ensures Sized(states[i]) && Conserved(states[i], c)
  {
    TaskRunInv(states, actions, i);
    InvConserves(states[i], c);
  }

  // ----- a finished wait means finished tasks ---------------------------------------------------------

  /** The action resolves a wait with target 0 on counter c: a checker claims the waiter's slot
      in order to wake it, or the waiter itself returns early. */
  ghost predicate ResolvesZeroWait(s: Layer, a: LayerAction, c: nat)
    requires CanDo(s, a)
  {
    && a.Core? && a.a.Advance?
    && match s.core.pc[a.a.t]
       case Scan(d, _, i, AtClaim, _) => c == d && !s.core.slots[SlotId(c, i)].inUse && s.core.slots[SlotId(c, i)].target == 0
       case Waiting(d, _, _, Cas(i, seen)) =>
         c == d && seen == 0 && !s.core.slots[SlotId(c, i)].inUse && s.core.slots[SlotId(c, i)].target == 0
       case _ => false
  }

  /** At that moment the counter is at 0 and every task submitted on it has been executed and
      has had its decrement applied. */
  lemma ResolutionMeansDone(s: Layer, a: LayerAction, c: nat)
    requires LayerInv(s) && CanDo(s, a) && ResolvesZeroWait(s, a, c)
    ensures c < |s.core.counts| && s.core.counts[c] == 0 && s.pending[c] == {} && s.all[c] <= s.finished
  {
    var t := a.a.t;
    assert ThreadOk(s.core, t) && ZeroOk(s, s.core.pc[t]);
    hide Inv, HandOff;
    assert CounterOk(s, c);
  }

  lemma FinishedGrows(s: Layer, a: LayerAction)
    requires CanDo(s, a)
    ensures s.finished <= DoTask(s, a).finished
  {
  }

  lemma {:induction false} FinishedGrowsAlong(states: seq<Layer>, actions: seq<LayerAction>, k: nat, j: nat)
    requires TaskRun(states, actions) && k <= j < |states|
    ensures states[k].finished <= states[j].finished
    decreases j
  {
    if k < j {
      FinishedGrowsAlong(states, actions, k, j - 1);
      assert TaskStep(states[j - 1], actions[j - 1], states[j]);
      FinishedGrows(states[j - 1], actions[j - 1]);
    }
  }

  /** The law of wait_for: from the moment a wait with target 0 is resolved, and so in particular
      when it returns, all tasks submitted on the counter until then are finished. */
  lemma WaitMeansDone(states: seq<Layer>, actions: seq<LayerAction>, k: nat, j: nat, c: nat)
    requires LayerRun(states, actions) && k < |actions| && k <= j < |states|
    requires CanDo(states[k], actions[k]) && ResolvesZeroWait(states[k], actions[k], c)
    ensures c < |states[k].all| && states[k].all[c] <= states[j].finished
  {
    LayerRunInv(states, actions, k);
    ResolutionMeansDone(states[k], actions[k], c);
    FinishedGrowsAlong(states, actions, k, j);
  }

  /** H3 cannot be dropped: whenever a wait with target 0 is about to be resolved, a submission
      by another thread just before leaves it about to be resolved with tasks outstanding. */
  lemma SubmissionBeforeResolutionBreaksWait(s: Layer, a: LayerAction, c: nat, u: nat, n: nat)
    requires LayerInv(s) && CanDo(s, a) && ResolvesZeroWait(s, a, c)
    requires CanDo(s, Add(u)) && s.call[u] == Submitting(c, n)
    ensures !NoneMisled(s, Add(u))
    ensures
      var s' := DoTask(s, Add(u));
      CanDo(s', a) && ResolvesZeroWait(s', a, c) && |s'.pending[c]| >= n
  {
    SubmissionRefused(s, a, c, u, n);
    SubmissionUnnoticed(s, a, c, u, n);
  }

  lemma SubmissionRefused(s: Layer, a: LayerAction, c: nat, u: nat, n: nat)
    requires LayerInv(s) && CanDo(s, a) && ResolvesZeroWait(s, a, c) && CanDo(s, Add(u)) && s.call[u] == Submitting(c, n)
    ensures !NoneMisled(s, Add(u))
  {
    ResolutionMeansDone(s, a, c);
    assert ThreadOk(s.core, a.a.t);
    hide LayerInv;
  }

  lemma SubmissionUnnoticed(s: Layer, a: LayerAction, c: nat, u: nat, n: nat)
    requires LayerInv(s) && CanDo(s, a) && ResolvesZeroWait(s, a, c) && CanDo(s, Add(u)) && s.call[u] == Submitting(c, n)
    ensures
      var s' := DoTask(s, Add(u));
      CanDo(s', a) && ResolvesZeroWait(s', a, c) && |s'.pending[c]| >= n
  {
    ResolutionMeansDone(s, a, c);
    IdsSize(s.next, n);
    UpdateKeepsShape(s.core, u, c, n);
    hide LayerInv, Fresh, Ids, Shape;
    var s' := DoTask(s, Add(u));
    assert s'.pending[c] == Ids(s.next, n);
  }

  lemma UpdateKeepsShape(s: State, t: nat, c: nat, amount: int)
    requires Shape(s) && t < |s.pc| && c < |s.counts|
    ensures Shape(Update(s, t, c, amount, false))
  {
  }

  // ----- a discipline that callers can keep -------------------------------------------------------------

  /** H4, H5, and: nothing more is submitted on a counter that has returned to 0 until it is
      acquired again, its first submission does not overlap with a wait that saw it at 0, and it
      is not reset while a scan of it is under way. */
  ghost predicate Careful(s: Layer, a: LayerAction)
    requires CanDo(s, a)
  {
    && ReleasesOnce(s, a) && OnTargetZero(a) && NoOverlap(s, a)
    && (a.Add? && s.core.counts[s.call[a.t].c] <= 0 ==>
         s.all[s.call[a.t].c] == {} && forall t: nat :: t < |s.core.pc| ==> !SawZero(s.core.pc[t], s.call[a.t].c))
    && (a.Proceed? && s.call[a.t].Fetched? ==>
         forall t: nat :: t < |s.core.pc| ==> !(s.core.pc[t].Scan? && s.core.pc[t].counter == s.call[a.t].c))
  }

  // H4 and H5: a handle is settled when it is dropped.

  /** A release under way is for target 0 and meets no submission; past its look, the count is 0. */
  ghost predicate ReleaseOk(s: Layer, t: nat)
    requires Sized(s) && t < |s.call|
  {
    var call := s.call[t];
    && (call.Releasing? ==> call.target == Some(0) && NoSubmission(s, call.c))
    && (call.Dropping? ==> call.c < |s.core.counts| && s.core.counts[call.c] == 0 && NoSubmission(s, call.c))
  }

  ghost predicate ReleasesOk(s: Layer) {
    Sized(s) && forall t: nat :: t < |s.call| ==> ReleaseOk(s, t)
  }

  lemma CarefulIsSound(s: Layer, a: LayerAction)
    requires CanDo(s, a) && ReleasesOk(s) && Careful(s, a)
    ensures Sound(s, a)
  {
    if a.Proceed? { assert ReleaseOk(s, a.t); }
  }

  /** The count of a counter about to be dropped does not move. */
  lemma DroppingCount(s: Layer, a: LayerAction, s': Layer, t: nat)
    requires TasksInv(s) && CanDo(s, a) && s' == DoTask(s, a) && Sized(s') && t < |s.call| && ReleaseOk(s, t) && s.call[t].Dropping?
    ensures |s'.core.counts| == |s.core.counts| && s'.core.counts[s.call[t].c] == s.core.counts[s.call[t].c]
  {
    assert CallOk(s, t);
    match a {
      case Core(b) => CoreKeeps(s.core, b);
      case Add(u) => assert !SubmitsOn(s.call[u], s.call[t].c);
      case Finish(u) => FinishCounts(s, u);
      case Proceed(u) => assert CallOk(s, u);
      case _ =>
    }
  }

  lemma StepReleaseOk(s: Layer, a: LayerAction, s': Layer, t: nat)
    requires TasksInv(s) && CanDo(s, a) && Careful(s, a) && s' == DoTask(s, a) && Sized(s') && t < |s.call| && ReleaseOk(s, t)
    ensures t < |s'.call| && ReleaseOk(s', t)
  {
    SameThreads(s, a);
    if s.call[t].Dropping? { DroppingCount(s, a, s', t); }
    hide TasksInv, CoreAfter;
  }

  // H3: whoever acts on a counter being 0 is right.

  /** Only counters with submissions are scanned. */
  ghost predicate ScanUsed(s: Layer, pc: Pc)
    requires Sized(s) && PcShape(pc, s.core.width, |s.core.counts|, |s.core.place|)
  {
    pc.Scan? ==> s.all[pc.counter] != {}
  }

  ghost predicate ScansUsed(s: Layer) {
    Sized(s) && forall t: nat :: t < |s.core.pc| ==> ScanUsed(s, s.core.pc[t])
  }

  lemma CarefulIsHonest(s: Layer, a: LayerAction)
    requires LayerInv(s) && ScansUsed(s) && CanDo(s, a) && Careful(s, a)
    ensures NoneMisled(s, a)
  {
    if a.Add? {
      forall t: nat | t < |s.core.pc| ensures !ActsOnZero(s.core.pc[t], s.call[a.t].c) {
        assert ZeroOk(s, s.core.pc[t]) && ScanUsed(s, s.core.pc[t]);
      }
    }
  }

  lemma CoreScanUsed(s: Layer, a: Action, s': Layer, u: nat)
    requires Sized(s) && Sized(s') && CanDo(s, Core(a)) && s' == DoTask(s, Core(a))
    requires u < |s.core.pc| && ScanUsed(s, s.core.pc[u])
    ensures u < |s'.core.pc| && ScanUsed(s', s'.core.pc[u])
  {
    CoreKeeps(s.core, a);
    if a.Advance? && u == a.t && s.core.pc[u].Scan? {
      ScanZero(s.core, u, s'.core);
    } else if a.Advance? && u == a.t && s.core.pc[u].Waiting? {
      WaitZero(s.core, u, s'.core);
    }
    hide ScanStep, WaitStep;
  }

  lemma StepScanUsed(s: Layer, a: LayerAction, s': Layer, u: nat)
    requires TasksInv(s) && CanDo(s, a) && Careful(s, a) && s' == DoTask(s, a) && Sized(s')
    requires u < |s.core.pc| && ScanUsed(s, s.core.pc[u])
    ensures u < |s'.core.pc| && ScanUsed(s', s'.core.pc[u])
  {
    match a {
      case Core(b) => CoreScanUsed(s, b, s', u);
      case Add(t) => assert s.next in Ids(s.next, s.call[t].n);
      case Finish(t) =>
        var task := s.running[s.core.cur[t]];
        assert RunningOk(s, s.core.cur[t]) && CounterOk(s, task.counter);
        assert task.id in s.all[task.counter];
      case _ =>
    }
  }

  /** A step of careful callers that respects H1 and H2. */
  ghost predicate CarefulStep(s: Layer, a: LayerAction, s': Layer) {
    CanDo(s, a) && Orderly(s, a) && Careful(s, a) && s' == DoTask(s, a)
  }

  ghost predicate CarefulRun(states: seq<Layer>, actions: seq<LayerAction>) {
    && |states| == |actions| + 1 && LayerInit(states[0])
    && forall k :: 0 <= k < |actions| ==> CarefulStep(states[k], actions[k], states[k + 1])
  }

  ghost predicate CarefulInv(s: Layer) {
    LayerInv(s) && ReleasesOk(s) && ScansUsed(s)
  }

  lemma CarefulStepInv(s: Layer, a: LayerAction, s': Layer)
    requires CarefulInv(s) && CarefulStep(s, a, s')
    ensures Allowed(s, a) && CarefulInv(s')
  {
    CarefulIsSound(s, a);
    CarefulIsHonest(s, a);
    LayerStepInv(s, a);
    SameThreads(s, a);
    assert Sized(s') && |s'.call| == |s.call|;
    hide LayerInv, DoTask, ReleaseOk, ScanUsed, Careful, Orderly;
    forall t: nat | t < |s'.call| ensures ReleaseOk(s', t) { StepReleaseOk(s, a, s', t); }
    forall u: nat | u < |s'.core.pc| ensures ScanUsed(s', s'.core.pc[u]) { StepScanUsed(s, a, s', u); }
  }

  lemma {:induction false} CarefulRunInv(states: seq<Layer>, actions: seq<LayerAction>, k: nat)
    requires CarefulRun(states, actions) && k < |states|
    ensures CarefulInv(states[k])
    ensures forall i :: 0 <= i < k ==> Honest(states[i], actions[i])
  {
    if k == 0 {
      LayerInitInv(states[0]);
    } else {
      CarefulRunInv(states, actions, k - 1);
      assert CarefulStep(states[k - 1], actions[k - 1], states[k]);
      CarefulStepInv(states[k - 1], actions[k - 1], states[k]);
      hide LayerInit, CarefulInv, DoTask, Careful;
    }
  }

  /** A run of careful callers, if it respects H1 and H2, respects everything else. */
  lemma CarefulRunIsHonest(states: seq<Layer>, actions: seq<LayerAction>)
    requires CarefulRun(states, actions)
    ensures LayerRun(states, actions)
  {
    CarefulRunInv(states, actions, |actions|);
    hide CarefulInv;
    forall k | 0 <= k < |actions| ensures TaskStep(states[k], actions[k], states[k + 1]) {
      assert CarefulStep(states[k], actions[k], states[k + 1]) && Honest(states[k], actions[k]);
    }
  }

  // ----- after the wait ----------------------------------------------------------------------------------

  /** A counter that was used and is back at 0. */
  ghost predicate Drained(s: Layer, c: nat) {
    Sized(s) && c < |s.all| && s.all[c] != {} && s.core.counts[c] == 0
  }

  /** The action resets the counter for its next use. */
  ghost predicate Resets(s: Layer, a: LayerAction, c: nat) {
    a.Proceed? && a.t < |s.call| && s.call[a.t] == Fetched(c)
  }

  lemma DrainedStays(s: Layer, a: LayerAction, c: nat)
    requires TasksInv(s) && CanDo(s, a) && Careful(s, a) && Drained(s, c) && !Resets(s, a, c) && Sized(DoTask(s, a))
    ensures Drained(DoTask(s, a), c)
  {
    match a {
      case Core(b) => CoreKeeps(s.core, b); hide Do;
      case Finish(t) => FinishCounts(s, t);
      case _ =>
    }
    hide TasksInv;
  }

  lemma StepDrained(states: seq<Layer>, actions: seq<LayerAction>, k: nat, c: nat)
    requires CarefulRun(states, actions) && k < |actions| && Drained(states[k], c) && !Resets(states[k], actions[k], c)
    ensures Drained(states[k + 1], c)
  {
    CarefulRunInv(states, actions, k);
    CarefulRunInv(states, actions, k + 1);
    assert CarefulStep(states[k], actions[k], states[k + 1]);
    hide Drained, Careful, Resets, DoTask, Orderly, HandOff, PlacesOk, CallsOk, Inv, ReleasesOk, ScansUsed, LayerInit;
    DrainedStays(states[k], actions[k], c);
  }

  lemma {:induction false} StaysDrained(states: seq<Layer>, actions: seq<LayerAction>, k: nat, j: nat, c: nat)
    requires CarefulRun(states, actions) && k <= j < |states| && Drained(states[k], c)
    requires forall i :: k <= i < j ==> !Resets(states[i], actions[i], c)
    ensures Drained(states[j], c)
    decreases j
  {
    assert |states| == |actions| + 1;
    hide *;
    if k < j {
      StaysDrained(states, actions, k, j - 1, c);
      StepDrained(states, actions, j - 1, c);
    }
  }

  /** With careful callers, a counter that had tasks stays at 0 from the moment at which a wait for
      0 on it is resolved, until it is reset for its next use. */
  lemma DrainedUntilReset(states: seq<Layer>, actions: seq<LayerAction>, k: nat, j: nat, c: nat)
    requires CarefulRun(states, actions) && k < |actions| && k <= j < |states|
    requires CanDo(states[k], actions[k]) && ResolvesZeroWait(states[k], actions[k], c)
    requires c < |states[k].all| && states[k].all[c] != {}
    requires forall i :: k <= i < j ==> !Resets(states[i], actions[i], c)
    ensures Drained(states[j], c)
  {
    CarefulRunInv(states, actions, k);
    ResolutionMeansDone(states[k], actions[k], c);
    assert Drained(states[k], c);
    hide *;
    StaysDrained(states, actions, k, j, c);
  }

  /** So the releaseCounterIfOnTarget(handle, 0) that follows the wait, however much later, finds
      the count on target and goes on to release the handle. */
  lemma WaitThenRelease(states: seq<Layer>, actions: seq<LayerAction>, k: nat, j: nat, c: nat)
    requires CarefulRun(states, actions) && k < j < |actions|
    requires CanDo(states[k], actions[k]) && ResolvesZeroWait(states[k], actions[k], c)
    requires c < |states[k].all| && states[k].all[c] != {}
    requires forall i :: k <= i < j ==> !Resets(states[i], actions[i], c)
    requires actions[j].Proceed? && actions[j].t < |states[j].call| && states[j].call[actions[j].t] == Releasing(c, Some(0))
    ensures actions[j].t < |states[j + 1].call| && states[j + 1].call[actions[j].t] == Dropping(c)
  {
    DrainedUntilReset(states, actions, k, j, c);
    assert CarefulStep(states[j], actions[j], states[j + 1]);
    hide Careful, Orderly, ResolvesZeroWait;
  }
}

/**
  From the call to the return: a wait for 0 returns only when every task submitted on its counter
  before the call has finished, a submission adds exactly the tasks it was called with, and a
  release drops the handle exactly if the count it loads is the target it was called with.
 */
module TaskOutcomes {
  import opened Prelude
  import opened SchedulerCore
  import opened SchedulerInv
  import opened SchedulerTheorems
  import SchedulerCalls
  import WaitOutcomes
  import opened TaskLayer
  import opened TaskLayerInv
  import opened TaskTheorems

  // ----- waiting ----------------------------------------------------------------------------------

  /** Fiber f is in the wait it called for, which has not been resolved. */
  ghost predicate InWait(s: State, f: nat, call: SchedulerCalls.Call) {
    && Shape(s) && f < |s.place| && SchedulerCalls.AsCalled(s, f, Some(call)) && WaitOutcomes.Unresolved(s, f)
  }

  lemma EntersWait(s: State, a: Action, f: nat, s': State)
    requires Inv(s) && Enabled(s, a) && a.Wait? && s.cur[a.t] == f && s' == Do(s, a) && Inv(s')
    ensures InWait(s', f, SchedulerCalls.Call(0, a.t, a.counter, a.target, a.pinned))
  {
    assert ThreadOk(s, a.t) && ThreadOk(s', a.t);
    var call := SchedulerCalls.Call(0, a.t, a.counter, a.target, a.pinned);
    assert SchedulerCalls.AsCalled(s, f, None);
    assert SchedulerCalls.NewCall(s, a, f, None, Some(call));
    SchedulerCalls.StepAsCalled(s, a, f, None, s', Some(call));
    hide SchedulerCalls.AsCalled, ScanStep, WaitStep;
  }

  lemma StaysInWait(s: State, a: Action, f: nat, s': State, call: SchedulerCalls.Call)
    requires Inv(s) && Enabled(s, a) && s' == Do(s, a) && Inv(s') && InWait(s, f, call)
    requires !ReturnsEarly(s, a, f) && !Wakes(s, a, f)
    ensures InWait(s', f, call)
  {
    hide Inv, Do, SchedulerCalls.AsCalled, WaitOutcomes.Unresolved, ReturnsEarly, Wakes;
    WaitOutcomes.StaysUnresolved(s, a, f);
    assert SchedulerCalls.NewCall(s, a, f, Some(call), Some(call));
    ShapeIsKept(s');
    SchedulerCalls.StepAsCalled(s, a, f, Some(call), s', Some(call));
  }

  lemma ShapeIsKept(s: State)
    requires Inv(s)
    ensures Shape(s)
  {
  }

  /** The action resolves fiber f's wait for 0 on counter c. */
  ghost predicate ResolvesZeroWaitOf(s: Layer, a: LayerAction, f: nat, c: nat) {
    && CanDo(s, a) && ResolvesZeroWait(s, a, c)
    && (ReturnsEarly(s.core, a.a, f) || Wakes(s.core, a.a, f))
  }

  lemma ResolutionIsZeroWait(s: Layer, a: LayerAction, f: nat, call: SchedulerCalls.Call)
    requires LayerInv(s) && CanDo(s, a) && InWait(s.core, f, call) && call.target == 0
    requires Projection(s, a).Some? && (ReturnsEarly(s.core, Projection(s, a).value, f) || Wakes(s.core, Projection(s, a).value, f))
    ensures ResolvesZeroWaitOf(s, a, f, call.counter)
  {
    assert a.Core?;
    WaitOutcomes.ResolvesAsCalled(s.core, a.a, f, call);
    assert ThreadOk(s.core, a.a.t);
    hide SchedulerCalls.AsCalled, WaitOutcomes.Unresolved;
  }

  /** Since the call at step k the wait has been resolved, or fiber f is still in it at step j. */
  ghost predicate Pursued(states: seq<Layer>, actions: seq<LayerAction>, f: nat, call: SchedulerCalls.Call, k: nat, j: nat) {
    || (exists m: nat :: k < m < j && m < |actions| && m < |states| && ResolvesZeroWaitOf(states[m], actions[m], f, call.counter))
    || (j < |states| && InWait(states[j].core, f, call))
  }

  lemma LayerSteps(states: seq<Layer>, actions: seq<LayerAction>, k: nat)
    requires LayerRun(states, actions) && k < |actions|
    ensures |states| == |actions| + 1 && CanDo(states[k], actions[k]) && Allowed(states[k], actions[k])
    ensures states[k + 1] == DoTask(states[k], actions[k]) && LayerInv(states[k]) && LayerInv(states[k + 1])
  {
    LayerRunInv(states, actions, k);
    LayerRunInv(states, actions, k + 1);
    assert TaskStep(states[k], actions[k], states[k + 1]) && Honest(states[k], actions[k]);
  }

  lemma CoreOfInv(s: Layer)
    requires LayerInv(s)
    ensures Inv(s.core) && Sized(s)
  {
  }

  /** The protocol state after a layer action. */
  lemma CoreSteps(s: Layer, a: LayerAction)
    requires CanDo(s, a)
    ensures
      match Projection(s, a)
      case Some(b) => Enabled(s.core, b) && DoTask(s, a).core == Do(s.core, b)
      case None => DoTask(s, a).core == s.core
  {
    hide Do;
  }

  /** The call that a layer action makes. */
  ghost function CallOf(a: LayerAction): SchedulerCalls.Call
    requires a.Core? && a.a.Wait?
  {
    SchedulerCalls.Call(0, a.a.t, a.a.counter, a.a.target, a.a.pinned)
  }

  lemma PursueFirst(states: seq<Layer>, actions: seq<LayerAction>, f: nat, k: nat)
    requires LayerRun(states, actions) && k < |actions| && actions[k].Core? && actions[k].a.Wait?
    requires actions[k].a.t < |states[k].core.cur| && states[k].core.cur[actions[k].a.t] == f
    ensures Pursued(states, actions, f, CallOf(actions[k]), k, k + 1)
  {
    hide LayerRun, InWait, LayerInv, DoTask, Allowed, Do;
    LayerSteps(states, actions, k);
    CoreOfInv(states[k]);
    CoreOfInv(states[k + 1]);
    CoreSteps(states[k], actions[k]);
    hide Inv;
    EntersWait(states[k].core, actions[k].a, f, states[k + 1].core);
  }

  lemma PursueUnresolved(states: seq<Layer>, actions: seq<LayerAction>, f: nat, call: SchedulerCalls.Call, k: nat, j: nat)
    requires LayerRun(states, actions) && k < j < |actions| && InWait(states[j].core, f, call) && call.target == 0
    ensures Pursued(states, actions, f, call, k, j + 1)
  {
    hide LayerRun, InWait, LayerInv, DoTask, Allowed, Do, CanDo, Inv, ReturnsEarly, Wakes, ResolvesZeroWaitOf, Enabled;
    LayerSteps(states, actions, j);
    var s, a := states[j], actions[j];
    CoreOfInv(s);
    CoreOfInv(states[j + 1]);
    CoreSteps(s, a);
    if Projection(s, a).Some? {
      var b := Projection(s, a).value;
      if ReturnsEarly(s.core, b, f) || Wakes(s.core, b, f) {
        ResolutionIsZeroWait(s, a, f, call);
        assert k < j < j + 1 && ResolvesZeroWaitOf(states[j], actions[j], f, call.counter);
      } else {
        StaysInWait(s.core, b, f, states[j + 1].core, call);
      }
    }
  }

  lemma {:induction false} Pursue(states: seq<Layer>, actions: seq<LayerAction>, f: nat, k: nat, j: nat)
    requires LayerRun(states, actions) && k < j <= |actions| && actions[k].Core? && actions[k].a.Wait? && actions[k].a.target == 0
    requires k < |states| && actions[k].a.t < |states[k].core.cur| && states[k].core.cur[actions[k].a.t] == f
    ensures Pursued(states, actions, f, CallOf(actions[k]), k, j)
    decreases j
  {
    hide LayerRun, InWait, ResolvesZeroWaitOf;
    if j == k + 1 {
      PursueFirst(states, actions, f, k);
    } else {
      Pursue(states, actions, f, k, j - 1);
      var call := CallOf(actions[k]);
      if exists m: nat :: k < m < j - 1 && m < |actions| && m < |states| && ResolvesZeroWaitOf(states[m], actions[m], f, call.counter) {
        var m: nat :| k < m < j - 1 && m < |actions| && m < |states| && ResolvesZeroWaitOf(states[m], actions[m], f, call.counter);
        assert k < m < j && ResolvesZeroWaitOf(states[m], actions[m], f, call.counter);
      } else {
        PursueUnresolved(states, actions, f, call, k, j - 1);
      }
    }
  }

  // What was submitted stays accounted for.

  /** Each of the tasks is submitted on the counter, or finished. */
  ghost predicate Covered(s: Layer, c: nat, ids: set<nat>) {
    c < |s.all| && ids <= s.all[c] + s.finished
  }

  lemma StepCovers(s: Layer, a: LayerAction, c: nat, ids: set<nat>)
    requires TasksInv(s) && CanDo(s, a) && Covered(s, c, ids)
    ensures Covered(DoTask(s, a), c, ids)
  {
    if a.Proceed? && s.call[a.t].Fetched? && s.call[a.t].c == c {
      assert CallOk(s, a.t) && CounterOk(s, c);
    }
    hide TasksInv, CoreAfter;
  }

  lemma CoversStep(states: seq<Layer>, actions: seq<LayerAction>, j: nat, c: nat, ids: set<nat>)
    requires TaskRun(states, actions) && j < |actions| && Covered(states[j], c, ids)
    ensures Covered(states[j + 1], c, ids)
  {
    TaskRunInv(states, actions, j);
    assert TaskStep(states[j], actions[j], states[j + 1]);
    hide TasksInv, LayerInit, DoTask, Covered, Sound;
    StepCovers(states[j], actions[j], c, ids);
  }

  lemma {:induction false} StaysCovered(states: seq<Layer>, actions: seq<LayerAction>, k: nat, j: nat, c: nat, ids: set<nat>)
    requires TaskRun(states, actions) && k <= j < |states| && Covered(states[k], c, ids)
    ensures Covered(states[j], c, ids)
    decreases j
  {
    assert |states| == |actions| + 1;
    hide *;
    if k < j {
      StaysCovered(states, actions, k, j - 1, c, ids);
      CoversStep(states, actions, j - 1, c, ids);
    }
  }

  /** The law of wait_for, from the call to the return: when a fiber that called wait for 0, pinned
      or not, is back in task code, its wait was resolved in between, and every task that had been
      submitted on the counter until then, in particular before the call, is finished. */
  lemma WaitReturnsDone(states: seq<Layer>, actions: seq<LayerAction>, f: nat, k: nat, j: nat, u: nat) returns (m: nat)
    requires LayerRun(states, actions) && k < j <= |actions| && actions[k].Core? && actions[k].a.Wait? && actions[k].a.target == 0
    requires k < |states| && actions[k].a.t < |states[k].core.cur| && states[k].core.cur[actions[k].a.t] == f
    requires j < |states| && u < |states[j].core.pc| && u < |states[j].core.cur| && states[j].core.cur[u] == f && states[j].core.pc[u].User?
    ensures k < m < j && ResolvesZeroWaitOf(states[m], actions[m], f, actions[k].a.counter)
    ensures actions[k].a.counter < |states[m].all| && states[m].all[actions[k].a.counter] <= states[j].finished
    ensures actions[k].a.counter < |states[k].all| && states[k].all[actions[k].a.counter] <= states[j].finished
  {
    var c := actions[k].a.counter;
    Pursue(states, actions, f, k, j);
    LayerRunInv(states, actions, j);
    WaitOutcomes.BackInTask(states[j].core, f, u);
    assert !InWait(states[j].core, f, CallOf(actions[k]));
    m :| k < m < j && m < |actions| && m < |states| && ResolvesZeroWaitOf(states[m], actions[m], f, c);
    hide LayerInv, InWait, WaitOutcomes.Unresolved;
    Conclude(states, actions, f, k, m, j, c);
  }

  lemma Conclude(states: seq<Layer>, actions: seq<LayerAction>, f: nat, k: nat, m: nat, j: nat, c: nat)
    requires LayerRun(states, actions) && k < m < j < |states| && m < |actions| && ResolvesZeroWaitOf(states[m], actions[m], f, c)
    requires CanDo(states[k], actions[k]) && actions[k].Core? && actions[k].a.Wait? && actions[k].a.counter == c
    ensures c < |states[m].all| && states[m].all[c] <= states[j].finished
    ensures c < |states[k].all| && states[k].all[c] <= states[j].finished
  {
    WaitMeansDone(states, actions, m, j, c);
    LayerRunInv(states, actions, k);
    assert c < |states[k].all|;
    assert Covered(states[k], c, states[k].all[c]);
    hide LayerInv, CanDo, ResolvesZeroWaitOf, ResolvesZeroWait;
    assert TaskRun(states, actions);
    hide LayerRun, TaskRun;
    StaysCovered(states, actions, k, m, c, states[k].all[c]);
    FinishedGrowsAlong(states, actions, m, j);
  }

  // ----- submitting and releasing -------------------------------------------------------------------------

  /** The thread's own next step. */
  predicate StepsCall(a: LayerAction, t: nat) {
    (a.Add? || a.Proceed?) && a.t == t
  }

  /** A call in progress keeps its arguments until its thread steps. */
  lemma CallStays(s: Layer, a: LayerAction, t: nat)
    requires CanDo(s, a) && t < |s.call| && !s.call[t].NoCall? && !StepsCall(a, t)
    ensures t < |DoTask(s, a).call| && DoTask(s, a).call[t] == s.call[t]
  {
    hide CoreAfter;
  }

  lemma CallStaysStep(states: seq<Layer>, actions: seq<LayerAction>, j: nat, t: nat, call: TaskLayer.Call)
    requires TaskRun(states, actions) && j < |actions| && t < |states[j].call| && states[j].call[t] == call
    requires !call.NoCall? && !StepsCall(actions[j], t)
    ensures t < |states[j + 1].call| && states[j + 1].call[t] == call
  {
    assert TaskStep(states[j], actions[j], states[j + 1]);
    hide DoTask, Sound, LayerInit;
    CallStays(states[j], actions[j], t);
  }

  lemma {:induction false} CallStaysAlong(states: seq<Layer>, actions: seq<LayerAction>, k: nat, j: nat, t: nat, call: TaskLayer.Call)
    requires TaskRun(states, actions) && k <= j < |states| && t < |states[k].call| && states[k].call[t] == call && !call.NoCall?
    requires forall i :: k <= i < j ==> !StepsCall(actions[i], t)
    ensures t < |states[j].call| && states[j].call[t] == call
    decreases j
  {
    assert |states| == |actions| + 1;
    hide TaskRun, StepsCall;
    if k < j {
      CallStaysAlong(states, actions, k, j - 1, t, call);
      CallStaysStep(states, actions, j - 1, t, call);
    }
  }

  /** The step at j is the first step of its thread after its call at k. */
  ghost predicate NextStepOf(actions: seq<LayerAction>, k: nat, j: nat, t: nat) {
    k < j < |actions| && StepsCall(actions[j], t) && forall i :: k < i < j ==> !StepsCall(actions[i], t)
  }

  lemma CallArrives(states: seq<Layer>, actions: seq<LayerAction>, k: nat, j: nat, t: nat, call: TaskLayer.Call)
    requires TaskRun(states, actions) && NextStepOf(actions, k, j, t)
    requires k + 1 < |states| && t < |states[k + 1].call| && states[k + 1].call[t] == call && !call.NoCall?
    ensures j + 1 < |states| && CanDo(states[j], actions[j]) && states[j + 1] == DoTask(states[j], actions[j]) && TasksInv(states[j])
    ensures t < |states[j].call| && states[j].call[t] == call
  {
    CallStaysAlong(states, actions, k + 1, j, t, call);
    TaskRunInv(states, actions, j);
    assert TaskStep(states[j], actions[j], states[j + 1]);
  }

  lemma SubmitBegins(states: seq<Layer>, actions: seq<LayerAction>, k: nat)
    requires TaskRun(states, actions) && k < |actions| && (actions[k].Submit? || actions[k].Release?)
    ensures k + 1 < |states| && actions[k].t < |states[k + 1].call|
    ensures actions[k].Submit? ==> states[k + 1].call[actions[k].t] == Submitting(actions[k].counter, actions[k].n) && actions[k].n > 0
    ensures actions[k].Release? ==> states[k + 1].call[actions[k].t] == Releasing(actions[k].counter, actions[k].target)
  {
    assert TaskStep(states[k], actions[k], states[k + 1]);
  }

  /** A submission of n tasks on counter c adds n to its count and n new tasks of that counter to
      those its thread enqueues next, and touches no other counter. */
  lemma SubmissionAddsTasks(states: seq<Layer>, actions: seq<LayerAction>, k: nat, j: nat)
    requires TaskRun(states, actions) && k < |actions| && actions[k].Submit? && NextStepOf(actions, k, j, actions[k].t)
    ensures j + 1 < |states|
    ensures
      var s, q, t, c, n := states[j], states[j + 1], actions[k].t, actions[k].counter, actions[k].n;
      && c < |s.core.counts| && q.core.counts == s.core.counts[c := s.core.counts[c] + n]
      && t < |q.reserved| && |q.reserved[t]| == n
      && forall i :: 0 <= i < n ==> q.reserved[t][i].counter == c && q.reserved[t][i].id !in s.places
  {
    var t, c, n := actions[k].t, actions[k].counter, actions[k].n;
    SubmitBegins(states, actions, k);
    CallArrives(states, actions, k, j, t, Submitting(c, n));
    assert actions[j] == Add(t);
    AddEffect(states[j], t, c, n, states[j + 1]);
    hide TaskRun, CallsOk;
  }

  /** A release goes on to drop the handle exactly if it has no target, or finds the count on it. */
  lemma ReleaseDropsExactlyOnTarget(states: seq<Layer>, actions: seq<LayerAction>, k: nat, j: nat)
    requires TaskRun(states, actions) && k < |actions| && actions[k].Release? && NextStepOf(actions, k, j, actions[k].t)
    ensures j + 1 < |states| && actions[k].counter < |states[j].core.counts| && actions[k].t < |states[j + 1].call|
    ensures states[j + 1].call[actions[k].t] ==
      if actions[k].target == None || actions[k].target == Some(states[j].core.counts[actions[k].counter]) then Dropping(actions[k].counter)
      else NoCall
    ensures states[j + 1].stage == states[j].stage
  {
    var t, c, target := actions[k].t, actions[k].counter, actions[k].target;
    SubmitBegins(states, actions, k);
    CallArrives(states, actions, k, j, t, Releasing(c, target));
    hide TaskRun, TasksInv;
  }
}

/**
  What the scheduler promises, in terms of the program's own variables.  The lemmas speak of
  every state with the invariant; `SafeInEveryRun` puts them together for every state of every
  run that respects H1 and H2.
 */
module SchedulerTheorems {
  import opened Prelude
  import opened SchedulerCore
  import opened SchedulerInv
  import opened SchedulerProof
  import FiberHandOff

  ghost predicate Reachable(s: State) {
    exists states: seq<State>, actions: seq<Action> ::
      RunOf(states, actions) && Init(states[0]) && states[|actions|] == s
  }

  lemma ReachableInv(s: State)
    requires Reachable(s)
    ensures Inv(s)
  {
    var states: seq<State>, actions: seq<Action> :|
      RunOf(states, actions) && Init(states[0]) && states[|actions|] == s;
    RunInv(states, actions, |actions|);
  }

  // ----- a waiting fiber has exactly one wake token --------------------------------------------

  datatype Token = InOpenSlot(id: SlotId) | BeingEnqueued(t: nat) | InReady(k: nat) | InPinned(t: nat, k: nat) | HeldBy(t: nat)

  /** Something that will lead to the fiber being resumed. */
  ghost predicate HasToken(s: State, f: nat, token: Token)
    requires Shape(s)
  {
    match token
    case InOpenSlot(id) => id in s.slots && !s.slots[id].inUse && s.slots[id].fiber == f
    case BeingEnqueued(t) =>
      && t < |s.pc| && s.pc[t].Scan? && s.pc[t].phase.AtEnqueue?
      && s.slots[SlotId(s.pc[t].counter, s.pc[t].i)].fiber == f
    case InReady(k) => k < |s.ready| && s.ready[k] == f
    case InPinned(t, k) => t < |s.pinned| && k < |s.pinned[t]| && s.pinned[t][k] == f
    case HeldBy(t) => t < |s.pc| && (s.pc[t].Got? || s.pc[t].Back?) && s.pc[t].fiber == f
  }

  lemma TokenMatchesWake(s: State, f: nat, token: Token)
    requires Inv(s) && f < |s.place| && HasToken(s, f, token)
    ensures
      match token
      case InOpenSlot(id) => s.wake[f] == InSlot(id)
      case BeingEnqueued(t) => s.wake[f] == Claimed(t)
      case InReady(_) => s.wake[f] == Queued(None)
      case InPinned(t, _) => s.wake[f] == Queued(Some(t))
      case HeldBy(t) => s.wake[f] == Held(t)
  {
    match token {
      case InOpenSlot(id) => assert SlotOk(s, id);
      case BeingEnqueued(t) => assert ThreadOk(s, t);
      case InReady(k) => assert WakeQueue(s, s.ready, Queued(None));
      case InPinned(t, k) => assert WakeQueue(s, s.pinned[t], Queued(Some(t)));
      case HeldBy(t) => assert ThreadOk(s, t);
    }
  }

  lemma TokensUnique(s: State, f: nat, a: Token, b: Token)
    requires Inv(s) && f < |s.place| && HasToken(s, f, a) && HasToken(s, f, b)
    ensures a == b
  {
    TokenMatchesWake(s, f, a);
    TokenMatchesWake(s, f, b);
    if a.InReady? {
      assert WakeQueue(s, s.ready, Queued(None));
    } else if a.InPinned? {
      assert WakeQueue(s, s.pinned[a.t], Queued(Some(a.t)));
    }
  }

  lemma TokenExists(s: State, f: nat) returns (token: Token)
    requires Inv(s) && f < |s.place| && s.cleaned[f]
    ensures HasToken(s, f, token)
  {
    assert FiberOk(s, f);
    match s.wake[f] {
      case InSlot(id) => assert SlotOk(s, id); token := InOpenSlot(id);
      case Claimed(t) => token := BeingEnqueued(t);
      case Queued(None) => var k: nat :| k < |s.ready| && s.ready[k] == f; token := InReady(k);
      case Queued(Some(t)) => var k: nat :| k < |s.pinned[t]| && s.pinned[t][k] == f; token := InPinned(t, k);
      case Held(t) => token := HeldBy(t);
    }
  }

  /** No fiber has two wake tokens, a parked one has one, and one that runs task code has none. */
  ghost predicate TokensOk(s: State, f: nat)
    requires Shape(s) && f < |s.place|
  {
    && (s.cleaned[f] ==> exists token :: HasToken(s, f, token))
    && (forall a, b :: HasToken(s, f, a) && HasToken(s, f, b) ==> a == b)
    && (forall t: nat, token :: t < |s.pc| && s.cur[t] == f && s.pc[t].User? ==> !HasToken(s, f, token))
  }

  /** A parked fiber has exactly one wake token; a fiber that runs task code has none. */
  lemma ExactlyOneToken(s: State, f: nat)
    requires Inv(s) && f < |s.place|
    ensures TokensOk(s, f)
  {
    if s.cleaned[f] { var token := TokenExists(s, f); }
    forall a, b | HasToken(s, f, a) && HasToken(s, f, b) ensures a == b { TokensUnique(s, f, a, b); }
    forall t: nat, token | t < |s.pc| && s.cur[t] == f && s.pc[t].User? ensures !HasToken(s, f, token) {
      assert ThreadOk(s, t);
      if HasToken(s, f, token) { TokenMatchesWake(s, f, token); }
    }
  }

  // ----- the fiber queues never overflow -------------------------------------------------------

  /** Fibers about to be appended to the idle or to the global resumable queue. */
  ghost predicate AboutToEnqueue(s: State, t: nat, f: nat)
    requires Shape(s)
  {
    && t < |s.pc|
    && match s.pc[t]
       case Clean => s.prev[t] == Prev(f, ToPool)
       case Back(g, pinned) => g == f && !pinned
       case Scan(c, _, i, AtEnqueue, _) => s.slots[SlotId(c, i)].fiber == f && s.slots[SlotId(c, i)].pin.None?
       case _ => false
  }

  /** Idle and resumable entries never exceed num_fibers, and whenever a fiber is about to be
      enqueued there is room for it, so those enqueues cannot find their queue full. */
  lemma QueuesHaveRoom(s: State)
    requires Inv(s)
    ensures |s.idle| + |s.ready| <= |s.place|
    ensures forall t: nat, f: nat :: AboutToEnqueue(s, t, f) ==> |s.idle| + |s.ready| < |s.place|
  {
    var all := s.idle + s.ready;
    forall k | 0 <= k < |s.idle| ensures s.wake[s.idle[k]].Awake? { assert FiberOk(s, s.idle[k]); }
    assert NoDup(all);
    Pigeonhole(all, |s.place|);
    forall t: nat, f: nat | AboutToEnqueue(s, t, f) ensures |s.idle| + |s.ready| < |s.place| {
      assert ThreadOk(s, t);
      assert FiberOk(s, f);
      assert f !in s.idle && f !in s.ready;
      assert NoDup(all + [f]);
      Pigeonhole(all + [f], |s.place|);
    }
  }

  // ----- no lost wake ---------------------------------------------------------------------------

  /** The waiter registered in the slot is past its own comparison with the count. */
  ghost predicate Committed(s: State, id: SlotId)
    requires Shape(s) && id in s.slots
  {
    forall t: nat :: t < |s.pc| && s.cur[t] == s.slots[id].fiber ==> !StillLooking(s.pc[t])
  }

  /** If a registered wait is unclaimed and past its own look at the count while the count
      equals its target, an updater that produced this very value has yet to reach the slot. */
  lemma NoLostWake(s: State, id: SlotId)
    requires Inv(s) && id in s.slots
    requires !s.slots[id].inUse && Committed(s, id) && s.counts[id.counter] == s.slots[id].target
    ensures exists t: nat :: t < |s.pc| && Pending(s.pc[t], id, s.counts[id.counter])
  {
    assert SlotOk(s, id) && NotLost(s, id) && FiberOk(s, s.slots[id].fiber);
  }

  /** With no update in flight on a counter, no committed waiter has a met target. */
  lemma QuietCounterHasNoMetWaiter(s: State, c: nat)
    requires Inv(s) && c < |s.counts|
    requires forall t: nat :: t < |s.pc| ==> !(s.pc[t].Scan? && s.pc[t].counter == c)
    ensures forall id :: id in s.slots && id.counter == c && !s.slots[id].inUse && Committed(s, id) ==>
      s.counts[c] != s.slots[id].target
  {
    forall id | id in s.slots && id.counter == c && !s.slots[id].inUse && Committed(s, id)
      ensures s.counts[c] != s.slots[id].target
    {
      if s.counts[c] == s.slots[id].target { NoLostWake(s, id); }
    }
  }

  // ----- each wait is resolved exactly once ------------------------------------------------------

  /** The action registers fiber f in a waiting slot. */
  ghost predicate Registers(s: State, a: Action, f: nat)
    requires Enabled(s, a)
  {
    && a.Advance? && s.pc[a.t].Waiting? && s.pc[a.t].wait.Try? && s.cur[a.t] == f
    && s.slots[SlotId(s.pc[a.t].counter, s.pc[a.t].wait.i)].free
  }

  /** The action is the early return of fiber f's own wait. */
  ghost predicate ReturnsEarly(s: State, a: Action, f: nat)
    requires Enabled(s, a)
  {
    && a.Advance? && s.pc[a.t].Waiting? && s.pc[a.t].wait.Cas? && s.cur[a.t] == f
    && !s.slots[SlotId(s.pc[a.t].counter, s.pc[a.t].wait.i)].inUse
  }

  /** The action is a checker claiming fiber f's slot in order to wake it. */
  ghost predicate Wakes(s: State, a: Action, f: nat)
    requires Enabled(s, a)
  {
    && a.Advance? && s.pc[a.t].Scan? && s.pc[a.t].phase.AtClaim?
    && var slot := s.slots[SlotId(s.pc[a.t].counter, s.pc[a.t].i)];
       !slot.inUse && slot.fiber == f
  }

  /** The action is the successful CAS that lets a thread switch to fiber f. */
  ghost predicate Resumes(s: State, a: Action, f: nat)
    requires Enabled(s, a)
  {
    a.Advance? && s.pc[a.t].Got? && s.pc[a.t].fiber == f && s.cleaned[f]
  }

  /** A checker wakes a fiber only with the value that the fiber waits for. */
  lemma WokenForItsTarget(s: State, a: Action, f: nat)
    requires Inv(s) && Enabled(s, a) && Wakes(s, a, f)
    ensures s.slots[SlotId(s.pc[a.t].counter, s.pc[a.t].i)].target == s.pc[a.t].value
  {
    assert ThreadOk(s, a.t);
  }

  /** The action is that checker's enqueue of fiber f. */
  ghost predicate Enqueues(s: State, a: Action, f: nat)
    requires Enabled(s, a)
  {
    && a.Advance? && s.pc[a.t].Scan? && s.pc[a.t].phase.AtEnqueue?
    && s.slots[SlotId(s.pc[a.t].counter, s.pc[a.t].i)].fiber == f
  }

  /** The action takes fiber f from a resumable queue. */
  ghost predicate Dequeues(s: State, a: Action, f: nat)
    requires Enabled(s, a)
  {
    (a.GetPinned? && s.pinned[a.t][0] == f) || (a.GetReady? && s.ready[0] == f)
  }

  /** The action puts fiber f back, which was not cleaned up yet. */
  ghost predicate PutsBack(s: State, a: Action, f: nat)
    requires Enabled(s, a)
  {
    a.Advance? && s.pc[a.t].Back? && s.pc[a.t].fiber == f
  }

  function One(b: bool): nat { if b then 1 else 0 }

  datatype Tally = Tally(registered: nat, early: nat, woken: nat, resumed: nat)

  ghost function Add(c: Tally, s: State, a: Action, f: nat): Tally
    requires Enabled(s, a)
  {
    Tally(c.registered + One(Registers(s, a, f)), c.early + One(ReturnsEarly(s, a, f)),
          c.woken + One(Wakes(s, a, f)), c.resumed + One(Resumes(s, a, f)))
  }

  /** Events of fiber f in the first k steps of a run. */
  ghost function Count(states: seq<State>, actions: seq<Action>, f: nat, k: nat): Tally
    requires RunOf(states, actions) && k <= |actions|
  {
    if k == 0 then Tally(0, 0, 0, 0)
    else Add(Count(states, actions, f, k - 1), states[k - 1], actions[k - 1], f)
  }

  predicate Balanced(c: Tally, w: Wake) {
    && c.registered == c.early + c.woken + One(w.InSlot?)
    && c.woken == c.resumed + One(w.Claimed? || w.Queued? || w.Held?)
  }

  /** How one action moves the wake token of fiber f. */
  ghost predicate TokenMoved(s: State, a: Action, f: nat, s': State)
    requires Enabled(s, a) && f < |s.wake| && f < |s.home| && f < |s'.wake|
  {
    var w, w' := s.wake[f], s'.wake[f];
    if Registers(s, a, f) then w.Awake? && w'.InSlot?
    else if ReturnsEarly(s, a, f) then w.InSlot? && w'.Awake?
    else if Wakes(s, a, f) then w.InSlot? && w' == Claimed(a.t)
    else if Resumes(s, a, f) then w == Held(a.t) && w' == Awake
    else if Enqueues(s, a, f) then w == Claimed(a.t) && w' == Queued(s.home[f])
    else if Dequeues(s, a, f) then w == Queued(s.home[f]) && w' == Held(a.t)
    else if PutsBack(s, a, f) then w == Held(a.t) && w' == Queued(s.home[f])
    else w' == w
  }

  lemma ScanMovesToken(s: State, t: nat, f: nat)
    requires Inv(s) && CanAdvance(s, t) && s.pc[t].Scan? && f < |s.place|
    ensures f < |ScanStep(s, t).wake| && TokenMoved(s, Advance(t), f, ScanStep(s, t))
  {
    assert ThreadOk(s, t) && SlotOk(s, SlotId(s.pc[t].counter, s.pc[t].i));
  }

  lemma WaitMovesToken(s: State, t: nat, f: nat)
    requires Inv(s) && CanAdvance(s, t) && s.pc[t].Waiting? && f < |s.place|
    ensures f < |WaitStep(s, t).wake| && TokenMoved(s, Advance(t), f, WaitStep(s, t))
  {
    assert ThreadOk(s, t);
    if s.pc[t].wait.Cas? { assert SlotOk(s, SlotId(s.pc[t].counter, s.pc[t].wait.i)); }
  }

  lemma SwitchMovesToken(s: State, t: nat, f: nat)
    requires Inv(s) && CanAdvance(s, t) && !s.pc[t].Scan? && !s.pc[t].Waiting? && f < |s.place|
    ensures f < |Do(s, Advance(t)).wake| && TokenMoved(s, Advance(t), f, Do(s, Advance(t)))
  {
    hide ScanStep, WaitStep;
    assert ThreadOk(s, t);
  }

  lemma DequeueMovesToken(s: State, a: Action, f: nat)
    requires Inv(s) && Enabled(s, a) && (a.GetPinned? || a.GetReady?) && f < |s.place|
    ensures f < |Do(s, a).wake| && TokenMoved(s, a, f, Do(s, a))
  {
    hide ScanStep, WaitStep;
    if a.GetPinned? {
      assert WakeQueue(s, s.pinned[a.t], Queued(Some(a.t))) && FiberOk(s, s.pinned[a.t][0]);
    } else {
      assert FiberOk(s, s.ready[0]);
    }
  }

  lemma TokenMoves(s: State, a: Action, f: nat)
    requires Inv(s) && Enabled(s, a) && f < |s.place|
    ensures f < |Do(s, a).wake| && TokenMoved(s, a, f, Do(s, a))
  {
    hide ScanStep, WaitStep;
    if a.Advance? {
      hide TokenMoved;
      if s.pc[a.t].Scan? {
        ScanMovesToken(s, a.t, f);
      } else if s.pc[a.t].Waiting? {
        WaitMovesToken(s, a.t, f);
      } else {
        SwitchMovesToken(s, a.t, f);
      }
    } else if a.GetPinned? || a.GetReady? {
      hide TokenMoved;
      DequeueMovesToken(s, a, f);
    }
  }

  lemma OneEvent(s: State, a: Action, f: nat)
    requires Enabled(s, a)
    ensures One(Registers(s, a, f)) + One(ReturnsEarly(s, a, f)) + One(Wakes(s, a, f)) + One(Resumes(s, a, f)) <= 1
  {
  }

  ghost predicate SameFibers(s: State, s': State) {
    |s'.place| == |s.place| && |s'.wake| == |s.wake| && |s'.home| == |s.home|
  }

  lemma ScanKeepsFibers(s: State, t: nat)
    requires CanAdvance(s, t) && s.pc[t].Scan?
    ensures SameFibers(s, ScanStep(s, t))
  {
  }

  lemma WaitKeepsFibers(s: State, t: nat)
    requires CanAdvance(s, t) && s.pc[t].Waiting?
    ensures SameFibers(s, WaitStep(s, t))
  {
  }

  lemma FiberCountKept(s: State, a: Action)
    requires Enabled(s, a)
    ensures SameFibers(s, Do(s, a))
  {
    if a.Advance? && s.pc[a.t].Scan? {
      ScanKeepsFibers(s, a.t);
    } else if a.Advance? && s.pc[a.t].Waiting? {
      WaitKeepsFibers(s, a.t);
    }
    hide ScanStep, WaitStep;
  }

  lemma StepFiberCount(states: seq<State>, actions: seq<Action>, k: nat)
    requires RunOf(states, actions) && k < |actions|
    ensures |states[k + 1].place| == |states[k].place|
    ensures |states[k + 1].wake| == |states[k].wake| && |states[k + 1].home| == |states[k].home|
  {
    FiberCountKept(states[k], actions[k]);
    hide Do;
  }

  lemma {:induction false} FiberCount(states: seq<State>, actions: seq<Action>, k: nat)
    requires RunOf(states, actions) && Init(states[0]) && k <= |actions|
    ensures |states[k].place| == |states[k].wake| == |states[k].home| == |states[0].place|
  {
    if k > 0 {
      FiberCount(states, actions, k - 1);
      StepFiberCount(states, actions, k - 1);
      hide *;
    }
  }

  lemma StartBalance(states: seq<State>, actions: seq<Action>, f: nat)
    requires RunOf(states, actions) && Init(states[0]) && f < |states[0].wake|
    ensures Balanced(Count(states, actions, f, 0), states[0].wake[f])
  {
  }

  lemma StepBalance(states: seq<State>, actions: seq<Action>, f: nat, k: nat)
    requires RunOf(states, actions) && Init(states[0]) && k < |actions|
    requires f < |states[k].wake| && f < |states[k + 1].wake| && Balanced(Count(states, actions, f, k), states[k].wake[f])
    ensures Balanced(Count(states, actions, f, k + 1), states[k + 1].wake[f])
  {
    hide Inv, Init, Do, Enabled, Disciplined, Registers, ReturnsEarly, Wakes, Resumes;
    FiberCount(states, actions, k);
    RunInv(states, actions, k);
    TokenMoves(states[k], actions[k], f);
    OneEvent(states[k], actions[k], f);
  }

  lemma {:induction false} Balance(states: seq<State>, actions: seq<Action>, f: nat, k: nat)
    requires RunOf(states, actions) && Init(states[0]) && k <= |actions| && f < |states[k].wake|
    ensures Balanced(Count(states, actions, f, k), states[k].wake[f])
  {
    assert |states| == |actions| + 1;
    hide *;
    if k == 0 {
      StartBalance(states, actions, f);
    } else {
      FiberCount(states, actions, k);
      FiberCount(states, actions, k - 1);
      Balance(states, actions, f, k - 1);
      StepBalance(states, actions, f, k - 1);
    }
  }

  /** Over every run: a wait is resolved at most once, by its early return or by one checker
      and never by both, before the fiber registers again; a fiber is resumed once per wake. */
  lemma ResolvedExactlyOnce(states: seq<State>, actions: seq<Action>, f: nat, k: nat)
    requires RunOf(states, actions) && Init(states[0]) && k <= |actions| && f < |states[0].place|
    ensures
      var c := Count(states, actions, f, k);
      && c.early + c.woken <= c.registered <= c.early + c.woken + 1
      && c.resumed <= c.woken <= c.resumed + 1
  {
    FiberCount(states, actions, k);
    Balance(states, actions, f, k);
  }

  // ----- no thread gets stuck ------------------------------------------------------------------------

  /** In every reachable state a thread's next step is possible, except where the code itself
      panics for lack of waiting slots or spins for an idle fiber; the queues it may take from
      hold proper fibers. */
  lemma NeverStuck(s: State, t: nat)
    requires Inv(s) && t < |s.pc|
    ensures
      || CanAdvance(s, t) || s.pc[t].Loop? || s.pc[t].User?
      || (s.pc[t].Waiting? && s.pc[t].wait == Try(s.width))
      || (s.pc[t].Waiting? && s.pc[t].wait.Take? && s.idle == [])
    ensures s.pc[t].Loop? && s.ready != [] ==> Enabled(s, GetReady(t))
    ensures s.pc[t].Loop? && s.pinned[t] != [] ==> Enabled(s, GetPinned(t))
  {
    assert ThreadOk(s, t);
    if s.pc[t].Scan? {
      var f := s.slots[SlotId(s.pc[t].counter, s.pc[t].i)].fiber;
      assert FiberOk(s, f);
    }
    assert WakeQueue(s, s.pinned[t], Queued(Some(t)));
  }

  // ----- every run ------------------------------------------------------------------------------------

  /** The wait in slot id, if it is due, is about to be resolved. */
  ghost predicate NotForgotten(s: State, id: SlotId)
    requires Shape(s) && id in s.slots
  {
    !s.slots[id].inUse && Committed(s, id) && s.counts[id.counter] == s.slots[id].target ==>
      exists t: nat :: t < |s.pc| && Pending(s.pc[t], id, s.counts[id.counter])
  }

  ghost predicate RoomInQueues(s: State)
    requires Shape(s)
  {
    && |s.idle| + |s.ready| <= |s.place|
    && forall t: nat, f: nat :: AboutToEnqueue(s, t, f) ==> |s.idle| + |s.ready| < |s.place|
  }

  ghost predicate Safe(s: State) {
    && Shape(s) && RoomInQueues(s)
    && (forall f: nat :: f < |s.place| ==> FiberHandOff.HasOneRole(s, f) && TokensOk(s, f))
    && (forall id :: id in s.slots ==> NotForgotten(s, id))
  }

  lemma SafeState(s: State)
    requires Inv(s)
    ensures Safe(s)
  {
    FiberHandOff.InvHandOff(s);
    forall f: nat | f < |s.place| ensures FiberHandOff.HasOneRole(s, f) && TokensOk(s, f) {
      FiberHandOff.FiberAtOnePlace(s, f);
      ExactlyOneToken(s, f);
    }
    forall id | id in s.slots ensures NotForgotten(s, id) {
      if !s.slots[id].inUse && Committed(s, id) && s.counts[id.counter] == s.slots[id].target { NoLostWake(s, id); }
    }
    QueuesHaveRoom(s);
  }

  /** Over every run: each fiber at one place, each parked fiber with its one wake token, no wake
      lost, and room in the fiber queues. */
  lemma SafeInEveryRun(states: seq<State>, actions: seq<Action>, k: nat)
    requires RunOf(states, actions) && Init(states[0]) && k < |states|
    ensures Safe(states[k])
  {
    RunInv(states, actions, k);
    SafeState(states[k]);
  }
}

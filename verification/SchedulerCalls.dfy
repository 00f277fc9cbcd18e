/**
  From the call of wait to its end: what a caller passes is what gets registered, and a wait ends
  only by being resolved for exactly that.  A call is read off the actions of a run, and off
  nothing that the code computes from its arguments.
 */
module SchedulerCalls {
  import opened Prelude
  import opened SchedulerCore
  import opened SchedulerInv
  import opened SchedulerProof
  import opened SchedulerTheorems

  /** The call of wait that a fiber made last: action `at` of the run, on thread t. */
  datatype Call = Call(at: nat, t: nat, counter: nat, target: int, pinned: bool)

  /** The thread to which a call pins its fiber, if any. */
  function PinOf(call: Call): Option<nat> {
    if call.pinned then Some(call.t) else None
  }

  /** The action is a call of wait by fiber f. */
  predicate Calls(s: State, a: Action, f: nat) {
    a.Wait? && a.t < |s.cur| && s.cur[a.t] == f
  }

  ghost function LatestCall(states: seq<State>, actions: seq<Action>, f: nat, k: nat): Option<Call>
    requires |states| == |actions| + 1 && k <= |actions|
  {
    if k == 0 then None
    else if Calls(states[k - 1], actions[k - 1], f) then
      var a := actions[k - 1];
      Some(Call(k - 1, a.t, a.counter, a.target, a.pinned))
    else LatestCall(states, actions, f, k - 1)
  }

  // ----- what is registered is what was asked for --------------------------------------------------

  /** A fiber inside wait works on the wait it called for. */
  ghost predicate WaitsAsCalled(s: State, f: nat, call: Option<Call>)
    requires Shape(s) && f < |s.place|
  {
    s.place[f].Running? && s.place[f].t < |s.pc| && s.pc[s.place[f].t].Waiting? ==>
      var pc := s.pc[s.place[f].t];
      && call.Some? && s.place[f].t == call.value.t
      && pc.counter == call.value.counter && pc.target == call.value.target && pc.pin == PinOf(call.value)
  }

  /** A slot open for a fiber carries what the fiber called for. */
  ghost predicate OpenAsCalled(s: State, f: nat, call: Option<Call>)
    requires Shape(s) && f < |s.place|
  {
    s.wake[f].InSlot? && s.wake[f].id in s.slots ==>
      var id := s.wake[f].id;
      && call.Some? && id.counter == call.value.counter
      && (s.holder[id].Opened? ==> s.slots[id].target == call.value.target && s.slots[id].pin == PinOf(call.value))
  }

  /** A fiber that waits or is about to be resumed is bound to the thread it asked for. */
  ghost predicate PinnedAsCalled(s: State, f: nat, call: Option<Call>)
    requires Shape(s) && f < |s.place|
  {
    !s.wake[f].Awake? || s.place[f].Chosen? ==> call.Some? && s.home[f] == PinOf(call.value)
  }

  ghost predicate AsCalled(s: State, f: nat, call: Option<Call>)
    requires Shape(s) && f < |s.place|
  {
    WaitsAsCalled(s, f, call) && OpenAsCalled(s, f, call) && PinnedAsCalled(s, f, call)
  }

  /** The acting thread t, fiber f and the slots they are at. */
  ghost predicate Near(s: State, t: nat, f: nat) {
    && Standing(s, t) && f < |s.place| && FiberOk(s, f)
    && (s.wake[f].InSlot? ==> SlotOk(s, s.wake[f].id))
  }

  // ----- a scan

  lemma ScanFrame(s: State, t: nat, s': State)
    requires CanAdvance(s, t) && s.pc[t].Scan? && s' == ScanStep(s, t)
    ensures s'.place == s.place && s'.home == s.home && |s'.wake| == |s.wake| && |s'.pc| == |s.pc|
    ensures forall u: nat :: u < |s.pc| && u != t ==> s'.pc[u] == s.pc[u]
    ensures !s'.pc[t].Waiting?
  {
  }

  /** A scan touches only slots that are not registered, or registers less. */
  lemma ScanToken(s: State, t: nat, f: nat, s': State)
    requires Near(s, t, f) && CanAdvance(s, t) && s.pc[t].Scan? && s' == ScanStep(s, t) && Shape(s')
    requires SlotOk(s, SlotId(s.pc[t].counter, s.pc[t].i))
    ensures s'.wake[f].Awake? == s.wake[f].Awake?
    ensures s'.wake[f].InSlot? ==>
      s'.wake[f] == s.wake[f] && s'.holder[s.wake[f].id] == s.holder[s.wake[f].id] && s'.slots[s.wake[f].id] == s.slots[s.wake[f].id]
  {
    hide PlaceOk;
  }

  lemma ScanAsCalled(s: State, t: nat, f: nat, call: Option<Call>, s': State)
    requires Near(s, t, f) && CanAdvance(s, t) && s.pc[t].Scan? && s' == ScanStep(s, t) && Shape(s')
    requires SlotOk(s, SlotId(s.pc[t].counter, s.pc[t].i)) && AsCalled(s, f, call)
    ensures AsCalled(s', f, call)
  {
    ScanFrame(s, t, s');
    ScanToken(s, t, f, s');
    hide ScanStep, Near;
  }

  // ----- a wait

  lemma WaitFrame(s: State, t: nat, s': State)
    requires CanAdvance(s, t) && s.pc[t].Waiting? && s' == WaitStep(s, t)
    ensures |s'.pc| == |s.pc| && s'.pc == s.pc[t := s'.pc[t]]
    ensures s'.pc[t].Waiting? ==>
      s'.pc[t].counter == s.pc[t].counter && s'.pc[t].target == s.pc[t].target && s'.pc[t].pin == s.pc[t].pin
    ensures s'.wake == s.wake[s.cur[t] := s'.wake[s.cur[t]]] && s'.home == s.home[s.cur[t] := s'.home[s.cur[t]]]
    ensures
      match s.pc[t].wait
      case Take => s'.place == s.place[s.idle[0] := Drawn(t)]
      case Leave(g) => s'.place == s.place[s.cur[t] := Leaving(t)][g := Running(t)] && s'.pc[t].Clean?
      case _ => s'.place == s.place
  {
  }

  /** What a step of its wait does to the waiter's own token. */
  lemma WaitOwnToken(s: State, t: nat, s': State)
    requires CanAdvance(s, t) && Near(s, t, s.cur[t]) && s.pc[t].Waiting? && s' == WaitStep(s, t) && Shape(s')
    ensures
      var f, pc := s.cur[t], s.pc[t];
      && (!s'.wake[f].Awake? ==> s'.home[f] == pc.pin || (!s.wake[f].Awake? && s'.home[f] == s.home[f]))
      && (s'.wake[f].InSlot? ==>
           var id := s'.wake[f].id;
           && id in s'.slots
           && ((id.counter == pc.counter && (s'.holder[id].Opened? ==> s'.slots[id].target == pc.target && s'.slots[id].pin == pc.pin))
               || (s'.wake[f] == s.wake[f] && s'.holder[id] == s.holder[id] && s'.slots[id] == s.slots[id])))
  {
  }

  /** The step writes to a slot: its own. */
  predicate WritesSlot(ph: WaitPhase) {
    ph.Try? || ph.Fill? || ph.Open? || ph.Cas? || ph.FreeSlot?
  }

  lemma WaitSlots(s: State, t: nat, s': State, x: SlotId)
    requires CanAdvance(s, t) && s.pc[t].Waiting? && s' == WaitStep(s, t) && x in s.slots
    requires WritesSlot(s.pc[t].wait) ==>
      x != SlotId(s.pc[t].counter, s.pc[t].wait.i) || (s.pc[t].wait.Try? && !s.slots[x].free) || (s.pc[t].wait.Cas? && s.slots[x].inUse)
    ensures x in s'.slots && s'.slots[x] == s.slots[x] && s'.holder[x] == s.holder[x]
  {
  }

  /** That slot is not one in which another fiber is registered. */
  lemma SlotIsNotOthers(s: State, t: nat, f: nat, x: SlotId)
    requires Near(s, t, f) && s.pc[t].Waiting? && WritesSlot(s.pc[t].wait) && f != s.cur[t] && s.wake[f] == InSlot(x)
    ensures
      x != SlotId(s.pc[t].counter, s.pc[t].wait.i) || (s.pc[t].wait.Try? && !s.slots[x].free) || (s.pc[t].wait.Cas? && s.slots[x].inUse)
  {
    hide PlaceOk;
  }

  lemma WaitOtherToken(s: State, t: nat, f: nat, s': State)
    requires Near(s, t, f) && CanAdvance(s, t) && s.pc[t].Waiting? && s' == WaitStep(s, t)
    requires f != s.cur[t] && s.wake[f].InSlot? && s.wake[f].id in s.slots
    ensures s.wake[f].id in s'.slots
    ensures s'.holder[s.wake[f].id] == s.holder[s.wake[f].id] && s'.slots[s.wake[f].id] == s.slots[s.wake[f].id]
  {
    hide WaitStep;
    if WritesSlot(s.pc[t].wait) { SlotIsNotOthers(s, t, f, s.wake[f].id); }
    WaitSlots(s, t, s', s.wake[f].id);
  }

  /** Where the fibers stand that a step of a wait moves. */
  lemma WaitPlaces(s: State, t: nat)
    requires Inv(s) && t < |s.pc| && s.pc[t].Waiting?
    ensures s.place[s.cur[t]] == Running(t)
    ensures s.pc[t].wait.Leave? ==> s.place[s.pc[t].wait.idle] == Drawn(t)
    ensures s.pc[t].wait.Take? && s.idle != [] ==> s.idle[0] < |s.place| && s.place[s.idle[0]].Idle?
  {
    assert ThreadOk(s, t);
    if s.pc[t].wait.Leave? { assert FiberOk(s, s.pc[t].wait.idle); }
  }

  lemma WaitCallAsCalled(s: State, t: nat, f: nat, call: Option<Call>, s': State)
    requires Inv(s) && CanAdvance(s, t) && s.pc[t].Waiting? && s' == WaitStep(s, t) && Shape(s') && f < |s.place|
    requires WaitsAsCalled(s, f, call)
    ensures WaitsAsCalled(s', f, call)
  {
    hide WaitStep;
    WaitFrame(s, t, s');
    WaitPlaces(s, t);
    hide Inv, Shape, CanAdvance;
  }

  lemma WaitSlotAsCalled(s: State, t: nat, f: nat, call: Option<Call>, s': State)
    requires Inv(s) && CanAdvance(s, t) && s.pc[t].Waiting? && s' == WaitStep(s, t) && Shape(s') && f < |s.place|
    requires WaitsAsCalled(s, f, call) && OpenAsCalled(s, f, call)
    ensures OpenAsCalled(s', f, call)
  {
    hide WaitStep;
    WaitNears(s, t, f);
    WaitFrame(s, t, s');
    WaitPlaces(s, t);
    WaitOwnToken(s, t, s');
    if f != s.cur[t] && s.wake[f].InSlot? { WaitOtherToken(s, t, f, s'); }
    hide Inv, Shape, CanAdvance, Near;
  }

  lemma WaitPinAsCalled(s: State, t: nat, f: nat, call: Option<Call>, s': State)
    requires Inv(s) && CanAdvance(s, t) && s.pc[t].Waiting? && s' == WaitStep(s, t) && Shape(s') && f < |s.place|
    requires WaitsAsCalled(s, f, call) && PinnedAsCalled(s, f, call)
    ensures PinnedAsCalled(s', f, call)
  {
    hide WaitStep;
    WaitNears(s, t, f);
    WaitFrame(s, t, s');
    WaitPlaces(s, t);
    WaitOwnToken(s, t, s');
    hide Inv, Shape, CanAdvance, Near;
  }

  lemma WaitAsCalled(s: State, t: nat, f: nat, call: Option<Call>, s': State)
    requires Inv(s) && CanAdvance(s, t) && s.pc[t].Waiting? && s' == WaitStep(s, t) && Shape(s') && f < |s.place|
    requires AsCalled(s, f, call)
    ensures AsCalled(s', f, call)
  {
    hide Inv, WaitStep, WaitsAsCalled, OpenAsCalled, PinnedAsCalled;
    WaitCallAsCalled(s, t, f, call, s');
    WaitSlotAsCalled(s, t, f, call, s');
    WaitPinAsCalled(s, t, f, call, s');
  }

  lemma WaitNears(s: State, t: nat, f: nat)
    requires Inv(s) && CanAdvance(s, t) && f < |s.place|
    ensures Near(s, t, f) && Near(s, t, s.cur[t]) && (s.wake[f].InSlot? ==> s.wake[f].id in s.slots)
  {
    NearOf(s, t, f);
    NearOf(s, t, s.cur[t]);
  }

  lemma NearOf(s: State, t: nat, f: nat)
    requires Inv(s) && t < |s.pc| && f < |s.place|
    ensures Near(s, t, f)
  {
    assert ThreadOk(s, t) && FiberOk(s, f);
    if s.wake[f].InSlot? { assert SlotOk(s, s.wake[f].id); }
  }

  // ----- anything else

  /** What steps outside scans and waits leave alone. */
  lemma OtherFrame(s: State, a: Action, s': State)
    requires Enabled(s, a) && s' == Do(s, a) && (a.Advance? ==> !s.pc[a.t].Scan? && !s.pc[a.t].Waiting?)
    ensures s'.home == s.home && s'.holder == s.holder && |s'.pc| == |s.pc|
  {
    hide ScanStep, WaitStep, Shape;
  }

  lemma OtherSlot(s: State, a: Action, s': State, id: SlotId)
    requires Enabled(s, a) && s' == Do(s, a) && (a.Advance? ==> !s.pc[a.t].Scan? && !s.pc[a.t].Waiting?)
    ensures id in s.slots <==> id in s'.slots
    ensures id in s.slots ==> s'.slots[id].target == s.slots[id].target && s'.slots[id].pin == s.slots[id].pin
  {
    hide ScanStep, WaitStep;
  }

  /** Where they put a call: only the call itself enters a wait. */
  lemma OtherWait(s: State, a: Action, s': State, u: nat)
    requires Enabled(s, a) && s' == Do(s, a) && (a.Advance? ==> !s.pc[a.t].Scan? && !s.pc[a.t].Waiting?)
    requires u < |s.pc| && |s'.pc| == |s.pc| && s'.pc[u].Waiting?
    ensures
      || s'.pc[u] == s.pc[u]
      || (a == Wait(u, s'.pc[u].counter, s'.pc[u].target, s'.pc[u].pin.Some?) && (s'.pc[u].pin.Some? ==> s'.pc[u].pin.value == u))
  {
    hide ScanStep, WaitStep, Shape;
  }

  /** What they do to a fiber. */
  lemma OtherFiber(s: State, a: Action, s': State, g: nat)
    requires Enabled(s, a) && s' == Do(s, a) && Shape(s') && g < |s.place|
    requires a.Advance? ==> !s.pc[a.t].Scan? && !s.pc[a.t].Waiting?
    requires a.GetPinned? ==> !s.wake[s.pinned[a.t][0]].Awake? && !s.wake[s.pinned[a.t][0]].InSlot?
    requires a.GetReady? ==> !s.wake[s.ready[0]].Awake? && !s.wake[s.ready[0]].InSlot?
    requires !a.Renew? ==> Standing(s, a.t)
    ensures s'.wake[g].InSlot? ==> s'.wake[g] == s.wake[g]
    ensures !s'.wake[g].Awake? ==> !s.wake[g].Awake?
  {
    hide ScanStep, WaitStep;
  }

  lemma OtherChosen(s: State, a: Action, s': State, g: nat)
    requires Enabled(s, a) && s' == Do(s, a) && g < |s.place| == |s'.place|
    requires a.Advance? ==> !s.pc[a.t].Scan? && !s.pc[a.t].Waiting? && Standing(s, a.t)
    ensures s'.place[g].Chosen? ==> s.place[g].Chosen? || !s.wake[g].Awake?
  {
    hide ScanStep, WaitStep;
  }

  lemma OtherPlace(s: State, a: Action, s': State, g: nat)
    requires Enabled(s, a) && s' == Do(s, a) && g < |s.place| == |s'.place| && |s'.pc| == |s.pc|
    requires a.Advance? ==> !s.pc[a.t].Scan? && !s.pc[a.t].Waiting?
    ensures s'.place[g].Running? ==> s'.place[g] == s.place[g] || (!a.Renew? && s'.place[g].t == a.t && s'.pc[a.t].Clean?)
  {
    hide ScanStep, WaitStep;
  }

  lemma OtherNear(s: State, a: Action, f: nat)
    requires Inv(s) && Enabled(s, a) && f < |s.place|
    ensures !a.Renew? ==> Near(s, a.t, f) && s.place[s.cur[a.t]] == Running(a.t)
    ensures Calls(s, a, f) ==> s.wake[f].Awake? && s.place[f] == Running(a.t)
    ensures a.GetPinned? ==> !s.wake[s.pinned[a.t][0]].Awake? && !s.wake[s.pinned[a.t][0]].InSlot?
    ensures a.GetReady? ==> !s.wake[s.ready[0]].Awake? && !s.wake[s.ready[0]].InSlot?
    ensures s.wake[f].InSlot? ==> s.wake[f].id in s.slots
    ensures s.place[f].Running? ==> s.place[f].t < |s.pc| && s.cur[s.place[f].t] == f
  {
    if !a.Renew? { NearOf(s, a.t, f); }
    if a.GetPinned? { assert WakeQueue(s, s.pinned[a.t], Queued(Some(a.t))); }
    assert FiberOk(s, f);
  }

  /** The call of fiber f that is the latest after the action. */
  ghost predicate NewCall(s: State, a: Action, f: nat, call: Option<Call>, call': Option<Call>) {
    if Calls(s, a, f) then call'.Some? && call'.value.(at := 0) == Call(0, a.t, a.counter, a.target, a.pinned) else call' == call
  }

  lemma OtherCallAsCalled(s: State, a: Action, f: nat, call: Option<Call>, s': State, call': Option<Call>)
    requires Inv(s) && Enabled(s, a) && s' == Do(s, a) && Shape(s') && f < |s.place|
    requires a.Advance? ==> !s.pc[a.t].Scan? && !s.pc[a.t].Waiting?
    requires NewCall(s, a, f, call, call') && WaitsAsCalled(s, f, call)
    ensures WaitsAsCalled(s', f, call')
  {
    OtherNear(s, a, f);
    assert !a.Renew? ==> Standing(s, a.t);
    hide Inv, Do, Near, Standing;
    OtherFrame(s, a, s');
    OtherFiber(s, a, s', f);
    OtherPlace(s, a, s', f);
    if s'.place[f].Running? && s'.place[f].t < |s.pc| && s'.pc[s'.place[f].t].Waiting? {
      OtherWait(s, a, s', s'.place[f].t);
    }
    hide Shape, Enabled;
  }

  lemma OtherSlotAsCalled(s: State, a: Action, f: nat, call: Option<Call>, s': State, call': Option<Call>)
    requires Inv(s) && Enabled(s, a) && s' == Do(s, a) && Shape(s') && f < |s.place|
    requires a.Advance? ==> !s.pc[a.t].Scan? && !s.pc[a.t].Waiting?
    requires NewCall(s, a, f, call, call') && OpenAsCalled(s, f, call)
    ensures OpenAsCalled(s', f, call')
  {
    OtherNear(s, a, f);
    assert !a.Renew? ==> Standing(s, a.t);
    hide Inv, Do, Near, Standing;
    OtherFrame(s, a, s');
    OtherFiber(s, a, s', f);
    if s.wake[f].InSlot? { OtherSlot(s, a, s', s.wake[f].id); }
    hide Shape, Enabled;
  }

  lemma OtherPinAsCalled(s: State, a: Action, f: nat, call: Option<Call>, s': State, call': Option<Call>)
    requires Inv(s) && Enabled(s, a) && s' == Do(s, a) && Shape(s') && f < |s.place|
    requires a.Advance? ==> !s.pc[a.t].Scan? && !s.pc[a.t].Waiting?
    requires NewCall(s, a, f, call, call') && PinnedAsCalled(s, f, call)
    ensures PinnedAsCalled(s', f, call')
  {
    OtherNear(s, a, f);
    assert !a.Renew? ==> Standing(s, a.t);
    hide Inv, Do, Near, Standing;
    FiberCountKept(s, a);
    OtherChosen(s, a, s', f);
    OtherFrame(s, a, s');
    OtherFiber(s, a, s', f);
    hide Shape, Enabled;
  }

  lemma OtherAsCalled(s: State, a: Action, f: nat, call: Option<Call>, s': State, call': Option<Call>)
    requires Inv(s) && Enabled(s, a) && s' == Do(s, a) && Shape(s') && f < |s.place|
    requires a.Advance? ==> !s.pc[a.t].Scan? && !s.pc[a.t].Waiting?
    requires NewCall(s, a, f, call, call') && AsCalled(s, f, call)
    ensures AsCalled(s', f, call')
  {
    hide Inv, Do, Enabled, NewCall, WaitsAsCalled, OpenAsCalled, PinnedAsCalled;
    OtherCallAsCalled(s, a, f, call, s', call');
    OtherSlotAsCalled(s, a, f, call, s', call');
    OtherPinAsCalled(s, a, f, call, s', call');
  }

  // ----- every step and every run

  lemma StepAsCalled(s: State, a: Action, f: nat, call: Option<Call>, s': State, call': Option<Call>)
    requires Inv(s) && Enabled(s, a) && s' == Do(s, a) && Shape(s') && f < |s.place|
    requires NewCall(s, a, f, call, call') && AsCalled(s, f, call)
    ensures f < |s'.place| && AsCalled(s', f, call')
  {
    FiberCountKept(s, a);
    if a.Advance? && s.pc[a.t].Scan? {
      NearOf(s, a.t, f);
      assert SlotOk(s, SlotId(s.pc[a.t].counter, s.pc[a.t].i));
      hide Inv, AsCalled, ScanStep, WaitStep, Near;
      ScanAsCalled(s, a.t, f, call, s');
    } else if a.Advance? && s.pc[a.t].Waiting? {
      hide Inv, AsCalled, ScanStep, WaitStep;
      WaitAsCalled(s, a.t, f, call, s');
    } else {
      hide Inv, AsCalled, Do, NewCall;
      OtherAsCalled(s, a, f, call, s', call');
    }
  }

  lemma StartAsCalled(s: State, f: nat)
    requires Init(s) && f < |s.place|
    ensures AsCalled(s, f, None)
  {
  }

  lemma RunAsCalledStep(states: seq<State>, actions: seq<Action>, f: nat, k: nat)
    requires RunOf(states, actions) && Init(states[0]) && k < |actions| && f < |states[0].place|
    requires Shape(states[k]) && f < |states[k].place| && AsCalled(states[k], f, LatestCall(states, actions, f, k))
    ensures Shape(states[k + 1]) && f < |states[k + 1].place| && AsCalled(states[k + 1], f, LatestCall(states, actions, f, k + 1))
  {
    RunInv(states, actions, k);
    RunInv(states, actions, k + 1);
    assert Shape(states[k + 1]);
    assert NewCall(states[k], actions[k], f, LatestCall(states, actions, f, k), LatestCall(states, actions, f, k + 1));
    hide Init, Inv, AsCalled, Do, LatestCall, NewCall, Shape, Disciplined;
    StepAsCalled(states[k], actions[k], f, LatestCall(states, actions, f, k), states[k + 1], LatestCall(states, actions, f, k + 1));
  }

  lemma {:induction false} RunAsCalled(states: seq<State>, actions: seq<Action>, f: nat, k: nat)
    requires RunOf(states, actions) && Init(states[0]) && k < |states| && f < |states[0].place|
    ensures Shape(states[k]) && f < |states[k].place| && AsCalled(states[k], f, LatestCall(states, actions, f, k))
  {
    assert |states| == |actions| + 1;
    if k == 0 {
      StartAsCalled(states[0], f);
    } else {
      hide *;
      RunAsCalled(states, actions, f, k - 1);
      RunAsCalledStep(states, actions, f, k - 1);
    }
  }

  /** What a caller passes to wait is what the program variables hold, until the wait is resolved
      and the fiber resumed: the waiter's own arguments, the slot open for it, and the thread that
      is about to switch to it. */
  ghost predicate RegisteredAsCalled(s: State, f: nat, call: Option<Call>) {
    && Shape(s)
    && (forall t: nat :: t < |s.pc| && s.cur[t] == f && s.pc[t].Waiting? ==>
         && call.Some? && t == call.value.t
         && s.pc[t].counter == call.value.counter && s.pc[t].target == call.value.target && s.pc[t].pin == PinOf(call.value))
    && (forall id :: id in s.slots && !s.slots[id].inUse && s.slots[id].fiber == f ==>
         && call.Some? && id.counter == call.value.counter
         && s.slots[id].target == call.value.target && s.slots[id].pin == PinOf(call.value))
    && (forall t: nat :: t < |s.pc| && s.pc[t] == Resume(f) ==> call.Some? && (call.value.pinned ==> t == call.value.t))
  }

  lemma AsCalledShows(s: State, f: nat, call: Option<Call>)
    requires Inv(s) && f < |s.place| && AsCalled(s, f, call)
    ensures RegisteredAsCalled(s, f, call)
  {
    forall t: nat | t < |s.pc| && s.cur[t] == f && s.pc[t].Waiting? ensures s.place[f] == Running(t) { assert ThreadOk(s, t); }
    forall id | id in s.slots && !s.slots[id].inUse && s.slots[id].fiber == f
      ensures s.wake[f] == InSlot(id) && s.holder[id].Opened?
    {
      assert SlotOk(s, id);
    }
    forall t: nat | t < |s.pc| && s.pc[t] == Resume(f)
      ensures s.place[f] == Chosen(t) && (s.home[f].Some? ==> s.home[f].value == t)
    {
      assert ThreadOk(s, t);
    }
    hide Inv;
  }

  /** Over every run: the wait that a fiber is in is registered with the counter, the target and
      the pinning of its call, and a pinned one is resumed by the calling thread, however often
      the fiber is put back in between. */
  lemma WaitsAreRegisteredAsCalled(states: seq<State>, actions: seq<Action>, f: nat, k: nat)
    requires RunOf(states, actions) && Init(states[0]) && k < |states| && f < |states[0].place|
    ensures RegisteredAsCalled(states[k], f, LatestCall(states, actions, f, k))
  {
    RunInv(states, actions, k);
    RunAsCalled(states, actions, f, k);
    AsCalledShows(states[k], f, LatestCall(states, actions, f, k));
  }
}

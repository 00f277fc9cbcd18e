/**
  How a wait ends: over every run a fiber comes back from wait only after its wait was resolved for
  the counter and the target of its call, and it reaches the "slots are full" panic only after it
  has found every slot taken.
 */
module WaitOutcomes {
  import opened Prelude
  import opened SchedulerCore
  import opened SchedulerInv
  import opened SchedulerProof
  import opened SchedulerTheorems
  import opened SchedulerCalls

  // ----- what one step does to a control point --------------------------------------------------------

  lemma ScanLeavesOthers(s: State, t: nat, u: nat)
    requires CanAdvance(s, t) && s.pc[t].Scan? && u < |s.pc| && u != t
    ensures u < |ScanStep(s, t).pc| && ScanStep(s, t).pc[u] == s.pc[u] && ScanStep(s, t).cur == s.cur
    ensures |ScanStep(s, t).pc| == |s.pc|
  {
  }

  lemma WaitLeavesOthers(s: State, t: nat, u: nat)
    requires CanAdvance(s, t) && s.pc[t].Waiting? && u < |s.pc| && u != t
    ensures |WaitStep(s, t).pc| == |s.pc| && |WaitStep(s, t).cur| == |s.cur|
    ensures WaitStep(s, t).pc[u] == s.pc[u] && WaitStep(s, t).cur[u] == s.cur[u]
  {
  }

  /** A thread's own steps are the only ones that move it. */
  lemma OthersLeaveThread(s: State, a: Action, u: nat)
    requires Enabled(s, a) && u < |s.pc| && (a.Renew? || a.t != u)
    ensures u < |Do(s, a).pc| == |Do(s, a).cur| && Do(s, a).pc[u] == s.pc[u] && Do(s, a).cur[u] == s.cur[u]
  {
    if a.Advance? && s.pc[a.t].Scan? {
      ScanLeavesOthers(s, a.t, u);
    } else if a.Advance? && s.pc[a.t].Waiting? {
      WaitLeavesOthers(s, a.t, u);
    }
    hide ScanStep, WaitStep;
  }

  /** Before a waiter has a slot it tries them one by one, and passes only taken ones. */
  lemma TryMoves(s: State, t: nat)
    requires CanAdvance(s, t) && s.pc[t].Waiting? && (s.pc[t].wait.Begin? || s.pc[t].wait.Try?)
    ensures
      var s', pc := WaitStep(s, t), s.pc[t];
      && |s'.pc| == |s.pc| && s'.cur == s.cur && |s'.wake| == |s.wake|
      && if pc.wait.Begin? then s'.pc[t] == pc.(wait := Try(0))
         else if s.slots[SlotId(pc.counter, pc.wait.i)].free then
           s'.pc[t] == pc.(wait := Fill(pc.wait.i)) && s'.wake[s.cur[t]] == InSlot(SlotId(pc.counter, pc.wait.i))
         else s'.pc[t] == pc.(wait := Try(pc.wait.i + 1))
  {
  }

  /** A waiter at Try(n) came there from the slot before, which it found taken. */
  lemma TryCameFrom(s: State, a: Action, t: nat)
    requires Enabled(s, a) && t < |s.pc| && t < |Do(s, a).pc| && Do(s, a).pc[t].Waiting? && Do(s, a).pc[t].wait.Try? && Do(s, a).pc[t].wait.i > 0
    ensures
      var pc := Do(s, a).pc[t];
      || s.pc[t] == pc
      || (&& a == Advance(t) && s.pc[t] == pc.(wait := Try(pc.wait.i - 1)) && SlotId(pc.counter, pc.wait.i - 1) in s.slots
          && !s.slots[SlotId(pc.counter, pc.wait.i - 1)].free)
  {
    if a.Renew? || a.t != t {
      OthersLeaveThread(s, a, t);
    } else if a.Advance? && s.pc[t].Scan? {
      ScanFrame(s, t, Do(s, a));
    } else if a.Advance? && s.pc[t].Waiting? {
      TryBefore(s, t);
    }
    hide ScanStep, WaitStep;
  }

  lemma TryBefore(s: State, t: nat)
    requires CanAdvance(s, t) && s.pc[t].Waiting?
    ensures t < |WaitStep(s, t).pc|
    ensures
      var pc := WaitStep(s, t).pc[t];
      pc.Waiting? && pc.wait.Try? && pc.wait.i > 0 ==>
        && s.pc[t] == pc.(wait := Try(pc.wait.i - 1)) && SlotId(pc.counter, pc.wait.i - 1) in s.slots
        && !s.slots[SlotId(pc.counter, pc.wait.i - 1)].free
  {
  }

  // ----- the slots tried -----------------------------------------------------------------------------------

  /** Thread t stays inside one wait from state l to state k. */
  ghost predicate StaysWaiting(states: seq<State>, t: nat, l: nat, k: nat) {
    l <= k < |states| && forall i :: l <= i <= k ==> t < |states[i].pc| && states[i].pc[t].Waiting?
  }

  /** In the step at l thread t tried slot i of the counter and found it taken. */
  ghost predicate FoundTaken(states: seq<State>, actions: seq<Action>, t: nat, l: nat, pc: Pc, i: nat)
    requires pc.Waiting?
  {
    && l < |actions| && l < |states| && actions[l] == Advance(t) && t < |states[l].pc| && states[l].pc[t] == pc.(wait := Try(i))
    && SlotId(pc.counter, i) in states[l].slots && !states[l].slots[SlotId(pc.counter, i)].free
  }

  /** At some step within this wait thread t found slot i taken. */
  ghost predicate WasTaken(states: seq<State>, actions: seq<Action>, t: nat, k: nat, i: nat) {
    k < |states| && t < |states[k].pc| && states[k].pc[t].Waiting? &&
    exists l: nat :: StaysWaiting(states, t, l, k) && FoundTaken(states, actions, t, l, states[k].pc[t], i)
  }

  lemma TryStep(states: seq<State>, actions: seq<Action>, t: nat, k: nat)
    requires RunOf(states, actions) && Init(states[0]) && k < |states| && t < |states[k].pc|
    requires states[k].pc[t].Waiting? && states[k].pc[t].wait.Try? && states[k].pc[t].wait.i > 0
    ensures k > 0 && t < |states[k - 1].pc|
    ensures states[k - 1].pc[t] == states[k].pc[t] || FoundTaken(states, actions, t, k - 1, states[k].pc[t], states[k].pc[t].wait.i - 1)
  {
    NobodyWaitsAtStart(states[0], t);
    assert |states| == |actions| + 1;
    hide RunOf, Init, Do, Enabled;
    RunStep(states, actions, k - 1);
    ThreadCountKept(states[k - 1], actions[k - 1]);
    TryCameFrom(states[k - 1], actions[k - 1], t);
  }

  lemma {:induction false} SlotWasTried(states: seq<State>, actions: seq<Action>, t: nat, k: nat, i: nat)
    requires RunOf(states, actions) && Init(states[0]) && k < |states| && t < |states[k].pc|
    requires states[k].pc[t].Waiting? && states[k].pc[t].wait.Try? && i < states[k].pc[t].wait.i
    ensures WasTaken(states, actions, t, k, i)
    decreases k
  {
    hide RunOf, Init;
    TryStep(states, actions, t, k);
    var pc := states[k].pc[t];
    if states[k - 1].pc[t] == pc || i < pc.wait.i - 1 {
      SlotWasTried(states, actions, t, k - 1, i);
      var l: nat :| StaysWaiting(states, t, l, k - 1) && FoundTaken(states, actions, t, l, states[k - 1].pc[t], i);
      assert StaysWaiting(states, t, l, k) && FoundTaken(states, actions, t, l, pc, i);
    } else {
      assert StaysWaiting(states, t, k - 1, k) && FoundTaken(states, actions, t, k - 1, pc, i);
    }
  }

  lemma NobodyWaitsAtStart(s: State, t: nat)
    requires Init(s)
    ensures t < |s.pc| ==> !s.pc[t].Waiting? && !s.pc[t].Scan?
  {
  }

  lemma ThreadCountKept(s: State, a: Action)
    requires Enabled(s, a)
    ensures |Do(s, a).pc| == |s.pc|
  {
    if a.Advance? && s.pc[a.t].Scan? {
      ScanFrame(s, a.t, Do(s, a));
    } else if a.Advance? && s.pc[a.t].Waiting? {
      WaitFrame(s, a.t, Do(s, a));
    }
    hide ScanStep, WaitStep;
  }

  /** A waiter that has come to slot n of a counter has, within this wait, found each slot below
      n taken at its own CAS on it. */
  lemma PassedSlotsWereTaken(states: seq<State>, actions: seq<Action>, t: nat, k: nat)
    requires RunOf(states, actions) && Init(states[0]) && k < |states| && t < |states[k].pc|
    requires states[k].pc[t].Waiting? && states[k].pc[t].wait.Try?
    ensures forall i: nat :: i < states[k].pc[t].wait.i ==> WasTaken(states, actions, t, k, i)
  {
    forall i: nat | i < states[k].pc[t].wait.i ensures WasTaken(states, actions, t, k, i) {
      SlotWasTried(states, actions, t, k, i);
    }
  }

  /** Where the slot it comes to is free, the waiter registers in that slot and in no other. */
  lemma RegistersWhereFree(s: State, t: nat, id: SlotId)
    requires Inv(s) && t < |s.pc| && s.pc[t].Waiting? && id in s.slots && s.pc[t].counter == id.counter
    requires s.pc[t].wait == Try(id.index) && s.slots[id].free
    ensures Enabled(s, Advance(t))
    ensures
      var s' := Do(s, Advance(t));
      && s'.slots == s.slots[id := s.slots[id].(free := false)]
      && s.cur[t] < |s'.wake| && s'.wake[s.cur[t]] == InSlot(id)
  {
    TryMoves(s, t);
  }

  /** In every state of every run a thread's next step is possible, except that a waiter panics
      after it has found all slots of its counter taken, and that it spins for an idle fiber. */
  lemma NeverStuckInRuns(states: seq<State>, actions: seq<Action>, k: nat, t: nat)
    requires RunOf(states, actions) && Init(states[0]) && k < |states| && t < |states[k].pc|
    ensures
      var s := states[k];
      || CanAdvance(s, t) || s.pc[t].Loop? || s.pc[t].User?
      || (s.pc[t].Waiting? && forall i: nat :: i < s.width ==> WasTaken(states, actions, t, k, i))
      || (s.pc[t].Waiting? && s.pc[t].wait.Take? && s.idle == [])
  {
    RunInv(states, actions, k);
    NeverStuck(states[k], t);
    if states[k].pc[t].Waiting? && states[k].pc[t].wait == Try(states[k].width) {
      PassedSlotsWereTaken(states, actions, t, k);
    }
  }

  // ----- the values compared --------------------------------------------------------------------------------

  /** The count that a waiter remembers is one that the counter had within this wait. */
  ghost predicate WasCount(states: seq<State>, t: nat, k: nat, c: nat, v: int) {
    exists l: nat :: StaysWaiting(states, t, l, k) && c < |states[l].counts| && states[l].counts[c] == v
  }

  predicate Remembers(ph: WaitPhase) {
    ph.Check? || ph.Compare? || ph.Cas?
  }

  lemma WaitLoads(s: State, t: nat)
    requires CanAdvance(s, t) && s.pc[t].Waiting?
    ensures t < |WaitStep(s, t).pc|
    ensures
      var pc := WaitStep(s, t).pc[t];
      pc.Waiting? && Remembers(pc.wait) ==>
        && s.pc[t].counter == pc.counter
        && ((Remembers(s.pc[t].wait) && s.pc[t].wait.seen == pc.wait.seen) || s.counts[pc.counter] == pc.wait.seen)
  {
  }

  lemma LoadCameFrom(s: State, a: Action, t: nat)
    requires Enabled(s, a) && t < |s.pc| && t < |Do(s, a).pc| && Do(s, a).pc[t].Waiting? && Remembers(Do(s, a).pc[t].wait)
    ensures
      var pc := Do(s, a).pc[t];
      && s.pc[t].Waiting? && s.pc[t].counter == pc.counter < |s.counts|
      && ((Remembers(s.pc[t].wait) && s.pc[t].wait.seen == pc.wait.seen) || s.counts[pc.counter] == pc.wait.seen)
  {
    if a.Renew? || a.t != t {
      OthersLeaveThread(s, a, t);
    } else if a.Advance? && s.pc[t].Scan? {
      ScanFrame(s, t, Do(s, a));
    } else if a.Advance? && s.pc[t].Waiting? {
      WaitLoads(s, t);
    }
    hide ScanStep, WaitStep;
  }

  lemma LoadStep(states: seq<State>, actions: seq<Action>, t: nat, k: nat)
    requires RunOf(states, actions) && Init(states[0]) && k < |states| && t < |states[k].pc|
    requires states[k].pc[t].Waiting? && Remembers(states[k].pc[t].wait)
    ensures k > 0 && t < |states[k - 1].pc| && states[k - 1].pc[t].Waiting?
    ensures states[k - 1].pc[t].counter == states[k].pc[t].counter < |states[k - 1].counts|
    ensures
      || (Remembers(states[k - 1].pc[t].wait) && states[k - 1].pc[t].wait.seen == states[k].pc[t].wait.seen)
      || states[k - 1].counts[states[k].pc[t].counter] == states[k].pc[t].wait.seen
  {
    NobodyWaitsAtStart(states[0], t);
    assert |states| == |actions| + 1;
    hide RunOf, Init, Do, Enabled;
    RunStep(states, actions, k - 1);
    ThreadCountKept(states[k - 1], actions[k - 1]);
    LoadCameFrom(states[k - 1], actions[k - 1], t);
  }

  lemma {:induction false} SeenWasCount(states: seq<State>, actions: seq<Action>, t: nat, k: nat)
    requires RunOf(states, actions) && Init(states[0]) && k < |states| && t < |states[k].pc|
    requires states[k].pc[t].Waiting? && Remembers(states[k].pc[t].wait)
    ensures WasCount(states, t, k, states[k].pc[t].counter, states[k].pc[t].wait.seen)
    decreases k
  {
    hide RunOf, Init;
    LoadStep(states, actions, t, k);
    var c, v := states[k].pc[t].counter, states[k].pc[t].wait.seen;
    if Remembers(states[k - 1].pc[t].wait) && states[k - 1].pc[t].wait.seen == v {
      SeenWasCount(states, actions, t, k - 1);
      var l: nat :| StaysWaiting(states, t, l, k - 1) && c < |states[l].counts| && states[l].counts[c] == v;
      assert StaysWaiting(states, t, l, k);
    } else {
      assert StaysWaiting(states, t, k - 1, k);
    }
  }

  /** The value that a scan looks for is one that the counter had. */
  ghost predicate HadValue(states: seq<State>, k: nat, c: nat, v: int) {
    exists l: nat :: l <= k < |states| && c < |states[l].counts| && states[l].counts[c] == v
  }

  lemma ScanGoesOn(s: State, t: nat)
    requires CanAdvance(s, t) && s.pc[t].Scan?
    ensures t < |ScanStep(s, t).pc|
    ensures ScanStep(s, t).pc[t].Scan? ==>
      ScanStep(s, t).pc[t].counter == s.pc[t].counter && ScanStep(s, t).pc[t].value == s.pc[t].value
  {
  }

  lemma WaitIsNoScan(s: State, t: nat)
    requires CanAdvance(s, t) && s.pc[t].Waiting?
    ensures t < |WaitStep(s, t).pc| && !WaitStep(s, t).pc[t].Scan?
  {
  }

  lemma ScanCameFrom(s: State, a: Action, t: nat)
    requires Enabled(s, a) && t < |s.pc| && t < |Do(s, a).pc| && Do(s, a).pc[t].Scan?
    ensures
      var pc := Do(s, a).pc[t];
      || (s.pc[t].Scan? && s.pc[t].counter == pc.counter && s.pc[t].value == pc.value)
      || (pc.counter < |Do(s, a).counts| && Do(s, a).counts[pc.counter] == pc.value)
  {
    if a.Renew? || a.t != t {
      OthersLeaveThread(s, a, t);
    } else if a.Advance? && s.pc[t].Scan? {
      ScanGoesOn(s, t);
    } else if a.Advance? && s.pc[t].Waiting? {
      WaitIsNoScan(s, t);
    }
    hide ScanStep, WaitStep;
  }

  lemma {:induction false} ScanValueWasCount(states: seq<State>, actions: seq<Action>, t: nat, k: nat)
    requires RunOf(states, actions) && Init(states[0]) && k < |states| && t < |states[k].pc| && states[k].pc[t].Scan?
    ensures HadValue(states, k, states[k].pc[t].counter, states[k].pc[t].value)
    decreases k
  {
    NobodyWaitsAtStart(states[0], t);
    assert |states| == |actions| + 1;
    hide RunOf, Init, Do, Enabled;
    RunStep(states, actions, k - 1);
    ThreadCountKept(states[k - 1], actions[k - 1]);
    ScanCameFrom(states[k - 1], actions[k - 1], t);
    var c, v := states[k].pc[t].counter, states[k].pc[t].value;
    if states[k - 1].pc[t].Scan? && states[k - 1].pc[t].counter == c && states[k - 1].pc[t].value == v {
      ScanValueWasCount(states, actions, t, k - 1);
      var l: nat :| l <= k - 1 && c < |states[l].counts| && states[l].counts[c] == v;
      assert l <= k && c < |states[l].counts|;
    }
  }

  // ----- from the call to the return ------------------------------------------------------------------------

  /** The wait of fiber f has not been resolved: it is looking for a slot, or registered in one. */
  ghost predicate Unresolved(s: State, f: nat)
    requires Shape(s) && f < |s.place|
  {
    || s.wake[f].InSlot?
    || (s.place[f].Running? && s.place[f].t < |s.pc| && s.pc[s.place[f].t].Waiting?
        && (s.pc[s.place[f].t].wait.Begin? || s.pc[s.place[f].t].wait.Try?))
  }

  /** The action resolves the wait of fiber f, for the given counter, target and pin: the early
      return of its own wait, having seen the target, or a checker's claim with the target as value. */
  ghost predicate ResolvesAs(s: State, a: Action, f: nat, c: nat, target: int, pin: Option<nat>)
    requires Enabled(s, a)
  {
    || (ReturnsEarly(s, a, f) && s.pc[a.t].counter == c && s.pc[a.t].wait.seen == target && s.pc[a.t].target == target)
    || (Wakes(s, a, f) && s.pc[a.t].counter == c && s.pc[a.t].value == target
        && s.slots[SlotId(c, s.pc[a.t].i)].target == target && s.slots[SlotId(c, s.pc[a.t].i)].pin == pin)
  }

  /** Until then the fiber stays in its wait. */
  lemma StaysRegistered(s: State, a: Action, f: nat)
    requires Inv(s) && Enabled(s, a) && f < |s.place| && s.wake[f].InSlot? && !ReturnsEarly(s, a, f) && !Wakes(s, a, f)
    ensures f < |Do(s, a).wake| && Do(s, a).wake[f].InSlot?
  {
    hide Do;
    TokenMoves(s, a, f);
    hide Inv, Registers, ReturnsEarly, Wakes, Resumes, Enqueues, Dequeues, PutsBack;
  }

  lemma CallerIsAwake(s: State, a: Action, f: nat)
    requires Inv(s) && Enabled(s, a) && Calls(s, a, f)
    ensures f < |s.place| && !Unresolved(s, f)
  {
    assert ThreadOk(s, a.t);
  }

  lemma StaysTrying(s: State, a: Action, f: nat)
    requires Inv(s) && Enabled(s, a) && Inv(Do(s, a)) && f < |s.place| && Unresolved(s, f) && !s.wake[f].InSlot?
    ensures f < |Do(s, a).place| && Unresolved(Do(s, a), f)
  {
    FiberCountKept(s, a);
    assert FiberOk(s, f);
    var v := s.place[f].t;
    if a.Renew? || a.t != v {
      OthersLeaveThread(s, a, v);
      assert ThreadOk(Do(s, a), v);
    } else {
      TryMoves(s, v);
      assert |Do(s, a).pc| == |s.pc| && ThreadOk(Do(s, a), v);
    }
    hide ScanStep, WaitStep, Do;
  }

  lemma StaysUnresolved(s: State, a: Action, f: nat)
    requires Inv(s) && Enabled(s, a) && Inv(Do(s, a)) && f < |s.place| && Unresolved(s, f)
    requires !ReturnsEarly(s, a, f) && !Wakes(s, a, f)
    ensures f < |Do(s, a).place| && Unresolved(Do(s, a), f) && !Calls(s, a, f)
  {
    FiberCountKept(s, a);
    if Calls(s, a, f) { CallerIsAwake(s, a, f); }
    assert Shape(Do(s, a));
    hide Do, ReturnsEarly, Wakes, Calls;
    if s.wake[f].InSlot? { StaysRegistered(s, a, f); } else { StaysTrying(s, a, f); }
    hide Inv, Shape;
  }

  /** An action that resolves a wait resolves the one that was called for. */
  lemma ResolvesAsCalled(s: State, a: Action, f: nat, call: Call)
    requires Inv(s) && Enabled(s, a) && f < |s.place| && AsCalled(s, f, Some(call)) && (ReturnsEarly(s, a, f) || Wakes(s, a, f))
    ensures ResolvesAs(s, a, f, call.counter, call.target, PinOf(call))
  {
    assert ThreadOk(s, a.t);
    AsCalledShows(s, f, Some(call));
    hide AsCalled;
  }

  /** In user code nothing is unresolved. */
  lemma BackInTask(s: State, f: nat, u: nat)
    requires Inv(s) && u < |s.pc| && s.cur[u] == f && s.pc[u].User?
    ensures f < |s.place| && !Unresolved(s, f)
  {
    assert ThreadOk(s, u);
  }

  /** The call that action k of a run makes. */
  ghost function CallAt(states: seq<State>, actions: seq<Action>, k: nat): Call
    requires k < |actions| && actions[k].Wait?
  {
    Call(k, actions[k].t, actions[k].counter, actions[k].target, actions[k].pinned)
  }

  ghost predicate ResolvedAt(states: seq<State>, actions: seq<Action>, m: nat, f: nat, call: Call) {
    && m < |actions| && m < |states| && call.at < m && Enabled(states[m], actions[m])
    && ResolvesAs(states[m], actions[m], f, call.counter, call.target, PinOf(call))
    && LatestCallIs(states, actions, f, m, call)
  }

  ghost predicate LatestCallIs(states: seq<State>, actions: seq<Action>, f: nat, k: nat, call: Call) {
    |states| == |actions| + 1 && k <= |actions| && LatestCall(states, actions, f, k) == Some(call)
  }

  /** Fiber f's call is resolved before step j, or unresolved at it. */
  ghost predicate Pursued(states: seq<State>, actions: seq<Action>, f: nat, call: Call, j: nat) {
    || (exists m: nat :: m < j && ResolvedAt(states, actions, m, f, call))
    || (j < |states| && Shape(states[j]) && f < |states[j].place| && Unresolved(states[j], f) && LatestCallIs(states, actions, f, j, call))
  }

  lemma PursueFirst(states: seq<State>, actions: seq<Action>, f: nat, k: nat)
    requires RunOf(states, actions) && Init(states[0]) && k < |actions| && f < |states[0].place| && Calls(states[k], actions[k], f)
    ensures Pursued(states, actions, f, CallAt(states, actions, k), k + 1)
  {
    RunInv(states, actions, k);
    RunInv(states, actions, k + 1);
    RunStep(states, actions, k);
    assert ThreadOk(states[k], actions[k].t);
    hide RunOf, Init, ScanStep, WaitStep;
    FiberCountKept(states[k], actions[k]);
    assert Shape(states[k + 1]);
    hide Inv;
    assert LatestCallIs(states, actions, f, k + 1, CallAt(states, actions, k));
    assert Unresolved(states[k + 1], f);
  }

  lemma PursueStep(states: seq<State>, actions: seq<Action>, f: nat, call: Call, j: nat)
    requires RunOf(states, actions) && Init(states[0]) && j < |actions| && f < |states[0].place| && call.at < j
    requires Pursued(states, actions, f, call, j)
    ensures Pursued(states, actions, f, call, j + 1)
  {
    if exists m: nat :: m < j && ResolvedAt(states, actions, m, f, call) {
      var m: nat :| m < j && ResolvedAt(states, actions, m, f, call);
      assert m < j + 1 && ResolvedAt(states, actions, m, f, call);
    } else {
      hide Pursued, ResolvedAt, Unresolved, Init, Do, Enabled, Disciplined;
      PursueUnresolved(states, actions, f, call, j);
    }
  }

  lemma PursueUnresolved(states: seq<State>, actions: seq<Action>, f: nat, call: Call, j: nat)
    requires RunOf(states, actions) && Init(states[0]) && j < |actions| && f < |states[0].place| && call.at < j
    requires Pursued(states, actions, f, call, j) && !exists m: nat :: m < j && ResolvedAt(states, actions, m, f, call)
    ensures Pursued(states, actions, f, call, j + 1)
  {
    RunInv(states, actions, j);
    RunInv(states, actions, j + 1);
    RunAsCalled(states, actions, f, j);
    var s, a := states[j], actions[j];
    assert Shape(s) && f < |s.place| && Unresolved(s, f) && LatestCall(states, actions, f, j) == Some(call);
    hide RunOf, Init, Do, Disciplined, AsCalled, Unresolved;
    RunStep(states, actions, j);
    if ReturnsEarly(s, a, f) || Wakes(s, a, f) {
      ResolvesAsCalled(s, a, f, call);
      assert j < j + 1 && ResolvedAt(states, actions, j, f, call);
    } else {
      StaysUnresolved(s, a, f);
      hide ReturnsEarly, Wakes, Inv;
      assert LatestCallIs(states, actions, f, j + 1, call);
    }
  }

  lemma RunLength(states: seq<State>, actions: seq<Action>)
    requires RunOf(states, actions)
    ensures |states| == |actions| + 1
  {
  }

  lemma CallIsMadeAt(states: seq<State>, actions: seq<Action>, f: nat, k: nat)
    requires k < |actions| && k < |states| && Calls(states[k], actions[k], f)
    ensures actions[k].Wait? && CallAt(states, actions, k).at == k
  {
  }

  lemma {:induction false} Pursue(states: seq<State>, actions: seq<Action>, f: nat, k: nat, j: nat)
    requires RunOf(states, actions) && Init(states[0]) && k < j <= |actions| && f < |states[0].place| && Calls(states[k], actions[k], f)
    ensures Pursued(states, actions, f, CallAt(states, actions, k), j)
    decreases j
  {
    hide *;
    RunLength(states, actions);
    CallIsMadeAt(states, actions, f, k);
    if j == k + 1 {
      PursueFirst(states, actions, f, k);
    } else {
      Pursue(states, actions, f, k, j - 1);
      PursueStep(states, actions, f, CallAt(states, actions, k), j - 1);
    }
  }

  /** A fiber that called wait and is back in task code has had its wait resolved in between, for
      exactly the counter and the target it passed. */
  lemma WaitEndsResolved(states: seq<State>, actions: seq<Action>, f: nat, k: nat, j: nat, u: nat) returns (m: nat)
    requires RunOf(states, actions) && Init(states[0]) && k < j <= |actions| && f < |states[0].place| && Calls(states[k], actions[k], f)
    requires u < |states[j].pc| && u < |states[j].cur| && states[j].cur[u] == f && states[j].pc[u].User?
    ensures k < m < j && ResolvedAt(states, actions, m, f, CallAt(states, actions, k))
  {
    Pursue(states, actions, f, k, j);
    RunInv(states, actions, j);
    BackInTask(states[j], f, u);
    hide RunOf, Init, Inv, Unresolved, ResolvedAt;
    m :| m < j && ResolvedAt(states, actions, m, f, CallAt(states, actions, k));
    assert k < m by { CallBefore(states, actions, m, f, CallAt(states, actions, k)); }
  }

  lemma CallBefore(states: seq<State>, actions: seq<Action>, m: nat, f: nat, call: Call)
    requires ResolvedAt(states, actions, m, f, call)
    ensures call.at < m
  {
  }

  /** The count was the target at some moment before the resolution, and for an early return within
      the wait itself. */
  lemma ResolvedForACountThatWas(states: seq<State>, actions: seq<Action>, f: nat, call: Call, m: nat)
    requires RunOf(states, actions) && Init(states[0]) && ResolvedAt(states, actions, m, f, call)
    ensures HadValue(states, m, call.counter, call.target)
    ensures ReturnsEarly(states[m], actions[m], f) ==> WasCount(states, actions[m].t, m, call.counter, call.target)
  {
    if ReturnsEarly(states[m], actions[m], f) {
      SeenWasCount(states, actions, actions[m].t, m);
      var l: nat :| StaysWaiting(states, actions[m].t, l, m) && call.counter < |states[l].counts| && states[l].counts[call.counter] == call.target;
      assert l <= m && call.counter < |states[l].counts|;
    } else {
      ScanValueWasCount(states, actions, actions[m].t, m);
    }
  }
}

/**
  Every disciplined step keeps the invariant.  For each action there is a local lemma, which
  follows one thread, one fiber and one slot through the step, and a lemma that puts the
  entities together again.
 */
module SchedulerProof {
  import opened Prelude
  import opened SchedulerCore
  import opened SchedulerInv

  // ----- following single entities through a step ----------------------------------------

  /** What the invariant says about fiber g and its partners. */
  ghost predicate FiberFacts(s: State, g: nat)
    requires Shape(s)
  {
    g < |s.place| ==>
      && FiberOk(s, g)
      && (s.wake[g].Claimed? ==> ThreadOk(s, s.wake[g].t))
      && (s.wake[g].InSlot? ==> SlotOk(s, s.wake[g].id))
  }

  /** What the invariant says about slot x and its fiber. */
  ghost predicate SlotFacts(s: State, x: SlotId)
    requires Shape(s)
  {
    x in s.slots ==> SlotOk(s, x) && NotLost(s, x) && FiberOk(s, s.slots[x].fiber)
  }

  ghost predicate KeptThread(s: State, u: nat)
    requires Shape(s)
  {
    u < |s.pc| ==> ThreadOk(s, u)
  }

  ghost predicate KeptFiber(s: State, g: nat)
    requires Shape(s)
  {
    g < |s.place| ==> FiberOk(s, g)
  }

  ghost predicate KeptSlot(s: State, x: SlotId)
    requires Shape(s)
  {
    x in s.slots ==> SlotOk(s, x) && NotLost(s, x)
  }

  ghost predicate Kept(s: State, u: nat, g: nat, x: SlotId)
    requires Shape(s)
  {
    KeptThread(s, u) && KeptFiber(s, g) && KeptSlot(s, x)
  }

  lemma FactsOf(s: State, u: nat, g: nat, x: SlotId)
    requires Inv(s)
    ensures KeptThread(s, u) && FiberFacts(s, g) && SlotFacts(s, x)
  {
  }

  lemma Whole(s: State)
    requires Shape(s) && QueuesOk(s)
    requires forall u: nat, g: nat, x: SlotId :: Kept(s, u, g, x)
    ensures Inv(s)
  {
    forall u: nat | u < |s.pc| ensures ThreadOk(s, u) { assert Kept(s, u, 0, SlotId(0, 0)); }
    forall g: nat | g < |s.place| ensures FiberOk(s, g) { assert Kept(s, 0, g, SlotId(0, 0)); }
    forall x | x in s.slots ensures SlotOk(s, x) && NotLost(s, x) { assert Kept(s, 0, 0, x); }
  }

  /** Thread t stands at a control point that satisfies the invariant. */
  ghost predicate Standing(s: State, t: nat) {
    Shape(s) && t < |s.pc| && ThreadOk(s, t)
  }

  /** Thread t scans slot id and is at the given phase. */
  ghost predicate Scanning(s: State, t: nat, id: SlotId, phase: ScanPhase) {
    && Standing(s, t)
    && s.pc[t].Scan? && id == SlotId(s.pc[t].counter, s.pc[t].i) && s.pc[t].phase == phase
    && SlotOk(s, id)
  }

  /** Thread t works on its own waiting slot id and is at the given phase. */
  ghost predicate Registering(s: State, t: nat, id: SlotId, ph: WaitPhase) {
    && Standing(s, t)
    && s.pc[t].Waiting? && s.pc[t].counter == id.counter && s.pc[t].wait == ph
    && id in s.slots && SlotOk(s, id)
  }

  // ----- cleanUpPrevFiber -------------------------------------------------------------------

  ghost predicate CleanUpStep(s: State, t: nat, s': State) {
    && Standing(s, t) && s.pc[t].Clean?
    && s' == CleanUp(s, t) && Shape(s')
  }

  lemma CleanUpThread(s: State, t: nat, u: nat, s': State)
    requires CleanUpStep(s, t, s') && KeptThread(s, u)
    ensures KeptThread(s', u)
  {
  }

  lemma CleanUpFiber(s: State, t: nat, g: nat, s': State)
    requires CleanUpStep(s, t, s') && FiberFacts(s, g)
    ensures KeptFiber(s', g)
  {
  }

  lemma CleanUpSlot(s: State, t: nat, x: SlotId, s': State)
    requires CleanUpStep(s, t, s') && SlotFacts(s, x)
    ensures KeptSlot(s', x)
  {
  }

  lemma CleanUpInv(s: State, t: nat)
    requires Inv(s) && t < |s.pc| && s.pc[t].Clean?
    ensures Inv(CleanUp(s, t))
  {
    assert ThreadOk(s, t);
    var s' := CleanUp(s, t);
    assert QueuesOk(s') && CleanUpStep(s, t, s');
    hide ThreadOk, FiberOk, SlotOk, NotLost, QueuesOk, CleanUpStep;
    forall u: nat, g: nat, x: SlotId ensures Kept(s', u, g, x) {
      FactsOf(s, u, g, x);
      CleanUpThread(s, t, u, s');
      CleanUpFiber(s, t, g, s');
      CleanUpSlot(s, t, x, s');
    }
    Whole(s');
  }

  // ----- getNextTask: the resumable queues --------------------------------------------------

  ghost predicate TakePinnedStep(s: State, t: nat, s': State) {
    && Standing(s, t) && s.pc[t].Loop? && s.pinned[t] != [] && WakeQueue(s, s.pinned[t], Queued(Some(t)))
    && FiberOk(s, s.pinned[t][0])
    && s' == TakePinned(s, t) && Shape(s')
  }

  lemma TakePinnedThread(s: State, t: nat, u: nat, s': State)
    requires TakePinnedStep(s, t, s') && KeptThread(s, u)
    ensures KeptThread(s', u)
  {
  }

  lemma TakePinnedFiber(s: State, t: nat, g: nat, s': State)
    requires TakePinnedStep(s, t, s') && FiberFacts(s, g)
    ensures KeptFiber(s', g)
  {
  }

  lemma TakePinnedSlot(s: State, t: nat, x: SlotId, s': State)
    requires TakePinnedStep(s, t, s') && SlotFacts(s, x)
    ensures KeptSlot(s', x)
  {
  }

  lemma TakePinnedInv(s: State, t: nat)
    requires Inv(s) && t < |s.pc| && s.pc[t].Loop? && s.pinned[t] != []
    ensures s.pinned[t][0] < |s.place| && Inv(TakePinned(s, t))
  {
    assert ThreadOk(s, t); assert WakeQueue(s, s.pinned[t], Queued(Some(t)));
    var s' := TakePinned(s, t);
    assert QueuesOk(s') && TakePinnedStep(s, t, s');
    hide ThreadOk, FiberOk, SlotOk, NotLost, QueuesOk, TakePinnedStep;
    forall u: nat, g: nat, x: SlotId ensures Kept(s', u, g, x) {
      FactsOf(s, u, g, x);
      TakePinnedThread(s, t, u, s');
      TakePinnedFiber(s, t, g, s');
      TakePinnedSlot(s, t, x, s');
    }
    Whole(s');
  }

  ghost predicate TakeReadyStep(s: State, t: nat, s': State) {
    && Standing(s, t) && s.pc[t].Loop? && s.ready != [] && WakeQueue(s, s.ready, Queued(None))
    && FiberOk(s, s.ready[0])
    && s' == TakeReady(s, t) && Shape(s')
  }

  lemma TakeReadyThread(s: State, t: nat, u: nat, s': State)
    requires TakeReadyStep(s, t, s') && KeptThread(s, u)
    ensures KeptThread(s', u)
  {
  }

  lemma TakeReadyFiber(s: State, t: nat, g: nat, s': State)
    requires TakeReadyStep(s, t, s') && FiberFacts(s, g)
    ensures KeptFiber(s', g)
  {
  }

  lemma TakeReadySlot(s: State, t: nat, x: SlotId, s': State)
    requires TakeReadyStep(s, t, s') && SlotFacts(s, x)
    ensures KeptSlot(s', x)
  {
  }

  lemma TakeReadyInv(s: State, t: nat)
    requires Inv(s) && t < |s.pc| && s.pc[t].Loop? && s.ready != []
    ensures s.ready[0] < |s.place| && Inv(TakeReady(s, t))
  {
    assert ThreadOk(s, t);
    var s' := TakeReady(s, t);
    assert QueuesOk(s') && TakeReadyStep(s, t, s');
    hide ThreadOk, FiberOk, SlotOk, NotLost, QueuesOk, TakeReadyStep;
    forall u: nat, g: nat, x: SlotId ensures Kept(s', u, g, x) {
      FactsOf(s, u, g, x);
      TakeReadyThread(s, t, u, s');
      TakeReadyFiber(s, t, g, s');
      TakeReadySlot(s, t, x, s');
    }
    Whole(s');
  }

  ghost predicate PutBackPinnedStep(s: State, t: nat, f: nat, s': State) {
    && Standing(s, t) && s.pc[t] == Back(f, true)
    && s' == PutBackPinned(s, t, f) && Shape(s')
  }

  lemma PutBackPinnedThread(s: State, t: nat, f: nat, u: nat, s': State)
    requires PutBackPinnedStep(s, t, f, s') && KeptThread(s, u)
    ensures KeptThread(s', u)
  {
  }

  lemma PutBackPinnedFiber(s: State, t: nat, f: nat, g: nat, s': State)
    requires PutBackPinnedStep(s, t, f, s') && FiberFacts(s, g)
    ensures KeptFiber(s', g)
  {
  }

  lemma PutBackPinnedSlot(s: State, t: nat, f: nat, x: SlotId, s': State)
    requires PutBackPinnedStep(s, t, f, s') && SlotFacts(s, x)
    ensures KeptSlot(s', x)
  {
  }

  lemma PutBackPinnedInv(s: State, t: nat, f: nat)
    requires Inv(s) && t < |s.pc| && s.pc[t] == Back(f, true)
    ensures Inv(PutBackPinned(s, t, f))
  {
    assert ThreadOk(s, t);
    var s' := PutBackPinned(s, t, f);
    assert QueuesOk(s') && PutBackPinnedStep(s, t, f, s');
    hide ThreadOk, FiberOk, SlotOk, NotLost, QueuesOk, PutBackPinnedStep;
    forall u: nat, g: nat, x: SlotId ensures Kept(s', u, g, x) {
      FactsOf(s, u, g, x);
      PutBackPinnedThread(s, t, f, u, s');
      PutBackPinnedFiber(s, t, f, g, s');
      PutBackPinnedSlot(s, t, f, x, s');
    }
    Whole(s');
  }

  ghost predicate PutBackReadyStep(s: State, t: nat, f: nat, s': State) {
    && Standing(s, t) && s.pc[t] == Back(f, false)
    && s' == PutBackReady(s, t, f) && Shape(s')
  }

  lemma PutBackReadyThread(s: State, t: nat, f: nat, u: nat, s': State)
    requires PutBackReadyStep(s, t, f, s') && KeptThread(s, u)
    ensures KeptThread(s', u)
  {
  }

  lemma PutBackReadyFiber(s: State, t: nat, f: nat, g: nat, s': State)
    requires PutBackReadyStep(s, t, f, s') && FiberFacts(s, g)
    ensures KeptFiber(s', g)
  {
  }

  lemma PutBackReadySlot(s: State, t: nat, f: nat, x: SlotId, s': State)
    requires PutBackReadyStep(s, t, f, s') && SlotFacts(s, x)
    ensures KeptSlot(s', x)
  {
  }

  lemma PutBackReadyInv(s: State, t: nat, f: nat)
    requires Inv(s) && t < |s.pc| && s.pc[t] == Back(f, false)
    ensures Inv(PutBackReady(s, t, f))
  {
    assert ThreadOk(s, t);
    var s' := PutBackReady(s, t, f);
    assert QueuesOk(s') && PutBackReadyStep(s, t, f, s');
    hide ThreadOk, FiberOk, SlotOk, NotLost, QueuesOk, PutBackReadyStep;
    forall u: nat, g: nat, x: SlotId ensures Kept(s', u, g, x) {
      FactsOf(s, u, g, x);
      PutBackReadyThread(s, t, f, u, s');
      PutBackReadyFiber(s, t, f, g, s');
      PutBackReadySlot(s, t, f, x, s');
    }
    Whole(s');
  }

  // ----- tryResumeFiber and yieldToFiber ----------------------------------------------------

  ghost predicate ChooseFiberStep(s: State, t: nat, f: nat, s': State) {
    && Standing(s, t) && s.pc[t].Got? && s.pc[t].fiber == f && s.cleaned[f] && FiberOk(s, f)
    && s' == ChooseFiber(s, t, f) && Shape(s')
  }

  lemma ChooseFiberThread(s: State, t: nat, f: nat, u: nat, s': State)
    requires ChooseFiberStep(s, t, f, s') && KeptThread(s, u)
    ensures KeptThread(s', u)
  {
  }

  lemma ChooseFiberFiber(s: State, t: nat, f: nat, g: nat, s': State)
    requires ChooseFiberStep(s, t, f, s') && FiberFacts(s, g)
    ensures KeptFiber(s', g)
  {
  }

  lemma ChooseFiberSlot(s: State, t: nat, f: nat, x: SlotId, s': State)
    requires ChooseFiberStep(s, t, f, s') && SlotFacts(s, x)
    ensures KeptSlot(s', x)
  {
  }

  lemma ChooseFiberInv(s: State, t: nat, f: nat)
    requires Inv(s) && t < |s.pc| && s.pc[t].Got? && s.pc[t].fiber == f && s.cleaned[f]
    ensures Inv(ChooseFiber(s, t, f))
  {
    assert ThreadOk(s, t) && FiberOk(s, f);
    var s' := ChooseFiber(s, t, f);
    assert QueuesOk(s') && ChooseFiberStep(s, t, f, s');
    hide ThreadOk, FiberOk, SlotOk, NotLost, QueuesOk, ChooseFiberStep;
    forall u: nat, g: nat, x: SlotId ensures Kept(s', u, g, x) {
      FactsOf(s, u, g, x);
      ChooseFiberThread(s, t, f, u, s');
      ChooseFiberFiber(s, t, f, g, s');
      ChooseFiberSlot(s, t, f, x, s');
    }
    Whole(s');
  }

  ghost predicate SwitchToStep(s: State, t: nat, f: nat, dest: Dest, s': State) {
    && Standing(s, t) && Leaves(s.pc[t], f, dest) && FiberOk(s, f)
    && s' == SwitchTo(s, t, f, dest) && Shape(s')
  }

  lemma SwitchToThread(s: State, t: nat, f: nat, dest: Dest, u: nat, s': State)
    requires SwitchToStep(s, t, f, dest, s') && KeptThread(s, u)
    ensures KeptThread(s', u)
  {
  }

  lemma SwitchToFiber(s: State, t: nat, f: nat, dest: Dest, g: nat, s': State)
    requires SwitchToStep(s, t, f, dest, s') && FiberFacts(s, g)
    ensures KeptFiber(s', g)
  {
  }

  lemma SwitchToSlot(s: State, t: nat, f: nat, dest: Dest, x: SlotId, s': State)
    requires SwitchToStep(s, t, f, dest, s') && SlotFacts(s, x)
    ensures KeptSlot(s', x)
  {
  }

  lemma SwitchToInv(s: State, t: nat, f: nat, dest: Dest)
    requires Inv(s) && t < |s.pc| && Leaves(s.pc[t], f, dest)
    ensures Inv(SwitchTo(s, t, f, dest))
  {
    assert ThreadOk(s, t); assert FiberOk(s, f);
    var s' := SwitchTo(s, t, f, dest);
    assert QueuesOk(s') && SwitchToStep(s, t, f, dest, s');
    hide ThreadOk, FiberOk, SlotOk, NotLost, QueuesOk, SwitchToStep;
    forall u: nat, g: nat, x: SlotId ensures Kept(s', u, g, x) {
      FactsOf(s, u, g, x);
      SwitchToThread(s, t, f, dest, u, s');
      SwitchToFiber(s, t, f, dest, g, s');
      SwitchToSlot(s, t, f, dest, x, s');
    }
    Whole(s');
  }

  ghost predicate TakeIdleStep(s: State, t: nat, s': State) {
    && Standing(s, t) && s.pc[t].Waiting? && s.pc[t].wait.Take? && s.idle != [] && PlacedQueue(s, s.idle, Idle)
    && FiberOk(s, s.idle[0])
    && s' == TakeIdle(s, t, s.pc[t]) && Shape(s')
  }

  lemma TakeIdleThread(s: State, t: nat, u: nat, s': State)
    requires TakeIdleStep(s, t, s') && KeptThread(s, u)
    ensures KeptThread(s', u)
  {
  }

  lemma TakeIdleFiber(s: State, t: nat, g: nat, s': State)
    requires TakeIdleStep(s, t, s') && FiberFacts(s, g)
    ensures KeptFiber(s', g)
  {
  }

  lemma TakeIdleSlot(s: State, t: nat, x: SlotId, s': State)
    requires TakeIdleStep(s, t, s') && SlotFacts(s, x)
    ensures KeptSlot(s', x)
  {
  }

  lemma TakeIdleInv(s: State, t: nat)
    requires Inv(s) && t < |s.pc| && s.pc[t].Waiting? && s.pc[t].wait.Take? && s.idle != []
    ensures s.idle[0] < |s.place| && Inv(TakeIdle(s, t, s.pc[t]))
  {
    assert ThreadOk(s, t);
    var s' := TakeIdle(s, t, s.pc[t]);
    assert QueuesOk(s') && TakeIdleStep(s, t, s');
    hide ThreadOk, FiberOk, SlotOk, NotLost, QueuesOk, TakeIdleStep;
    forall u: nat, g: nat, x: SlotId ensures Kept(s', u, g, x) {
      FactsOf(s, u, g, x);
      TakeIdleThread(s, t, u, s');
      TakeIdleFiber(s, t, g, s');
      TakeIdleSlot(s, t, x, s');
    }
    Whole(s');
  }

  // ----- tasks and counter updates ----------------------------------------------------------

  ghost predicate StartTaskStep(s: State, t: nat, s': State) {
    && Standing(s, t) && s.pc[t].Loop?
    && s' == StartTask(s, t) && Shape(s')
  }

  lemma StartTaskThread(s: State, t: nat, u: nat, s': State)
    requires StartTaskStep(s, t, s') && KeptThread(s, u)
    ensures KeptThread(s', u)
  {
  }

  lemma StartTaskFiber(s: State, t: nat, g: nat, s': State)
    requires StartTaskStep(s, t, s') && FiberFacts(s, g)
    ensures KeptFiber(s', g)
  {
  }

  lemma StartTaskSlot(s: State, t: nat, x: SlotId, s': State)
    requires StartTaskStep(s, t, s') && SlotFacts(s, x)
    ensures KeptSlot(s', x)
  {
  }

  lemma StartTaskInv(s: State, t: nat)
    requires Inv(s) && t < |s.pc| && s.pc[t].Loop?
    ensures Inv(StartTask(s, t))
  {
    assert ThreadOk(s, t);
    var s' := StartTask(s, t);
    assert QueuesOk(s') && StartTaskStep(s, t, s');
    hide ThreadOk, FiberOk, SlotOk, NotLost, QueuesOk, StartTaskStep;
    forall u: nat, g: nat, x: SlotId ensures Kept(s', u, g, x) {
      FactsOf(s, u, g, x);
      StartTaskThread(s, t, u, s');
      StartTaskFiber(s, t, g, s');
      StartTaskSlot(s, t, x, s');
    }
    Whole(s');
  }

  ghost predicate UpdateStep(s: State, t: nat, c: nat, amount: int, finishing: bool, s': State) {
    && Standing(s, t) && s.pc[t].User? && c < |s.counts|
    && s' == Update(s, t, c, amount, finishing) && Shape(s')
  }

  lemma UpdateThread(s: State, t: nat, c: nat, amount: int, finishing: bool, u: nat, s': State)
    requires UpdateStep(s, t, c, amount, finishing, s') && KeptThread(s, u)
    ensures KeptThread(s', u)
  {
  }

  lemma UpdateFiber(s: State, t: nat, c: nat, amount: int, finishing: bool, g: nat, s': State)
    requires UpdateStep(s, t, c, amount, finishing, s') && FiberFacts(s, g)
    ensures KeptFiber(s', g)
  {
  }

  lemma UpdateSlot(s: State, t: nat, c: nat, amount: int, finishing: bool, x: SlotId, s': State)
    requires UpdateStep(s, t, c, amount, finishing, s') && SlotFacts(s, x)
    ensures KeptSlot(s', x)
  {
  }

  lemma UpdateInv(s: State, t: nat, c: nat, amount: int, finishing: bool)
    requires Inv(s) && t < |s.pc| && s.pc[t].User? && c < |s.counts|
    ensures Inv(Update(s, t, c, amount, finishing))
  {
    assert ThreadOk(s, t);
    var s' := Update(s, t, c, amount, finishing);
    assert QueuesOk(s') && UpdateStep(s, t, c, amount, finishing, s');
    hide ThreadOk, FiberOk, SlotOk, NotLost, QueuesOk, UpdateStep;
    forall u: nat, g: nat, x: SlotId ensures Kept(s', u, g, x) {
      FactsOf(s, u, g, x);
      UpdateThread(s, t, c, amount, finishing, u, s');
      UpdateFiber(s, t, c, amount, finishing, g, s');
      UpdateSlot(s, t, c, amount, finishing, x, s');
    }
    Whole(s');
  }

  // ----- the scan of the waiting slots ------------------------------------------------------

  ghost predicate ClaimByCheckerStep(s: State, t: nat, id: SlotId, s': State) {
    && Scanning(s, t, id, AtClaim) && !s.slots[id].inUse
    && s' == ClaimByChecker(s, t, s.pc[t], id) && Shape(s')
  }

  lemma ClaimByCheckerThread(s: State, t: nat, id: SlotId, u: nat, s': State)
    requires ClaimByCheckerStep(s, t, id, s') && KeptThread(s, u)
    ensures KeptThread(s', u)
  {
    if u < |s.pc| && u != t && s.pc[u].Waiting? {
      var pc := s.pc[u];
      ClaimByCheckerWaiter(s, t, id, u, s.cur[u], pc.counter, pc.target, pc.pin, pc.wait, s');
      hide WaitOk;
    }
  }

  /** A waiter finds its slot claimed, and its wake token on the way. */
  lemma ClaimByCheckerWaiter(s: State, t: nat, id: SlotId, u: nat, f: nat, c: nat, target: int, pin: Option<nat>,
                             ph: WaitPhase, s': State)
    requires Shape(s) && t < |s.pc| && s.pc[t].Scan? && id in s.slots && SlotOk(s, id) && !s.slots[id].inUse
    requires s' == ClaimByChecker(s, t, s.pc[t], id) && Shape(s')
    requires f < |s.place| && PcShape(Waiting(c, target, pin, ph), s.width, |s.counts|, |s.place|)
    requires WaitOk(s, u, f, c, target, pin, ph)
    ensures WaitOk(s', u, f, c, target, pin, ph)
  {
  }

  lemma ClaimByCheckerFiber(s: State, t: nat, id: SlotId, g: nat, s': State)
    requires ClaimByCheckerStep(s, t, id, s') && FiberFacts(s, g)
    ensures KeptFiber(s', g)
  {
  }

  lemma ClaimByCheckerSlot(s: State, t: nat, id: SlotId, x: SlotId, s': State)
    requires ClaimByCheckerStep(s, t, id, s') && x in s.slots && SlotOk(s, x)
    ensures SlotOk(s', x)
  {
  }

  lemma ClaimByCheckerWakes(s: State, t: nat, id: SlotId, x: SlotId, s': State)
    requires ClaimByCheckerStep(s, t, id, s') && x in s.slots && SlotOk(s, x) && NotLost(s, x) && FiberOk(s, s.slots[x].fiber)
    ensures NotLost(s', x)
  {
  }

  lemma ClaimByCheckerInv(s: State, t: nat, id: SlotId)
    requires Inv(s) && Scanning(s, t, id, AtClaim) && !s.slots[id].inUse
    ensures Inv(ClaimByChecker(s, t, s.pc[t], id))
  {
    var s' := ClaimByChecker(s, t, s.pc[t], id);
    assert QueuesOk(s') && ClaimByCheckerStep(s, t, id, s');
    hide ThreadOk, FiberOk, SlotOk, NotLost, QueuesOk, ClaimByCheckerStep;
    forall u: nat, g: nat, x: SlotId ensures Kept(s', u, g, x) {
      FactsOf(s, u, g, x);
      ClaimByCheckerThread(s, t, id, u, s');
      ClaimByCheckerFiber(s, t, id, g, s');
      if x in s.slots {
        ClaimByCheckerSlot(s, t, id, x, s');
        ClaimByCheckerWakes(s, t, id, x, s');
      }
    }
    Whole(s');
  }

  ghost predicate EnqueueReadyStep(s: State, t: nat, id: SlotId, s': State) {
    && Scanning(s, t, id, AtEnqueue) && s.slots[id].pin.None?
    && s' == EnqueueReady(s, t, s.pc[t], s.slots[id].fiber) && Shape(s')
  }

  lemma EnqueueReadyThread(s: State, t: nat, id: SlotId, u: nat, s': State)
    requires EnqueueReadyStep(s, t, id, s') && KeptThread(s, u)
    ensures KeptThread(s', u)
  {
  }

  lemma EnqueueReadyFiber(s: State, t: nat, id: SlotId, g: nat, s': State)
    requires EnqueueReadyStep(s, t, id, s') && FiberFacts(s, g)
    ensures KeptFiber(s', g)
  {
  }

  lemma EnqueueReadySlot(s: State, t: nat, id: SlotId, x: SlotId, s': State)
    requires EnqueueReadyStep(s, t, id, s') && SlotFacts(s, x)
    ensures KeptSlot(s', x)
  {
  }

  lemma EnqueueReadyInv(s: State, t: nat, id: SlotId)
    requires Inv(s) && Scanning(s, t, id, AtEnqueue) && s.slots[id].pin.None?
    ensures Inv(EnqueueReady(s, t, s.pc[t], s.slots[id].fiber))
  {
    var s' := EnqueueReady(s, t, s.pc[t], s.slots[id].fiber);
    assert QueuesOk(s') && EnqueueReadyStep(s, t, id, s');
    hide ThreadOk, FiberOk, SlotOk, NotLost, QueuesOk, EnqueueReadyStep;
    forall u: nat, g: nat, x: SlotId ensures Kept(s', u, g, x) {
      FactsOf(s, u, g, x);
      EnqueueReadyThread(s, t, id, u, s');
      EnqueueReadyFiber(s, t, id, g, s');
      EnqueueReadySlot(s, t, id, x, s');
    }
    Whole(s');
  }

  ghost predicate EnqueuePinnedStep(s: State, t: nat, id: SlotId, w: nat, s': State) {
    && Scanning(s, t, id, AtEnqueue) && s.slots[id].pin == Some(w) && w < |s.pc|
    && s' == EnqueuePinned(s, t, s.pc[t], s.slots[id].fiber, w) && Shape(s')
  }

  lemma EnqueuePinnedThread(s: State, t: nat, id: SlotId, w: nat, u: nat, s': State)
    requires EnqueuePinnedStep(s, t, id, w, s') && KeptThread(s, u)
    ensures KeptThread(s', u)
  {
  }

  lemma EnqueuePinnedFiber(s: State, t: nat, id: SlotId, w: nat, g: nat, s': State)
    requires EnqueuePinnedStep(s, t, id, w, s') && FiberFacts(s, g)
    ensures KeptFiber(s', g)
  {
  }

  lemma EnqueuePinnedSlot(s: State, t: nat, id: SlotId, w: nat, x: SlotId, s': State)
    requires EnqueuePinnedStep(s, t, id, w, s') && SlotFacts(s, x)
    ensures KeptSlot(s', x)
  {
  }

  lemma EnqueuePinnedQueues(s: State, t: nat, id: SlotId, w: nat, s': State)
    requires EnqueuePinnedStep(s, t, id, w, s') && QueuesOk(s)
    ensures QueuesOk(s')
  {
  }

  lemma EnqueuePinnedInv(s: State, t: nat, id: SlotId, w: nat)
    requires Inv(s) && Scanning(s, t, id, AtEnqueue) && s.slots[id].pin == Some(w) && w < |s.pc|
    ensures Inv(EnqueuePinned(s, t, s.pc[t], s.slots[id].fiber, w))
  {
    var s' := EnqueuePinned(s, t, s.pc[t], s.slots[id].fiber, w);
    assert EnqueuePinnedStep(s, t, id, w, s');
    EnqueuePinnedQueues(s, t, id, w, s');
    hide ThreadOk, FiberOk, SlotOk, NotLost, QueuesOk, EnqueuePinnedStep;
    forall u: nat, g: nat, x: SlotId ensures Kept(s', u, g, x) {
      FactsOf(s, u, g, x);
      EnqueuePinnedThread(s, t, id, w, u, s');
      EnqueuePinnedFiber(s, t, id, w, g, s');
      EnqueuePinnedSlot(s, t, id, w, x, s');
    }
    Whole(s');
  }

  ghost predicate ReleaseByCheckerStep(s: State, t: nat, id: SlotId, s': State) {
    && Scanning(s, t, id, AtRelease)
    && s' == Release(s, t, NextSlot(s.width, s.pc[t]), id) && Shape(s')
  }

  lemma ReleaseByCheckerThread(s: State, t: nat, id: SlotId, u: nat, s': State)
    requires ReleaseByCheckerStep(s, t, id, s') && KeptThread(s, u)
    ensures KeptThread(s', u)
  {
    if u < |s.pc| && u != t && s.pc[u].Waiting? {
      var pc := s.pc[u];
      ReleaseByCheckerWaiter(s, t, id, u, s.cur[u], pc.counter, pc.target, pc.pin, pc.wait, s');
      hide WaitOk;
    }
  }

  lemma ReleaseByCheckerWaiter(s: State, t: nat, id: SlotId, u: nat, f: nat, c: nat, target: int, pin: Option<nat>,
                               ph: WaitPhase, s': State)
    requires Shape(s) && t < |s.pc| && s.pc[t].Scan? && id in s.slots && s.holder[id] == ByChecker(t)
    requires s' == Release(s, t, NextSlot(s.width, s.pc[t]), id) && Shape(s')
    requires f < |s.place| && PcShape(Waiting(c, target, pin, ph), s.width, |s.counts|, |s.place|)
    requires WaitOk(s, u, f, c, target, pin, ph)
    ensures WaitOk(s', u, f, c, target, pin, ph)
  {
  }

  lemma ReleaseByCheckerFiber(s: State, t: nat, id: SlotId, g: nat, s': State)
    requires ReleaseByCheckerStep(s, t, id, s') && FiberFacts(s, g)
    ensures KeptFiber(s', g)
  {
  }

  lemma ReleaseByCheckerHolder(s: State, t: nat, id: SlotId, x: SlotId, s': State)
    requires ReleaseByCheckerStep(s, t, id, s') && SlotFacts(s, x) && x in s.slots
    ensures SlotOk(s', x)
  {
  }

  lemma ReleaseByCheckerWakes(s: State, t: nat, id: SlotId, x: SlotId, s': State)
    requires ReleaseByCheckerStep(s, t, id, s') && SlotFacts(s, x) && x in s.slots
    ensures NotLost(s', x)
  {
  }

  lemma ReleaseByCheckerSlot(s: State, t: nat, id: SlotId, x: SlotId, s': State)
    requires ReleaseByCheckerStep(s, t, id, s') && SlotFacts(s, x)
    ensures KeptSlot(s', x)
  {
    if x in s.slots {
      ReleaseByCheckerHolder(s, t, id, x, s');
      ReleaseByCheckerWakes(s, t, id, x, s');
    }
    hide SlotOk, NotLost, ReleaseByCheckerStep, SlotFacts;
  }

  lemma ReleaseByCheckerInv(s: State, t: nat, id: SlotId)
    requires Inv(s) && Scanning(s, t, id, AtRelease)
    ensures Inv(Release(s, t, NextSlot(s.width, s.pc[t]), id))
  {
    var s' := Release(s, t, NextSlot(s.width, s.pc[t]), id);
    assert QueuesOk(s') && ReleaseByCheckerStep(s, t, id, s');
    hide ThreadOk, FiberOk, SlotOk, NotLost, QueuesOk, ReleaseByCheckerStep;
    forall u: nat, g: nat, x: SlotId ensures Kept(s', u, g, x) {
      FactsOf(s, u, g, x);
      ReleaseByCheckerThread(s, t, id, u, s');
      ReleaseByCheckerFiber(s, t, id, g, s');
      ReleaseByCheckerSlot(s, t, id, x, s');
    }
    Whole(s');
  }

  // ----- counterAddWaitingFiber -------------------------------------------------------------

  ghost predicate AcquireSlotStep(s: State, t: nat, id: SlotId, s': State) {
    && Registering(s, t, id, Try(id.index)) && s.slots[id].free && SlotQuiet(s, id)
    && s' == AcquireSlot(s, t, s.pc[t], id) && Shape(s')
  }

  lemma AcquireSlotThread(s: State, t: nat, id: SlotId, u: nat, s': State)
    requires AcquireSlotStep(s, t, id, s') && KeptThread(s, u)
    ensures KeptThread(s', u)
  {
  }

  lemma AcquireSlotFiber(s: State, t: nat, id: SlotId, g: nat, s': State)
    requires AcquireSlotStep(s, t, id, s') && FiberFacts(s, g)
    ensures KeptFiber(s', g)
  {
  }

  lemma AcquireSlotHolder(s: State, t: nat, id: SlotId, x: SlotId, s': State)
    requires AcquireSlotStep(s, t, id, s') && SlotFacts(s, x) && x in s.slots
    ensures SlotOk(s', x)
  {
  }

  lemma AcquireSlotWakes(s: State, t: nat, id: SlotId, x: SlotId, s': State)
    requires AcquireSlotStep(s, t, id, s') && SlotFacts(s, x) && x in s.slots
    ensures NotLost(s', x)
  {
  }

  lemma AcquireSlotSlot(s: State, t: nat, id: SlotId, x: SlotId, s': State)
    requires AcquireSlotStep(s, t, id, s') && SlotFacts(s, x)
    ensures KeptSlot(s', x)
  {
    if x in s.slots {
      AcquireSlotHolder(s, t, id, x, s');
      AcquireSlotWakes(s, t, id, x, s');
    }
    hide SlotOk, NotLost, AcquireSlotStep, SlotFacts;
  }

  lemma AcquireSlotInv(s: State, t: nat, id: SlotId)
    requires Inv(s) && Registering(s, t, id, Try(id.index)) && s.slots[id].free && SlotQuiet(s, id)
    ensures Inv(AcquireSlot(s, t, s.pc[t], id))
  {
    var s' := AcquireSlot(s, t, s.pc[t], id);
    assert QueuesOk(s') && AcquireSlotStep(s, t, id, s');
    hide ThreadOk, FiberOk, SlotOk, NotLost, QueuesOk, AcquireSlotStep;
    forall u: nat, g: nat, x: SlotId ensures Kept(s', u, g, x) {
      FactsOf(s, u, g, x);
      AcquireSlotThread(s, t, id, u, s');
      AcquireSlotFiber(s, t, id, g, s');
      AcquireSlotSlot(s, t, id, x, s');
    }
    Whole(s');
  }

  ghost predicate FillSlotStep(s: State, t: nat, id: SlotId, s': State) {
    && Registering(s, t, id, Fill(id.index))
    && s' == FillSlot(s, t, s.pc[t], id) && Shape(s')
  }

  lemma FillSlotThread(s: State, t: nat, id: SlotId, u: nat, s': State)
    requires FillSlotStep(s, t, id, s') && KeptThread(s, u)
    ensures KeptThread(s', u)
  {
  }

  lemma FillSlotFiber(s: State, t: nat, id: SlotId, g: nat, s': State)
    requires FillSlotStep(s, t, id, s') && FiberFacts(s, g)
    ensures KeptFiber(s', g)
  {
  }

  lemma FillSlotHolder(s: State, t: nat, id: SlotId, x: SlotId, s': State)
    requires FillSlotStep(s, t, id, s') && SlotFacts(s, x) && x in s.slots
    ensures SlotOk(s', x)
  {
  }

  lemma FillSlotWakes(s: State, t: nat, id: SlotId, x: SlotId, s': State)
    requires FillSlotStep(s, t, id, s') && SlotFacts(s, x) && x in s.slots
    ensures NotLost(s', x)
  {
  }

  lemma FillSlotSlot(s: State, t: nat, id: SlotId, x: SlotId, s': State)
    requires FillSlotStep(s, t, id, s') && SlotFacts(s, x)
    ensures KeptSlot(s', x)
  {
    if x in s.slots {
      FillSlotHolder(s, t, id, x, s');
      FillSlotWakes(s, t, id, x, s');
    }
    hide SlotOk, NotLost, FillSlotStep, SlotFacts;
  }

  lemma FillSlotInv(s: State, t: nat, id: SlotId)
    requires Inv(s) && Registering(s, t, id, Fill(id.index))
    ensures Inv(FillSlot(s, t, s.pc[t], id))
  {
    var s' := FillSlot(s, t, s.pc[t], id);
    assert QueuesOk(s') && FillSlotStep(s, t, id, s');
    hide ThreadOk, FiberOk, SlotOk, NotLost, QueuesOk, FillSlotStep;
    forall u: nat, g: nat, x: SlotId ensures Kept(s', u, g, x) {
      FactsOf(s, u, g, x);
      FillSlotThread(s, t, id, u, s');
      FillSlotFiber(s, t, id, g, s');
      FillSlotSlot(s, t, id, x, s');
    }
    Whole(s');
  }

  ghost predicate OpenSlotStep(s: State, t: nat, id: SlotId, s': State) {
    && Registering(s, t, id, Open(id.index))
    && s' == OpenSlot(s, t, s.pc[t], id) && Shape(s')
  }

  lemma OpenSlotThread(s: State, t: nat, id: SlotId, u: nat, s': State)
    requires OpenSlotStep(s, t, id, s') && KeptThread(s, u)
    ensures KeptThread(s', u)
  {
  }

  lemma OpenSlotFiber(s: State, t: nat, id: SlotId, g: nat, s': State)
    requires OpenSlotStep(s, t, id, s') && FiberFacts(s, g)
    ensures KeptFiber(s', g)
  {
  }

  lemma OpenSlotHolder(s: State, t: nat, id: SlotId, x: SlotId, s': State)
    requires OpenSlotStep(s, t, id, s') && SlotFacts(s, x) && x in s.slots
    ensures SlotOk(s', x)
  {
  }

  lemma OpenSlotWakes(s: State, t: nat, id: SlotId, x: SlotId, s': State)
    requires OpenSlotStep(s, t, id, s') && SlotFacts(s, x) && x in s.slots
    ensures NotLost(s', x)
  {
  }

  lemma OpenSlotSlot(s: State, t: nat, id: SlotId, x: SlotId, s': State)
    requires OpenSlotStep(s, t, id, s') && SlotFacts(s, x)
    ensures KeptSlot(s', x)
  {
    if x in s.slots {
      OpenSlotHolder(s, t, id, x, s');
      OpenSlotWakes(s, t, id, x, s');
    }
    hide SlotOk, NotLost, OpenSlotStep, SlotFacts;
  }

  lemma OpenSlotInv(s: State, t: nat, id: SlotId)
    requires Inv(s) && Registering(s, t, id, Open(id.index))
    ensures Inv(OpenSlot(s, t, s.pc[t], id))
  {
    var s' := OpenSlot(s, t, s.pc[t], id);
    assert QueuesOk(s') && OpenSlotStep(s, t, id, s');
    hide ThreadOk, FiberOk, SlotOk, NotLost, QueuesOk, OpenSlotStep;
    forall u: nat, g: nat, x: SlotId ensures Kept(s', u, g, x) {
      FactsOf(s, u, g, x);
      OpenSlotThread(s, t, id, u, s');
      OpenSlotFiber(s, t, id, g, s');
      OpenSlotSlot(s, t, id, x, s');
    }
    Whole(s');
  }

  ghost predicate ClaimBySelfStep(s: State, t: nat, id: SlotId, v: int, s': State) {
    && Registering(s, t, id, Cas(id.index, v)) && !s.slots[id].inUse
    && s' == ClaimBySelf(s, t, s.pc[t], id) && Shape(s')
  }

  lemma ClaimBySelfThread(s: State, t: nat, id: SlotId, v: int, u: nat, s': State)
    requires ClaimBySelfStep(s, t, id, v, s') && KeptThread(s, u)
    ensures KeptThread(s', u)
  {
  }

  lemma ClaimBySelfFiber(s: State, t: nat, id: SlotId, v: int, g: nat, s': State)
    requires ClaimBySelfStep(s, t, id, v, s') && FiberFacts(s, g)
    ensures KeptFiber(s', g)
  {
  }

  lemma ClaimBySelfHolder(s: State, t: nat, id: SlotId, v: int, x: SlotId, s': State)
    requires ClaimBySelfStep(s, t, id, v, s') && SlotFacts(s, x) && x in s.slots
    ensures SlotOk(s', x)
  {
  }

  lemma ClaimBySelfWakes(s: State, t: nat, id: SlotId, v: int, x: SlotId, s': State)
    requires ClaimBySelfStep(s, t, id, v, s') && SlotFacts(s, x) && x in s.slots
    ensures NotLost(s', x)
  {
  }

  lemma ClaimBySelfSlot(s: State, t: nat, id: SlotId, v: int, x: SlotId, s': State)
    requires ClaimBySelfStep(s, t, id, v, s') && SlotFacts(s, x)
    ensures KeptSlot(s', x)
  {
    if x in s.slots {
      ClaimBySelfHolder(s, t, id, v, x, s');
      ClaimBySelfWakes(s, t, id, v, x, s');
    }
    hide SlotOk, NotLost, ClaimBySelfStep, SlotFacts;
  }

  lemma ClaimBySelfInv(s: State, t: nat, id: SlotId, v: int)
    requires Inv(s) && Registering(s, t, id, Cas(id.index, v)) && !s.slots[id].inUse
    ensures Inv(ClaimBySelf(s, t, s.pc[t], id))
  {
    var s' := ClaimBySelf(s, t, s.pc[t], id);
    assert QueuesOk(s') && ClaimBySelfStep(s, t, id, v, s');
    hide ThreadOk, FiberOk, SlotOk, NotLost, QueuesOk, ClaimBySelfStep;
    forall u: nat, g: nat, x: SlotId ensures Kept(s', u, g, x) {
      FactsOf(s, u, g, x);
      ClaimBySelfThread(s, t, id, v, u, s');
      ClaimBySelfFiber(s, t, id, v, g, s');
      ClaimBySelfSlot(s, t, id, v, x, s');
    }
    Whole(s');
  }

  ghost predicate ReleaseBySelfStep(s: State, t: nat, id: SlotId, s': State) {
    && Registering(s, t, id, FreeSlot(id.index))
    && s' == Release(s, t, User, id) && Shape(s')
  }

  lemma ReleaseBySelfThread(s: State, t: nat, id: SlotId, u: nat, s': State)
    requires ReleaseBySelfStep(s, t, id, s') && KeptThread(s, u)
    ensures KeptThread(s', u)
  {
  }

  lemma ReleaseBySelfFiber(s: State, t: nat, id: SlotId, g: nat, s': State)
    requires ReleaseBySelfStep(s, t, id, s') && FiberFacts(s, g)
    ensures KeptFiber(s', g)
  {
  }

  lemma ReleaseBySelfHolder(s: State, t: nat, id: SlotId, x: SlotId, s': State)
    requires ReleaseBySelfStep(s, t, id, s') && SlotFacts(s, x) && x in s.slots
    ensures SlotOk(s', x)
  {
  }

  lemma ReleaseBySelfWakes(s: State, t: nat, id: SlotId, x: SlotId, s': State)
    requires ReleaseBySelfStep(s, t, id, s') && SlotFacts(s, x) && x in s.slots
    ensures NotLost(s', x)
  {
  }

  lemma ReleaseBySelfSlot(s: State, t: nat, id: SlotId, x: SlotId, s': State)
    requires ReleaseBySelfStep(s, t, id, s') && SlotFacts(s, x)
    ensures KeptSlot(s', x)
  {
    if x in s.slots {
      ReleaseBySelfHolder(s, t, id, x, s');
      ReleaseBySelfWakes(s, t, id, x, s');
    }
    hide SlotOk, NotLost, ReleaseBySelfStep, SlotFacts;
  }

  lemma ReleaseBySelfInv(s: State, t: nat, id: SlotId)
    requires Inv(s) && Registering(s, t, id, FreeSlot(id.index))
    ensures Inv(Release(s, t, User, id))
  {
    var s' := Release(s, t, User, id);
    assert QueuesOk(s') && ReleaseBySelfStep(s, t, id, s');
    hide ThreadOk, FiberOk, SlotOk, NotLost, QueuesOk, ReleaseBySelfStep;
    forall u: nat, g: nat, x: SlotId ensures Kept(s', u, g, x) {
      FactsOf(s, u, g, x);
      ReleaseBySelfThread(s, t, id, u, s');
      ReleaseBySelfFiber(s, t, id, g, s');
      ReleaseBySelfSlot(s, t, id, x, s');
    }
    Whole(s');
  }

  // ----- steps that only read shared memory ------------------------------------------------

  /** No fiber and no slot refers to the control point, so leaving it is harmless. */
  predicate Movable(pc: Pc, next: Pc) {
    match pc
    case User => true
    case Got(f, pinned) => next == Back(f, pinned)
    case Scan(_, _, _, phase, _) => !phase.AtEnqueue? && !phase.AtRelease?
    case Waiting(_, _, _, ph) => ph.Begin? || ph.Try? || ph.Load? || ph.Check? || ph.Compare? || ph.Cas?
    case _ => false
  }

  ghost predicate GotoStep(s: State, t: nat, pc: Pc, s': State) {
    && Standing(s, t) && !s.prev[t].Prev? && Movable(s.pc[t], pc)
    && s' == Goto(s, t, pc) && Shape(s')
    && PcShape(pc, s.width, |s.counts|, |s.place|) && PcOk(s, t, s.cur[t], pc)
  }

  lemma GotoThread(s: State, t: nat, pc: Pc, u: nat, s': State)
    requires GotoStep(s, t, pc, s') && KeptThread(s, u)
    ensures KeptThread(s', u)
  {
  }

  lemma GotoFiber(s: State, t: nat, pc: Pc, g: nat, s': State)
    requires GotoStep(s, t, pc, s') && FiberFacts(s, g)
    ensures KeptFiber(s', g)
  {
  }

  lemma GotoSlot(s: State, t: nat, pc: Pc, x: SlotId, s': State)
    requires GotoStep(s, t, pc, s') && SlotFacts(s, x) && (x in s.slots ==> NotLost(s', x))
    ensures KeptSlot(s', x)
  {
  }

  lemma GotoInv(s: State, t: nat, pc: Pc)
    requires Inv(s) && t < |s.pc| && Movable(s.pc[t], pc)
    requires PcShape(pc, s.width, |s.counts|, |s.place|) && PcOk(s, t, s.cur[t], pc)
    requires Shape(Goto(s, t, pc)) ==> forall x :: x in s.slots ==> NotLost(Goto(s, t, pc), x)
    ensures Inv(Goto(s, t, pc))
  {
    var s' := Goto(s, t, pc);
    assert ThreadOk(s, t);
    assert QueuesOk(s') && GotoStep(s, t, pc, s');
    hide ThreadOk, FiberOk, SlotOk, NotLost, QueuesOk, GotoStep;
    forall u: nat, g: nat, x: SlotId ensures Kept(s', u, g, x) {
      FactsOf(s, u, g, x);
      GotoThread(s, t, pc, u, s');
      GotoFiber(s, t, pc, g, s');
      GotoSlot(s, t, pc, x, s');
    }
    Whole(s');
  }

  /** A scan passes a slot only if the slot is not open for its value. */
  lemma LookKeepsWakes(s: State, t: nat, pc: Pc, x: SlotId)
    requires Standing(s, t) && s.pc[t].Scan? && x in s.slots && SlotOk(s, x) && NotLost(s, x) && FiberOk(s, s.slots[x].fiber)
    requires !s.pc[t].phase.AtEnqueue? && !s.pc[t].phase.AtRelease?
    requires
      var slot := s.slots[SlotId(s.pc[t].counter, s.pc[t].i)];
      pc == LookAt(s.width, s.pc[t], slot) && (s.pc[t].phase.AtClaim? ==> slot.inUse)
    requires Shape(Goto(s, t, pc))
    ensures NotLost(Goto(s, t, pc), x)
  {
  }

  lemma LookInv(s: State, t: nat, pc: Pc)
    requires Inv(s) && t < |s.pc| && s.pc[t].Scan? && !s.pc[t].phase.AtEnqueue? && !s.pc[t].phase.AtRelease?
    requires
      var slot := s.slots[SlotId(s.pc[t].counter, s.pc[t].i)];
      pc == LookAt(s.width, s.pc[t], slot) && (s.pc[t].phase.AtClaim? ==> slot.inUse)
    ensures Inv(Goto(s, t, pc))
  {
    assert Standing(s, t) && SlotOk(s, SlotId(s.pc[t].counter, s.pc[t].i));
    assert PcShape(pc, s.width, |s.counts|, |s.place|) && PcOk(s, t, s.cur[t], pc);
    hide ThreadOk, FiberOk, SlotOk, NotLost, QueuesOk, PcOk, LookAt;
    if Shape(Goto(s, t, pc)) {
      forall x | x in s.slots ensures NotLost(Goto(s, t, pc), x) {
        LookKeepsWakes(s, t, pc, x);
      }
    }
    GotoInv(s, t, pc);
  }

  /** A waiter gives up looking only if its slot is claimed or the count it saw is not its target. */
  ghost predicate WaitMove(s: State, t: nat, pc: Pc)
    requires Standing(s, t)
  {
    && s.pc[t].Waiting? && pc.Waiting? && pc.counter == s.pc[t].counter && pc.target == s.pc[t].target && pc.pin == s.pc[t].pin
    && match s.pc[t].wait
       case Begin => pc.wait == Try(0)
       case Try(i) => i < s.width && pc.wait == Try(i + 1)
       case Load(i) => pc.wait == Check(i, s.counts[pc.counter])
       case Check(i, v) => pc.wait == if s.slots[SlotId(pc.counter, i)].inUse then Take else Compare(i, v)
       case Compare(i, v) => pc.wait == if s.slots[SlotId(pc.counter, i)].target == v then Cas(i, v) else Take
       case Cas(i, _) => pc.wait == Take && s.slots[SlotId(pc.counter, i)].inUse
       case _ => false
  }

  lemma WaitMoveKeepsWakes(s: State, t: nat, pc: Pc, x: SlotId)
    requires Standing(s, t) && WaitMove(s, t, pc) && Shape(Goto(s, t, pc))
    requires x in s.slots && SlotOk(s, x) && NotLost(s, x) && FiberOk(s, s.slots[x].fiber)
    requires forall i: nat :: i < s.width ==> SlotOk(s, SlotId(pc.counter, i))
    ensures NotLost(Goto(s, t, pc), x)
  {
  }

  lemma WaitMovePc(s: State, t: nat, pc: Pc)
    requires Standing(s, t) && WaitMove(s, t, pc)
    ensures PcShape(pc, s.width, |s.counts|, |s.place|) && PcOk(s, t, s.cur[t], pc) && Movable(s.pc[t], pc)
  {
  }

  lemma WaitMoveInv(s: State, t: nat, pc: Pc)
    requires Inv(s) && Standing(s, t) && WaitMove(s, t, pc)
    ensures Inv(Goto(s, t, pc))
  {
    assert forall i: nat :: i < s.width ==> SlotOk(s, SlotId(pc.counter, i));
    WaitMovePc(s, t, pc);
    hide ThreadOk, FiberOk, SlotOk, NotLost, QueuesOk, PcOk, WaitMove, Movable;
    if Shape(Goto(s, t, pc)) {
      forall x | x in s.slots ensures NotLost(Goto(s, t, pc), x) {
        WaitMoveKeepsWakes(s, t, pc, x);
      }
    }
    GotoInv(s, t, pc);
  }

  lemma GotBackInv(s: State, t: nat, f: nat, pinned: bool)
    requires Inv(s) && t < |s.pc| && s.pc[t] == Got(f, pinned)
    ensures Inv(Goto(s, t, Back(f, pinned)))
  {
    assert ThreadOk(s, t);
    var s' := Goto(s, t, Back(f, pinned));
    assert Shape(s') ==> forall x :: x in s.slots && NotLost(s, x) ==> NotLost(s', x);
    GotoInv(s, t, Back(f, pinned));
  }

  lemma BeginWaitInv(s: State, t: nat, pc: Pc)
    requires Inv(s) && t < |s.pc| && s.pc[t].User? && pc.Waiting? && pc.wait.Begin? && pc.counter < |s.counts|
    requires pc.pin.Some? ==> pc.pin.value == t
    ensures Inv(Goto(s, t, pc))
  {
    assert ThreadOk(s, t);
    var s' := Goto(s, t, pc);
    assert Shape(s') ==> forall x :: x in s.slots && NotLost(s, x) ==> NotLost(s', x);
    GotoInv(s, t, pc);
  }

  // ----- re-initialising a counter ---------------------------------------------------------

  /** A quiet counter's slots are free already, so only the count changes. */
  lemma ResetSlots(s: State, c: nat)
    requires Shape(s) && c < |s.counts| && CounterQuiet(s, c)
    ensures Reset(s, c) == s.(counts := s.counts[c := 0]) && Shape(Reset(s, c))
  {
    var s' := Reset(s, c);
    forall id | id in s.slots ensures s'.slots[id] == s.slots[id] { assert id.counter == c ==> s.slots[id].free; }
    assert s'.slots == s.slots;
  }

  ghost predicate Recount(s: State, c: nat, s': State) {
    && Shape(s) && Shape(s') && c < |s.counts| && CounterQuiet(s, c)
    && s' == s.(counts := s.counts[c := 0])
  }

  lemma RecountThread(s: State, c: nat, u: nat, s': State)
    requires Recount(s, c, s') && KeptThread(s, u)
    ensures KeptThread(s', u)
  {
  }

  lemma RecountFiber(s: State, c: nat, g: nat, s': State)
    requires Recount(s, c, s') && KeptFiber(s, g)
    ensures KeptFiber(s', g)
  {
  }

  lemma RecountSlot(s: State, c: nat, x: SlotId, s': State)
    requires Recount(s, c, s') && KeptSlot(s, x) && x in s.slots
    ensures KeptSlot(s', x)
  {
  }

  lemma ResetInv(s: State, c: nat)
    requires Inv(s) && c < |s.counts| && CounterQuiet(s, c)
    ensures Inv(Reset(s, c))
  {
    var s' := Reset(s, c);
    ResetSlots(s, c);
    forall u: nat, g: nat, x: SlotId ensures Kept(s', u, g, x) {
      FactsOf(s, u, g, x);
      RecountThread(s, c, u, s');
      RecountFiber(s, c, g, s');
      if x in s.slots { RecountSlot(s, c, x, s'); }
    }
    Whole(s');
  }

  // ----- the theorem -----------------------------------------------------------------------

  lemma ScanStepInv(s: State, t: nat)
    requires Inv(s) && CanAdvance(s, t) && s.pc[t].Scan?
    ensures Inv(ScanStep(s, t))
  {
    var pc := s.pc[t];
    var id := SlotId(pc.counter, pc.i);
    assert ThreadOk(s, t) && SlotOk(s, id);
    match pc.phase {
      case AtClaim =>
        if s.slots[id].inUse { LookInv(s, t, NextSlot(s.width, pc)); } else { ClaimByCheckerInv(s, t, id); }
      case AtEnqueue =>
        match s.slots[id].pin {
          case None => EnqueueReadyInv(s, t, id);
          case Some(u) => EnqueuePinnedInv(s, t, id, u);
        }
      case AtRelease => ReleaseByCheckerInv(s, t, id);
      case _ => LookInv(s, t, LookAt(s.width, pc, s.slots[id]));
    }
  }

  /** The steps in which a waiter writes to its slot. */
  lemma SlotWriteInv(s: State, t: nat)
    requires Inv(s) && CanAdvance(s, t) && s.pc[t].Waiting?
    requires s.pc[t].wait.Fill? || s.pc[t].wait.Open? || s.pc[t].wait.FreeSlot?
    ensures Inv(WaitStep(s, t))
  {
    var ph := s.pc[t].wait;
    var id := SlotId(s.pc[t].counter, ph.i);
    assert ThreadOk(s, t) && Registering(s, t, id, ph);
    hide Inv, ThreadOk, FiberOk, SlotOk, NotLost, QueuesOk;
    match ph {
      case Fill(i) => FillSlotInv(s, t, id);
      case Open(i) => OpenSlotInv(s, t, id);
      case FreeSlot(i) => ReleaseBySelfInv(s, t, id);
    }
  }

  /** The steps in which a waiter looks at the count and at its slot. */
  lemma SlotLookInv(s: State, t: nat)
    requires Inv(s) && CanAdvance(s, t) && s.pc[t].Waiting?
    requires s.pc[t].wait.Load? || s.pc[t].wait.Check? || s.pc[t].wait.Compare? || s.pc[t].wait.Cas?
    ensures Inv(WaitStep(s, t))
  {
    var pc := s.pc[t];
    var id := SlotId(pc.counter, pc.wait.i);
    assert ThreadOk(s, t) && Registering(s, t, id, pc.wait);
    hide Inv, ThreadOk, FiberOk, SlotOk, NotLost, QueuesOk;
    match pc.wait {
      case Load(i) => WaitMoveInv(s, t, pc.(wait := Check(i, s.counts[pc.counter])));
      case Check(i, v) => WaitMoveInv(s, t, pc.(wait := if s.slots[id].inUse then Take else Compare(i, v)));
      case Compare(i, v) => WaitMoveInv(s, t, pc.(wait := if s.slots[id].target == v then Cas(i, v) else Take));
      case Cas(i, v) =>
        if s.slots[id].inUse { WaitMoveInv(s, t, pc.(wait := Take)); } else { ClaimBySelfInv(s, t, id, v); }
    }
  }

  lemma WaitStepInv(s: State, t: nat)
    requires Inv(s) && CanAdvance(s, t) && s.pc[t].Waiting?
    requires s.pc[t].wait.Try? && s.slots[SlotId(s.pc[t].counter, s.pc[t].wait.i)].free ==>
      SlotQuiet(s, SlotId(s.pc[t].counter, s.pc[t].wait.i))
    ensures Inv(WaitStep(s, t))
  {
    var pc := s.pc[t];
    assert ThreadOk(s, t) && FiberOk(s, s.cur[t]) && Standing(s, t);
    match pc.wait {
      case Begin =>
        assert s.cleaned[s.cur[t] := false] == s.cleaned;
        hide Inv, ThreadOk, FiberOk;
        WaitMoveInv(s, t, pc.(wait := Try(0)));
      case Try(i) =>
        var id := SlotId(pc.counter, i);
        assert SlotOk(s, id);
        hide Inv, ThreadOk, FiberOk, SlotOk, SlotQuiet;
        if s.slots[id].free { AcquireSlotInv(s, t, id); } else { WaitMoveInv(s, t, pc.(wait := Try(i + 1))); }
      case Take => hide Inv, ThreadOk, FiberOk; TakeIdleInv(s, t);
      case Leave(g) => hide Inv, ThreadOk, FiberOk; SwitchToInv(s, t, g, ToWaiting);
      case Fill(_) => hide Inv, ThreadOk, FiberOk; SlotWriteInv(s, t);
      case Open(_) => hide Inv, ThreadOk, FiberOk; SlotWriteInv(s, t);
      case FreeSlot(_) => hide Inv, ThreadOk, FiberOk; SlotWriteInv(s, t);
      case _ => hide Inv, ThreadOk, FiberOk; SlotLookInv(s, t);
    }
  }

  /** Every action that respects H1 and H2 keeps the invariant. */
  lemma StepInv(s: State, a: Action)
    requires Inv(s) && Enabled(s, a) && Disciplined(s, a)
    ensures Inv(Do(s, a))
  {
    match a {
      case Advance(t) =>
        match s.pc[t] {
          case Clean => CleanUpInv(s, t);
          case Got(f, pinned) => if s.cleaned[f] { ChooseFiberInv(s, t, f); } else { GotBackInv(s, t, f, pinned); }
          case Back(f, pinned) => if pinned { PutBackPinnedInv(s, t, f); } else { PutBackReadyInv(s, t, f); }
          case Resume(f) => SwitchToInv(s, t, f, ToPool);
          case Scan(_, _, _, _, _) => ScanStepInv(s, t);
          case Waiting(_, _, _, _) => WaitStepInv(s, t);
        }
      case GetPinned(t) => TakePinnedInv(s, t);
      case GetReady(t) => TakeReadyInv(s, t);
      case GetTask(t) => StartTaskInv(s, t);
      case Increment(t, c, amount, finishing) => UpdateInv(s, t, c, amount, finishing);
      case Wait(t, c, target, pinned) =>
        BeginWaitInv(s, t, Waiting(c, target, if pinned then Some(t) else None, Begin));
      case Renew(c) => ResetInv(s, c);
    }
  }

  /** One step of a run. */
  lemma RunStep(states: seq<State>, actions: seq<Action>, k: nat)
    requires RunOf(states, actions) && k < |actions|
    ensures |states| == |actions| + 1 && Enabled(states[k], actions[k]) && Disciplined(states[k], actions[k])
    ensures states[k + 1] == Do(states[k], actions[k])
  {
  }

  lemma {:induction false} RunInv(states: seq<State>, actions: seq<Action>, k: nat)
    requires RunOf(states, actions) && Init(states[0]) && k < |states|
    ensures Inv(states[k])
  {
    if k == 0 {
      InitInv(states[0]);
    } else {
      RunInv(states, actions, k - 1);
      StepInv(states[k - 1], actions[k - 1]);
    }
  }
}

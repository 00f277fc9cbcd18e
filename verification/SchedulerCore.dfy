/**
  The wait/wake protocol and the fiber hand-off of the scheduler as a transition system.

  One action is one atomic access to shared memory (or one lock-protected region) of one
  thread; memory is sequentially consistent.  The numbers of threads, fibers, counters and
  waiting slots are arbitrary.  Fields of `State` up to `ready` are the program's own
  variables; the fields after it are history variables: no guard and no program variable
  ever depends on them.
 */
module SchedulerCore {
  import opened Prelude

  /** Where a fiber goes when its thread leaves it. */
  datatype Dest = ToWaiting | ToPool

  /** previous_fiber_index and previous_fiber_dest of a thread. */
  datatype Prev = NoPrev | Prev(fiber: nat, dest: Dest)

  datatype SlotId = SlotId(counter: nat, index: nat)

  /** Position of a checker inside one iteration of counterCheckWaitingFibers. */
  datatype ScanPhase = AtFree | AtInUse | AtTarget | AtClaim | AtEnqueue | AtRelease

  /** Position of a waiter inside wait / counterAddWaitingFiber. */
  datatype WaitPhase =
    | Begin                        // about to clear is_waiting_cleaned_up
    | Try(i: nat)                  // about to CAS free_waiting_slots[i]
    | Fill(i: nat)                 // slot acquired, about to write its plain fields
    | Open(i: nat)                 // about to store in_use = false
    | Load(i: nat)                 // about to load the count
    | Check(i: nat, seen: int)     // count loaded, about to load in_use
    | Compare(i: nat, seen: int)   // in_use was false, about to read the slot's target
    | Cas(i: nat, seen: int)       // the target equals the count loaded, about to CAS in_use
    | FreeSlot(i: nat)             // claimed by itself, about to free the slot
    | Take                         // about to dequeue an idle fiber
    | Leave(idle: nat)             // idle fiber obtained, about to switch to it

  /** What the fiber that is current on a thread does next. */
  datatype Pc =
    | Clean                                  // just switched in: cleanUpPrevFiber is next
    | Loop                                   // task loop, at one of the attempts of getNextTask
    | Got(fiber: nat, pinned: bool)          // dequeued a resumable fiber, CAS is next
    | Back(fiber: nat, pinned: bool)         // fiber was not cleaned up, re-enqueue is next
    | Resume(fiber: nat)                     // CAS succeeded, about to switch to the fiber
    | User                                   // inside task code
    | Scan(counter: nat, value: int, i: nat, phase: ScanPhase, finishing: bool)
    | Waiting(counter: nat, target: int, pin: Option<nat>, wait: WaitPhase)

  datatype Slot = Slot(free: bool, inUse: bool, target: int, fiber: nat, pin: Option<nat>)

  /** History: the one place a fiber is at. */
  datatype Place = Idle | Drawn(t: nat) | Running(t: nat) | Leaving(t: nat) | Parked | Chosen(t: nat)

  /** History: the one wake token of a fiber that waits. */
  datatype Wake = Awake | InSlot(id: SlotId) | Claimed(t: nat) | Queued(home: Option<nat>) | Held(t: nat)

  /** History: who is responsible for a slot. */
  datatype Holder = Vacant | Taken(fiber: nat) | Opened(fiber: nat) | ByChecker(t: nat) | BySelf(t: nat)

  datatype State = State(
    width: nat,                    // waiting slots per counter (max_waiting)
    pc: seq<Pc>,                   // per thread
    cur: seq<nat>,                 //   current_fiber_index
    prev: seq<Prev>,               //   previous fiber and its destination
    pinned: seq<seq<nat>>,         //   pinned_resumable_fibers
    cleaned: seq<bool>,            // per fiber: is_waiting_cleaned_up
    busy: seq<bool>,               //   inside a task, so it continues in task code
    counts: seq<int>,              // per counter
    slots: map<SlotId, Slot>,
    idle: seq<nat>,                // mIdleFibers
    ready: seq<nat>,               // mResumableFibers
    place: seq<Place>,             // history, per fiber
    wake: seq<Wake>,
    home: seq<Option<nat>>,        // the thread a fiber's last wait was pinned to
    holder: map<SlotId, Holder>,   // history, per slot
    last: seq<nat>)                // history, per counter: the thread of the latest fetch_add

  // ----- shape of a state ---------------------------------------------------------------

  predicate PcShape(pc: Pc, width: nat, counters: nat, fibers: nat) {
    match pc
    case Got(f, _) => f < fibers
    case Back(f, _) => f < fibers
    case Resume(f) => f < fibers
    case Scan(c, _, i, _, _) => c < counters && i < width
    case Waiting(c, _, _, Begin) => c < counters
    case Waiting(c, _, _, Try(i)) => c < counters && i <= width
    case Waiting(c, _, _, Take) => c < counters
    case Waiting(c, _, _, Leave(g)) => c < counters && g < fibers
    case Waiting(c, _, _, ph) => c < counters && ph.i < width
    case _ => true
  }

  /** Every index stored anywhere is in range. */
  ghost predicate Shape(s: State) {
    && s.width > 0
    && |s.pc| == |s.cur| == |s.prev| == |s.pinned|
    && |s.cleaned| == |s.busy| == |s.place| == |s.wake| == |s.home|
    && |s.last| == |s.counts|
    && (forall id :: id in s.slots <==> id.counter < |s.counts| && id.index < s.width)
    && s.holder.Keys == s.slots.Keys
    && (forall t: nat :: t < |s.pc| ==> PcShape(s.pc[t], s.width, |s.counts|, |s.place|))
    && (forall t: nat :: t < |s.cur| ==> s.cur[t] < |s.place|)
    && (forall t: nat :: t < |s.prev| && s.prev[t].Prev? ==> s.prev[t].fiber < |s.place|)
    && (forall id :: id in s.slots ==> s.slots[id].fiber < |s.place|)
  }

  // ----- actions: fiber hand-off ---------------------------------------------------------

  /** A step of thread t that only moves its control point. */
  function Goto(s: State, t: nat, pc: Pc): State
    requires t < |s.pc|
  {
    s.(pc := s.pc[t := pc])
  }

  /** cleanUpPrevFiber */
  ghost function CleanUp(s: State, t: nat): State
    requires Shape(s) && t < |s.pc| && s.pc[t].Clean?
  {
    var p := s.prev[t];
    s.(pc := s.pc[t := if s.busy[s.cur[t]] then User else Loop],
       prev := s.prev[t := NoPrev],
       idle := if p.Prev? && p.dest.ToPool? then s.idle + [p.fiber] else s.idle,
       cleaned := if p.Prev? && p.dest.ToWaiting? then s.cleaned[p.fiber := true] else s.cleaned,
       place := if p.Prev? then s.place[p.fiber := if p.dest.ToPool? then Idle else Parked] else s.place)
  }

  /** getNextTask: dequeue from this thread's pinned resumables. */
  ghost function TakePinned(s: State, t: nat): State
    requires Shape(s) && t < |s.pc| && s.pinned[t] != [] && s.pinned[t][0] < |s.place|
  {
    var f := s.pinned[t][0];
    s.(pc := s.pc[t := Got(f, true)], pinned := s.pinned[t := s.pinned[t][1..]], wake := s.wake[f := Held(t)])
  }

  /** getNextTask: dequeue from the global resumables. */
  ghost function TakeReady(s: State, t: nat): State
    requires Shape(s) && t < |s.pc| && s.ready != [] && s.ready[0] < |s.place|
  {
    s.(pc := s.pc[t := Got(s.ready[0], false)], ready := s.ready[1..], wake := s.wake[s.ready[0] := Held(t)])
  }

  /** tryResumeFiber: the CAS of is_waiting_cleaned_up from true to false succeeded. */
  ghost function ChooseFiber(s: State, t: nat, f: nat): State
    requires Shape(s) && t < |s.pc| && f < |s.place|
  {
    s.(pc := s.pc[t := Resume(f)],
       cleaned := s.cleaned[f := false],
       place := s.place[f := Chosen(t)],
       wake := s.wake[f := Awake])
  }

  /** getNextTask: the fiber is still leaving its stack, put it back. */
  ghost function PutBackPinned(s: State, t: nat, f: nat): State
    requires Shape(s) && t < |s.pc| && f < |s.place|
  {
    s.(pc := s.pc[t := Loop], pinned := s.pinned[t := s.pinned[t] + [f]], wake := s.wake[f := Queued(Some(t))])
  }

  ghost function PutBackReady(s: State, t: nat, f: nat): State
    requires Shape(s) && t < |s.pc| && f < |s.place|
  {
    s.(pc := s.pc[t := Loop], ready := s.ready + [f], wake := s.wake[f := Queued(None)])
  }

  /** yieldToFiber: leave the current fiber for f. */
  ghost function SwitchTo(s: State, t: nat, f: nat, dest: Dest): State
    requires Shape(s) && t < |s.pc| && f < |s.place|
  {
    s.(pc := s.pc[t := Clean],
       cur := s.cur[t := f],
       prev := s.prev[t := Prev(s.cur[t], dest)],
       place := s.place[s.cur[t] := Leaving(t)][f := Running(t)])
  }

  /** getNextTask returned a task: its code starts on the current fiber. */
  ghost function StartTask(s: State, t: nat): State
    requires Shape(s) && t < |s.pc|
  {
    s.(pc := s.pc[t := User], busy := s.busy[s.cur[t] := true])
  }

  // ----- actions: changing a counter and scanning its slots ------------------------------

  /** counterIncrement: the fetch_add.  `finishing` tells the decrement after a task's end
      from a call made by task code. */
  ghost function Update(s: State, t: nat, c: nat, amount: int, finishing: bool): State
    requires Shape(s) && t < |s.pc| && c < |s.counts|
  {
    s.(pc := s.pc[t := Scan(c, s.counts[c] + amount, 0, AtFree, finishing)],
       counts := s.counts[c := s.counts[c] + amount],
       last := s.last[c := t],
       busy := s.busy[s.cur[t] := !finishing])
  }

  /** The next iteration of the scan loop, or what follows the loop. */
  function NextSlot(width: nat, pc: Pc): Pc
    requires pc.Scan?
  {
    if pc.i + 1 < width then Scan(pc.counter, pc.value, pc.i + 1, AtFree, pc.finishing)
    else if pc.finishing then Loop
    else User
  }

  /** Where the scan goes after looking at slot id without writing to it. */
  function LookAt(width: nat, pc: Pc, slot: Slot): Pc
    requires pc.Scan?
  {
    match pc.phase
    case AtFree => if slot.free then NextSlot(width, pc) else pc.(phase := AtInUse)
    case AtInUse => if slot.inUse then NextSlot(width, pc) else pc.(phase := AtTarget)
    case AtTarget => if slot.target == pc.value then pc.(phase := AtClaim) else NextSlot(width, pc)
    case _ => NextSlot(width, pc)
  }

  /** The checker's CAS of in_use from false to true succeeded. */
  ghost function ClaimByChecker(s: State, t: nat, pc: Pc, id: SlotId): State
    requires Shape(s) && t < |s.pc| && pc.Scan? && id in s.slots
  {
    s.(pc := s.pc[t := pc.(phase := AtEnqueue)],
       slots := s.slots[id := s.slots[id].(inUse := true)],
       holder := s.holder[id := ByChecker(t)],
       wake := s.wake[s.slots[id].fiber := Claimed(t)])
  }

  /** The checker enqueues the slot's fiber to the global resumables. */
  ghost function EnqueueReady(s: State, t: nat, pc: Pc, f: nat): State
    requires Shape(s) && t < |s.pc| && pc.Scan? && f < |s.place|
  {
    s.(pc := s.pc[t := pc.(phase := AtRelease)], ready := s.ready + [f], wake := s.wake[f := Queued(None)])
  }

  /** The checker enqueues the slot's fiber to the pinned resumables of thread u. */
  ghost function EnqueuePinned(s: State, t: nat, pc: Pc, f: nat, u: nat): State
    requires Shape(s) && t < |s.pc| && pc.Scan? && f < |s.place| && u < |s.pc|
  {
    s.(pc := s.pc[t := pc.(phase := AtRelease)],
       pinned := s.pinned[u := s.pinned[u] + [f]],
       wake := s.wake[f := Queued(Some(u))])
  }

  /** Store true to the slot's free flag and go on at pc. */
  ghost function Release(s: State, t: nat, pc: Pc, id: SlotId): State
    requires Shape(s) && t < |s.pc| && id in s.slots
  {
    s.(pc := s.pc[t := pc],
       slots := s.slots[id := s.slots[id].(free := true)],
       holder := s.holder[id := Vacant])
  }

  // ----- actions: waiting ----------------------------------------------------------------

  /** wait: is_waiting_cleaned_up := false */
  ghost function MarkWaiting(s: State, t: nat, pc: Pc): State
    requires Shape(s) && t < |s.pc| && pc.Waiting?
  {
    s.(pc := s.pc[t := pc.(wait := Try(0))], cleaned := s.cleaned[s.cur[t] := false])
  }

  /** The CAS of free_waiting_slots[i] from true to false succeeded. */
  ghost function AcquireSlot(s: State, t: nat, pc: Pc, id: SlotId): State
    requires Shape(s) && t < |s.pc| && pc.Waiting? && id in s.slots
  {
    s.(pc := s.pc[t := pc.(wait := Fill(id.index))],
       slots := s.slots[id := s.slots[id].(free := false)],
       holder := s.holder[id := Taken(s.cur[t])],
       wake := s.wake[s.cur[t] := InSlot(id)],
       home := s.home[s.cur[t] := pc.pin])
  }

  /** The plain stores of fiber index, target and pinned thread. */
  ghost function FillSlot(s: State, t: nat, pc: Pc, id: SlotId): State
    requires Shape(s) && t < |s.pc| && pc.Waiting? && id in s.slots
  {
    s.(pc := s.pc[t := pc.(wait := Open(id.index))],
       slots := s.slots[id := s.slots[id].(fiber := s.cur[t], target := pc.target, pin := pc.pin)])
  }

  /** in_use := false */
  ghost function OpenSlot(s: State, t: nat, pc: Pc, id: SlotId): State
    requires Shape(s) && t < |s.pc| && pc.Waiting? && id in s.slots
  {
    s.(pc := s.pc[t := pc.(wait := Load(id.index))],
       slots := s.slots[id := s.slots[id].(inUse := false)],
       holder := s.holder[id := Opened(s.cur[t])])
  }

  /** The waiter's own CAS of in_use from false to true succeeded. */
  ghost function ClaimBySelf(s: State, t: nat, pc: Pc, id: SlotId): State
    requires Shape(s) && t < |s.pc| && pc.Waiting? && id in s.slots
  {
    s.(pc := s.pc[t := pc.(wait := FreeSlot(id.index))],
       slots := s.slots[id := s.slots[id].(inUse := true)],
       holder := s.holder[id := BySelf(t)],
       wake := s.wake[s.cur[t] := Awake])
  }

  /** acquireFreeFiber */
  ghost function TakeIdle(s: State, t: nat, pc: Pc): State
    requires Shape(s) && t < |s.pc| && pc.Waiting? && s.idle != [] && s.idle[0] < |s.place|
  {
    s.(pc := s.pc[t := pc.(wait := Leave(s.idle[0]))], idle := s.idle[1..], place := s.place[s.idle[0] := Drawn(t)])
  }

  /** atomic_counter_t::reset, called when a counter is acquired again. */
  ghost function Reset(s: State, c: nat): State
    requires Shape(s) && c < |s.counts|
  {
    s.(counts := s.counts[c := 0],
       slots := map id | id in s.slots :: if id.counter == c then s.slots[id].(free := true) else s.slots[id])
  }

  // ----- the transition system -----------------------------------------------------------

  /** Advance: the one thing thread t does next where its code leaves no choice. */
  datatype Action =
    | Advance(t: nat)
    | GetPinned(t: nat)
    | GetReady(t: nat)
    | GetTask(t: nat)
    | Increment(t: nat, counter: nat, amount: int, finishing: bool)
    | Wait(t: nat, counter: nat, target: int, pinned: bool)
    | Renew(counter: nat)

  /** The code of thread t can go on by itself. */
  ghost predicate CanAdvance(s: State, t: nat) {
    && Shape(s) && t < |s.pc|
    && match s.pc[t]
       case Loop => false
       case User => false
       case Scan(c, _, i, AtEnqueue, _) =>
         var pin := s.slots[SlotId(c, i)].pin;
         pin.Some? ==> pin.value < |s.pc|
       case Waiting(_, _, _, Try(i)) => i < s.width
       case Waiting(_, _, _, Take) => s.idle != [] && s.idle[0] < |s.place|
       case _ => true
  }

  ghost predicate Enabled(s: State, a: Action) {
    && Shape(s)
    && match a
       case Advance(t) => CanAdvance(s, t)
       case GetPinned(t) => t < |s.pc| && s.pc[t].Loop? && s.pinned[t] != [] && s.pinned[t][0] < |s.place|
       case GetReady(t) => t < |s.pc| && s.pc[t].Loop? && s.ready != [] && s.ready[0] < |s.place|
       case GetTask(t) => t < |s.pc| && s.pc[t].Loop?
       case Increment(t, c, amount, _) => t < |s.pc| && s.pc[t].User? && c < |s.counts| && amount != 0
       case Wait(t, c, target, _) => t < |s.pc| && s.pc[t].User? && c < |s.counts| && target >= 0
       case Renew(c) => c < |s.counts|
  }

  ghost function ScanStep(s: State, t: nat): State
    requires CanAdvance(s, t) && s.pc[t].Scan?
  {
    var pc := s.pc[t];
    var id := SlotId(pc.counter, pc.i);
    var slot := s.slots[id];
    match pc.phase
    case AtClaim => if slot.inUse then Goto(s, t, NextSlot(s.width, pc)) else ClaimByChecker(s, t, pc, id)
    case AtEnqueue =>
      (match slot.pin
       case None => EnqueueReady(s, t, pc, slot.fiber)
       case Some(u) => EnqueuePinned(s, t, pc, slot.fiber, u))
    case AtRelease => Release(s, t, NextSlot(s.width, pc), id)
    case _ => Goto(s, t, LookAt(s.width, pc, slot))
  }

  ghost function WaitStep(s: State, t: nat): State
    requires CanAdvance(s, t) && s.pc[t].Waiting?
  {
    var pc := s.pc[t];
    match pc.wait
    case Begin => MarkWaiting(s, t, pc)
    case Try(i) =>
      var id := SlotId(pc.counter, i);
      if s.slots[id].free then AcquireSlot(s, t, pc, id) else Goto(s, t, pc.(wait := Try(i + 1)))
    case Fill(i) => FillSlot(s, t, pc, SlotId(pc.counter, i))
    case Open(i) => OpenSlot(s, t, pc, SlotId(pc.counter, i))
    case Load(i) => Goto(s, t, pc.(wait := Check(i, s.counts[pc.counter])))
    case Check(i, v) => Goto(s, t, pc.(wait := if s.slots[SlotId(pc.counter, i)].inUse then Take else Compare(i, v)))
    case Compare(i, v) => Goto(s, t, pc.(wait := if s.slots[SlotId(pc.counter, i)].target == v then Cas(i, v) else Take))
    case Cas(i, _) =>
      var id := SlotId(pc.counter, i);
      if s.slots[id].inUse then Goto(s, t, pc.(wait := Take)) else ClaimBySelf(s, t, pc, id)
    case FreeSlot(i) => Release(s, t, User, SlotId(pc.counter, i))
    case Take => TakeIdle(s, t, pc)
    case Leave(g) => SwitchTo(s, t, g, ToWaiting)
  }

  ghost function Do(s: State, a: Action): State
    requires Enabled(s, a)
  {
    match a
    case Advance(t) =>
      (match s.pc[t]
       case Clean => CleanUp(s, t)
       case Got(f, pinned) => if s.cleaned[f] then ChooseFiber(s, t, f) else Goto(s, t, Back(f, pinned))
       case Back(f, pinned) => if pinned then PutBackPinned(s, t, f) else PutBackReady(s, t, f)
       case Resume(f) => SwitchTo(s, t, f, ToPool)
       case Scan(_, _, _, _, _) => ScanStep(s, t)
       case Waiting(_, _, _, _) => WaitStep(s, t))
    case GetPinned(t) => TakePinned(s, t)
    case GetReady(t) => TakeReady(s, t)
    case GetTask(t) => StartTask(s, t)
    case Increment(t, c, amount, finishing) => Update(s, t, c, amount, finishing)
    case Wait(t, c, target, pinned) => Goto(s, t, Waiting(c, target, if pinned then Some(t) else None, Begin))
    case Renew(c) => Reset(s, c)
  }

  // ----- the hypotheses the code relies on and does not enforce ----------------------------

  /** A thread has registered in the slot and has not yet looked at the count and the slot for
      the last time: it still takes what it finds in the slot for its own registration. */
  predicate OccupantInside(pc: Pc, id: SlotId) {
    && pc.Waiting? && pc.counter == id.counter
    && (pc.wait == Load(id.index) || ((pc.wait.Check? || pc.wait.Compare? || pc.wait.Cas?) && pc.wait.i == id.index))
  }

  /** A checker has found the slot open and is about to compare its target or to claim it. */
  predicate CheckerInside(pc: Pc, id: SlotId) {
    pc.Scan? && pc.counter == id.counter && pc.i == id.index && (pc.phase.AtTarget? || pc.phase.AtClaim?)
  }

  /** H1: nobody is still working on the slot's previous occupancy. */
  ghost predicate SlotQuiet(s: State, id: SlotId) {
    forall t: nat :: t < |s.pc| ==> !OccupantInside(s.pc[t], id) && !CheckerInside(s.pc[t], id)
  }

  /** H2: no fiber is registered with the counter, and no slot is about to be released. */
  ghost predicate CounterQuiet(s: State, c: nat) {
    forall id :: id in s.slots && id.counter == c ==> s.slots[id].free
  }

  /** The action respects H1 and H2. */
  ghost predicate Disciplined(s: State, a: Action)
    requires Enabled(s, a)
  {
    match a
    case Advance(t) =>
      (match s.pc[t]
       case Waiting(c, _, _, Try(i)) => s.slots[SlotId(c, i)].free ==> SlotQuiet(s, SlotId(c, i))
       case _ => true)
    case Renew(c) => CounterQuiet(s, c)
    case _ => true
  }

  /** The states along a run of actions, each one allowed and respecting H1 and H2. */
  ghost predicate RunOf(states: seq<State>, actions: seq<Action>) {
    && |states| == |actions| + 1
    && forall k :: 0 <= k < |actions| ==>
         Enabled(states[k], actions[k]) && Disciplined(states[k], actions[k]) && states[k + 1] == Do(states[k], actions[k])
  }
}

/**
  The inductive invariant of the wait/wake protocol.  It is stated entity by entity:
  what holds of a thread, of a fiber, of a slot and of a queue.
 */
module SchedulerInv {
  import opened Prelude
  import opened SchedulerCore

  /** The thread is about to leave its fiber for f. */
  predicate Leaves(pc: Pc, f: nat, dest: Dest) {
    if dest.ToPool? then pc == Resume(f) else pc.Waiting? && pc.wait == Leave(f)
  }

  // ----- threads -------------------------------------------------------------------------

  /** The slot still carries what the waiter wrote, and if it is open it is open for that waiter. */
  ghost predicate OwnSlot(s: State, f: nat, target: int, pin: Option<nat>, id: SlotId)
    requires Shape(s) && f < |s.place| && id in s.slots
  {
    && s.slots[id].fiber == f && s.slots[id].target == target && s.slots[id].pin == pin
    && !s.holder[id].Taken?
    && (s.holder[id].Opened? ==> s.holder[id].fiber == f)
    && !s.wake[f].Awake? && (s.wake[f].InSlot? ==> s.wake[f].id == id) && s.home[f] == pin
  }

  ghost predicate WaitOk(s: State, t: nat, f: nat, c: nat, target: int, pin: Option<nat>, ph: WaitPhase)
    requires Shape(s) && f < |s.place| && PcShape(Waiting(c, target, pin, ph), s.width, |s.counts|, |s.place|)
  {
    && s.busy[f]
    && (pin.Some? ==> pin.value == t)
    && match ph
       case Begin => s.wake[f].Awake?
       case Try(_) => s.wake[f].Awake?
       case Fill(i) => s.holder[SlotId(c, i)] == Taken(f) && s.home[f] == pin
       case Open(i) =>
         && s.holder[SlotId(c, i)] == Taken(f) && s.home[f] == pin
         && s.slots[SlotId(c, i)].fiber == f
         && s.slots[SlotId(c, i)].target == target
         && s.slots[SlotId(c, i)].pin == pin
       case Load(i) => OwnSlot(s, f, target, pin, SlotId(c, i))
       case Check(i, _) => OwnSlot(s, f, target, pin, SlotId(c, i))
       case Compare(i, _) => OwnSlot(s, f, target, pin, SlotId(c, i))
       case Cas(i, v) => OwnSlot(s, f, target, pin, SlotId(c, i)) && v == target
       case FreeSlot(i) => s.holder[SlotId(c, i)] == BySelf(t) && s.wake[f].Awake?
       case Take => !s.wake[f].Awake? && s.home[f] == pin
       case Leave(g) => !s.wake[f].Awake? && s.home[f] == pin && s.place[g] == Drawn(t)
  }

  ghost predicate ScanOk(s: State, t: nat, value: int, id: SlotId, phase: ScanPhase)
    requires Shape(s) && id in s.slots
  {
    match phase
    case AtFree => true
    case AtInUse => true
    case AtTarget => !s.holder[id].Taken?
    case AtClaim => !s.holder[id].Taken? && s.slots[id].target == value
    case AtEnqueue =>
      && s.holder[id] == ByChecker(t) && s.wake[s.slots[id].fiber] == Claimed(t)
      && s.slots[id].pin == s.home[s.slots[id].fiber]
    case AtRelease => s.holder[id] == ByChecker(t)
  }

  ghost predicate PcOk(s: State, t: nat, f: nat, pc: Pc)
    requires Shape(s) && f < |s.place| && PcShape(pc, s.width, |s.counts|, |s.place|)
  {
    match pc
    case Clean => s.wake[f].Awake?
    case Loop => s.wake[f].Awake? && !s.busy[f]
    case Got(g, pinned) =>
      s.wake[f].Awake? && !s.busy[f] && s.wake[g] == Held(t) && s.home[g] == if pinned then Some(t) else None
    case Back(g, pinned) =>
      s.wake[f].Awake? && !s.busy[f] && s.wake[g] == Held(t) && s.home[g] == if pinned then Some(t) else None
    case Resume(g) =>
      s.wake[f].Awake? && !s.busy[f] && s.place[g] == Chosen(t) && (s.home[g].Some? ==> s.home[g].value == t)
    case User => s.wake[f].Awake? && s.busy[f]
    case Scan(c, value, i, phase, finishing) =>
      s.wake[f].Awake? && s.busy[f] == !finishing && ScanOk(s, t, value, SlotId(c, i), phase)
    case Waiting(c, target, pin, ph) => WaitOk(s, t, f, c, target, pin, ph)
  }

  ghost predicate ThreadOk(s: State, t: nat)
    requires Shape(s) && t < |s.pc|
  {
    && s.place[s.cur[t]] == Running(t)
    && (s.prev[t].Prev? ==> s.pc[t].Clean? && s.place[s.prev[t].fiber] == Leaving(t))
    && PcOk(s, t, s.cur[t], s.pc[t])
  }

  // ----- fibers --------------------------------------------------------------------------

  ghost predicate PlaceOk(s: State, f: nat)
    requires Shape(s) && f < |s.place|
  {
    && (s.cleaned[f] <==> s.place[f].Parked?)
    && match s.place[f]
       case Idle => f in s.idle && s.wake[f].Awake? && !s.busy[f]
       case Drawn(t) => t < |s.pc| && s.pc[t].Waiting? && s.pc[t].wait == Leave(f) && s.wake[f].Awake? && !s.busy[f]
       case Running(t) => t < |s.pc| && s.cur[t] == f
       case Leaving(t) =>
         && t < |s.pc| && s.prev[t].Prev? && s.prev[t].fiber == f
         && s.busy[f] == s.prev[t].dest.ToWaiting?
         && s.wake[f].Awake? == s.prev[t].dest.ToPool?
       case Parked => !s.wake[f].Awake? && s.busy[f]
       case Chosen(t) => t < |s.pc| && s.pc[t] == Resume(f) && s.wake[f].Awake? && s.busy[f]
  }

  ghost predicate WakeOk(s: State, f: nat)
    requires Shape(s) && f < |s.place|
  {
    match s.wake[f]
    case Awake => true
    case InSlot(id) => id in s.slots && (s.holder[id] == Taken(f) || s.holder[id] == Opened(f))
    case Claimed(t) =>
      && t < |s.pc| && s.pc[t].Scan? && s.pc[t].phase.AtEnqueue?
      && s.slots[SlotId(s.pc[t].counter, s.pc[t].i)].fiber == f
    case Queued(None) => f in s.ready && s.home[f].None?
    case Queued(Some(u)) => u < |s.pc| && f in s.pinned[u] && s.home[f] == Some(u)
    case Held(t) => t < |s.pc| && (s.pc[t].Got? || s.pc[t].Back?) && s.pc[t].fiber == f
  }

  ghost predicate FiberOk(s: State, f: nat)
    requires Shape(s) && f < |s.place|
  {
    PlaceOk(s, f) && WakeOk(s, f) && (s.home[f].Some? ==> s.home[f].value < |s.pc|)
  }

  // ----- slots ---------------------------------------------------------------------------

  ghost predicate SlotOk(s: State, id: SlotId)
    requires Shape(s) && id in s.slots
  {
    var slot := s.slots[id];
    && (slot.free <==> s.holder[id].Vacant?)
    && (!slot.inUse <==> s.holder[id].Opened?)
    && match s.holder[id]
       case Vacant => true
       case Taken(f) =>
         && f < |s.place| && s.wake[f] == InSlot(id) && s.place[f].Running? && s.place[f].t < |s.pc|
         && var pc := s.pc[s.place[f].t];
            pc.Waiting? && pc.counter == id.counter && (pc.wait == Fill(id.index) || pc.wait == Open(id.index))
       case Opened(f) => f < |s.place| && s.wake[f] == InSlot(id) && slot.fiber == f && slot.pin == s.home[f]
       case ByChecker(t) =>
         && t < |s.pc| && s.pc[t].Scan? && s.pc[t].counter == id.counter && s.pc[t].i == id.index
         && (s.pc[t].phase.AtEnqueue? || s.pc[t].phase.AtRelease?)
       case BySelf(t) =>
         t < |s.pc| && s.pc[t].Waiting? && s.pc[t].counter == id.counter && s.pc[t].wait == FreeSlot(id.index)
  }

  // ----- no lost wake --------------------------------------------------------------------

  /** A waiter that has not yet compared the count with its target and missed. */
  predicate StillLooking(pc: Pc) {
    pc.Waiting? &&
    match pc.wait
    case Load(_) => true
    case Check(_, v) => v == pc.target
    case Compare(_, v) => v == pc.target
    case Cas(_, v) => v == pc.target
    case _ => false
  }

  /** A scan that will still examine the slot and, unless the slot is claimed first, claim it. */
  predicate Pending(pc: Pc, id: SlotId, value: int) {
    && pc.Scan? && pc.counter == id.counter && pc.value == value
    && (pc.i < id.index ||
        (pc.i == id.index && !pc.phase.AtEnqueue? && !pc.phase.AtRelease?))
  }

  /** The fiber is current on a thread that is still looking at the count. */
  ghost predicate Looking(s: State, f: nat)
    requires Shape(s) && f < |s.place|
  {
    s.place[f].Running? && s.place[f].t < |s.pc| && StillLooking(s.pc[s.place[f].t])
  }

  ghost predicate NotLost(s: State, id: SlotId)
    requires Shape(s) && id in s.slots
  {
    s.holder[id].Opened? && s.counts[id.counter] == s.slots[id].target && !Looking(s, s.slots[id].fiber) ==>
      var u := s.last[id.counter];
      u < |s.pc| && Pending(s.pc[u], id, s.counts[id.counter])
  }

  // ----- queues --------------------------------------------------------------------------

  ghost predicate PlacedQueue(s: State, q: seq<nat>, p: Place) {
    NoDup(q) && forall k :: 0 <= k < |q| ==> q[k] < |s.place| && s.place[q[k]] == p
  }

  ghost predicate WakeQueue(s: State, q: seq<nat>, w: Wake) {
    NoDup(q) && forall k :: 0 <= k < |q| ==> q[k] < |s.wake| && s.wake[q[k]] == w
  }

  ghost predicate QueuesOk(s: State)
    requires Shape(s)
  {
    && PlacedQueue(s, s.idle, Idle)
    && WakeQueue(s, s.ready, Queued(None))
    && forall t: nat :: t < |s.pinned| ==> WakeQueue(s, s.pinned[t], Queued(Some(t)))
  }

  ghost predicate Inv(s: State) {
    && Shape(s)
    && QueuesOk(s)
    && (forall t: nat :: t < |s.pc| ==> ThreadOk(s, t))
    && (forall f: nat :: f < |s.place| ==> FiberOk(s, f))
    && (forall id :: id in s.slots ==> SlotOk(s, id))
    && (forall id :: id in s.slots ==> NotLost(s, id))
  }

  ghost predicate Init(s: State) {
    && Shape(s)
    && 0 < |s.pc| <= |s.place|
    && s.idle == seq(|s.place| - |s.pc|, k => |s.pc| + k)
    && s.ready == []
    && (forall t: nat :: t < |s.pc| ==>
         s.pc[t] == (if t == 0 then User else Clean) && s.cur[t] == t && s.prev[t] == NoPrev && s.pinned[t] == [])
    && (forall f: nat :: f < |s.place| ==>
         && !s.cleaned[f] && s.busy[f] == (f == 0) && s.wake[f] == Awake && s.home[f] == None
         && s.place[f] == if f < |s.pc| then Running(f) else Idle)
    && (forall id :: id in s.slots ==> s.slots[id].free && s.slots[id].inUse && s.holder[id] == Vacant)
    && (forall c: nat :: c < |s.counts| ==> s.counts[c] == 0)
  }

  lemma InitInv(s: State)
    requires Init(s)
    ensures Inv(s)
  {
    forall f: nat | f < |s.place| ensures FiberOk(s, f) {
      if f >= |s.pc| { assert s.idle[f - |s.pc|] == f; }
    }
  }
}

/**
  Why hypotheses H1, H2 and H3 are needed.  Without H1 the code can resolve one wait twice and
  lose another, or resolve a wait for the wrong value; without H2 it forgets a wait; without H3
  it ends a wait for 0 too early.
 */
module SchedulerHazards {
  import opened Prelude
  import Runs
  import opened SchedulerCore
  import opened SchedulerInv
  import opened SchedulerTheorems

  /** A step of the code; a strict step also respects H1 and H2. */
  ghost predicate Step(strict: bool, s: State, a: Action, q: State) {
    Enabled(s, a) && (strict ==> Disciplined(s, a)) && q == Do(s, a)
  }

  ghost function Steps(strict: bool): (State, Action, State) -> bool {
    (s, a, q) => Step(strict, s, a, q)
  }

  /** The code can get from s to q. */
  ghost predicate Reaches(strict: bool, s: State, q: State) {
    Runs.Connected(Steps(strict), s, q)
  }

  lemma Here(strict: bool, s: State)
    ensures Reaches(strict, s, s)
  {
    Runs.ConnectedToItself(Steps(strict), s);
  }

  lemma OneStep(strict: bool, o: State, s: State, a: Action, q: State)
    requires Reaches(strict, o, s) && Step(strict, s, a, q)
    ensures Reaches(strict, o, q)
  {
    Runs.ConnectedByStep(Steps(strict), o, s, a, q);
  }

  // ----- single steps of a waiter on slot id ---------------------------------------------------------------

  ghost predicate WaiterAt(s: State, t: nat, id: SlotId, ph: WaitPhase) {
    && Shape(s) && t < |s.pc| && id in s.slots
    && s.pc[t].Waiting? && s.pc[t].counter == id.counter && s.pc[t].wait == ph
  }

  /** Fields that a waiter's steps on a slot never touch. */
  ghost predicate SameElse(q: State, s: State) {
    && Shape(q) && q.cur == s.cur && q.counts == s.counts && q.ready == s.ready && q.pinned == s.pinned
    && q.prev == s.prev && q.busy == s.busy && q.width == s.width
  }

  /** The step of thread t leaves it at pc and the slot as given. */
  ghost predicate Moved(s: State, q: State, t: nat, pc: Pc, id: SlotId, slot: Slot)
    requires t < |s.pc|
  {
    SameElse(q, s) && q.pc == s.pc[t := pc] && q.slots == s.slots[id := slot]
  }

  lemma AcquireStep(strict: bool, o: State, s: State, t: nat, id: SlotId) returns (q: State)
    requires Reaches(strict, o, s) && WaiterAt(s, t, id, Try(id.index)) && s.slots[id].free && (strict ==> SlotQuiet(s, id))
    ensures Reaches(strict, o, q)
    ensures Moved(s, q, t, s.pc[t].(wait := Fill(id.index)), id, s.slots[id].(free := false))
  {
    q := AcquireSlot(s, t, s.pc[t], id);
    OneStep(strict, o, s, Advance(t), q);
  }

  lemma FillStep(strict: bool, o: State, s: State, t: nat, id: SlotId) returns (q: State)
    requires Reaches(strict, o, s) && WaiterAt(s, t, id, Fill(id.index))
    ensures Reaches(strict, o, q)
    ensures Moved(s, q, t, s.pc[t].(wait := Open(id.index)), id,
                  s.slots[id].(fiber := s.cur[t], target := s.pc[t].target, pin := s.pc[t].pin))
  {
    q := FillSlot(s, t, s.pc[t], id);
    OneStep(strict, o, s, Advance(t), q);
  }

  lemma OpenStep(strict: bool, o: State, s: State, t: nat, id: SlotId) returns (q: State)
    requires Reaches(strict, o, s) && WaiterAt(s, t, id, Open(id.index))
    ensures Reaches(strict, o, q)
    ensures Moved(s, q, t, s.pc[t].(wait := Load(id.index)), id, s.slots[id].(inUse := false))
  {
    q := OpenSlot(s, t, s.pc[t], id);
    OneStep(strict, o, s, Advance(t), q);
  }

  lemma LoadStep(strict: bool, o: State, s: State, t: nat, id: SlotId) returns (q: State)
    requires Reaches(strict, o, s) && WaiterAt(s, t, id, Load(id.index))
    ensures Reaches(strict, o, q)
    ensures Moved(s, q, t, s.pc[t].(wait := Check(id.index, s.counts[id.counter])), id, s.slots[id])
  {
    q := Goto(s, t, s.pc[t].(wait := Check(id.index, s.counts[id.counter])));
    OneStep(strict, o, s, Advance(t), q);
  }

  lemma CheckStep(strict: bool, o: State, s: State, t: nat, id: SlotId, v: int) returns (q: State)
    requires Reaches(strict, o, s) && WaiterAt(s, t, id, Check(id.index, v)) && !s.slots[id].inUse
    ensures Reaches(strict, o, q) && Moved(s, q, t, s.pc[t].(wait := Compare(id.index, v)), id, s.slots[id])
  {
    q := Goto(s, t, s.pc[t].(wait := Compare(id.index, v)));
    OneStep(strict, o, s, Advance(t), q);
  }

  lemma CompareStep(strict: bool, o: State, s: State, t: nat, id: SlotId, v: int) returns (q: State)
    requires Reaches(strict, o, s) && WaiterAt(s, t, id, Compare(id.index, v)) && s.slots[id].target == v
    ensures Reaches(strict, o, q) && Moved(s, q, t, s.pc[t].(wait := Cas(id.index, v)), id, s.slots[id])
  {
    q := Goto(s, t, s.pc[t].(wait := Cas(id.index, v)));
    OneStep(strict, o, s, Advance(t), q);
  }

  lemma CasStep(strict: bool, o: State, s: State, t: nat, id: SlotId, v: int) returns (q: State)
    requires Reaches(strict, o, s) && WaiterAt(s, t, id, Cas(id.index, v)) && !s.slots[id].inUse
    ensures Reaches(strict, o, q)
    ensures Moved(s, q, t, s.pc[t].(wait := FreeSlot(id.index)), id, s.slots[id].(inUse := true))
  {
    q := ClaimBySelf(s, t, s.pc[t], id);
    OneStep(strict, o, s, Advance(t), q);
  }

  lemma ReturnStep(strict: bool, o: State, s: State, t: nat, id: SlotId) returns (q: State)
    requires Reaches(strict, o, s) && WaiterAt(s, t, id, FreeSlot(id.index))
    ensures Reaches(strict, o, q) && Moved(s, q, t, User, id, s.slots[id].(free := true))
  {
    q := Release(s, t, User, id);
    OneStep(strict, o, s, Advance(t), q);
  }

  // ----- the stale occupant ----------------------------------------------------------------------------------

  /** Thread t is registered in slot id and has not compared the count with its target for good. */
  ghost predicate OccupantAt(s: State, t: nat, id: SlotId) {
    Shape(s) && t < |s.pc| && id in s.slots && OccupantInside(s.pc[t], id)
  }

  /** The count that an occupant compares with the target: loaded already or about to be loaded. */
  function CountSeen(counts: seq<int>, pc: Pc): int
    requires pc.Waiting? && pc.counter < |counts| && (pc.wait.Load? || pc.wait.Check? || pc.wait.Compare? || pc.wait.Cas?)
  {
    if pc.wait.Load? then counts[pc.counter] else pc.wait.seen
  }

  /** The occupant will claim a registration for the given target, if it finds it open; once it
      has compared, it claims any. */
  predicate WouldClaim(counts: seq<int>, pc: Pc, target: int)
    requires pc.Waiting? && pc.counter < |counts| && (pc.wait.Load? || pc.wait.Check? || pc.wait.Compare? || pc.wait.Cas?)
  {
    pc.wait.Cas? || CountSeen(counts, pc) == target
  }

  /** Thread t is still inside counterAddWaitingFiber on slot id although a checker has resolved
      its wait and freed the slot; thread u is about to take the slot and waits for a value for
      which t would claim it. */
  ghost predicate StaleOccupant(s: State, t: nat, u: nat, id: SlotId) {
    && t != u && OccupantAt(s, t, id) && WaiterAt(s, u, id, Try(id.index))
    && s.slots[id].free && WouldClaim(s.counts, s.pc[t], s.pc[u].target)
  }

  /** Thread u registers in the slot. */
  lemma RegisterSteps(strict: bool, o: State, s: State, u: nat, id: SlotId) returns (q: State)
    requires Reaches(strict, o, s) && WaiterAt(s, u, id, Try(id.index)) && s.slots[id].free && (strict ==> SlotQuiet(s, id))
    ensures Reaches(strict, o, q)
    ensures Moved(s, q, u, s.pc[u].(wait := Load(id.index)), id, Slot(false, false, s.pc[u].target, s.cur[u], s.pc[u].pin))
  {
    hide Shape, Reaches, SlotQuiet;
    q := AcquireStep(strict, o, s, u, id);
    q := FillStep(strict, o, q, u, id);
    q := OpenStep(strict, o, q, u, id);
  }

  /** Thread t claims the registration it finds in the slot and frees the slot. */
  lemma TakeBackSteps(strict: bool, o: State, s: State, t: nat, id: SlotId) returns (q: State)
    requires Reaches(strict, o, s) && OccupantAt(s, t, id) && s.pc[t].wait.Cas? && !s.slots[id].inUse
    ensures Reaches(strict, o, q) && Moved(s, q, t, User, id, s.slots[id].(inUse := true, free := true))
  {
    hide Shape, Reaches;
    var m := CasStep(strict, o, s, t, id, s.pc[t].wait.seen);
    assert m.slots[id] == s.slots[id].(inUse := true);
    q := ReturnStep(strict, o, m, t, id);
    assert q.slots == s.slots[id := s.slots[id].(inUse := true, free := true)];
  }

  /** Thread t looks at the count and the slot until it has found them equal. */
  lemma CompareSteps(strict: bool, o: State, s: State, t: nat, id: SlotId) returns (q: State)
    requires Reaches(strict, o, s) && OccupantAt(s, t, id)
    requires !s.slots[id].inUse && WouldClaim(s.counts, s.pc[t], s.slots[id].target)
    ensures Reaches(strict, o, q)
    ensures SameElse(q, s) && q.slots == s.slots
    ensures q.pc == s.pc[t := s.pc[t].(wait := Cas(id.index, CountSeen(s.counts, s.pc[t])))]
    decreases if s.pc[t].wait.Load? then 3 else if s.pc[t].wait.Check? then 2 else if s.pc[t].wait.Compare? then 1 else 0
  {
    hide Shape, Reaches;
    var ph := s.pc[t].wait;
    if ph.Cas? {
      q := s;
    } else {
      match ph {
        case Load(_) => q := LoadStep(strict, o, s, t, id);
        case Check(_, v) => q := CheckStep(strict, o, s, t, id, v);
        case Compare(_, v) => q := CompareStep(strict, o, s, t, id, v);
      }
      assert q.slots == s.slots;
      q := CompareSteps(strict, o, q, t, id);
    }
  }

  /** Thread t takes the registration it finds in the slot for its own and returns early. */
  lemma EarlyReturnSteps(strict: bool, o: State, s: State, t: nat, id: SlotId) returns (q: State)
    requires Reaches(strict, o, s) && OccupantAt(s, t, id)
    requires !s.slots[id].inUse && WouldClaim(s.counts, s.pc[t], s.slots[id].target)
    ensures Reaches(strict, o, q) && Moved(s, q, t, User, id, s.slots[id].(inUse := true, free := true))
  {
    hide Shape, Reaches;
    var m := CompareSteps(strict, o, s, t, id);
    q := TakeBackSteps(strict, o, m, t, id);
  }

  /** The wake of the stale occupant is on its way already. */
  lemma LingeringToken(s: State, t: nat, id: SlotId) returns (token: Token)
    requires Inv(s) && OccupantAt(s, t, id) && s.slots[id].free
    ensures HasToken(s, s.cur[t], token) && !token.InOpenSlot?
    ensures token.BeingEnqueued? ==> SlotId(s.pc[token.t].counter, s.pc[token.t].i) != id
  {
    var f := s.cur[t];
    assert ThreadOk(s, t) && FiberOk(s, f) && SlotOk(s, id);
    match s.wake[f] {
      case Claimed(c) => assert ThreadOk(s, c); token := BeingEnqueued(c);
      case Queued(None) => var k: nat :| k < |s.ready| && s.ready[k] == f; token := InReady(k);
      case Queued(Some(w)) => var k: nat :| k < |s.pinned[w]| && s.pinned[w][k] == f; token := InPinned(w, k);
      case Held(w) => token := HeldBy(w);
    }
  }

  /** A fiber that is about to take a free slot has no token, and no checker is enqueuing from the slot. */
  lemma NoTokenYet(s: State, u: nat, id: SlotId, token: Token)
    requires Inv(s) && WaiterAt(s, u, id, Try(id.index)) && s.slots[id].free
    ensures !HasToken(s, s.cur[u], token)
    ensures token.BeingEnqueued? && token.t < |s.pc| && s.pc[token.t].Scan? && s.pc[token.t].phase.AtEnqueue? ==>
      SlotId(s.pc[token.t].counter, s.pc[token.t].i) != id
  {
    assert ThreadOk(s, u) && SlotOk(s, id);
    if HasToken(s, s.cur[u], token) { TokenMatchesWake(s, s.cur[u], token); }
    if token.BeingEnqueued? && token.t < |s.pc| { assert ThreadOk(s, token.t); }
  }

  /** What the two runs together do to tokens. */
  lemma TokensAfter(s: State, q: State, t: nat, u: nat, id: SlotId, slot: Slot, f: nat, token: Token)
    requires StaleOccupant(s, t, u, id) && SameElse(q, s) && slot.inUse
    requires q.pc == s.pc[u := s.pc[u].(wait := Load(id.index))][t := User] && q.slots == s.slots[id := slot]
    requires token.InOpenSlot? ==> token.id != id
    requires token.BeingEnqueued? && token.t < |s.pc| && s.pc[token.t].Scan? ==>
      SlotId(s.pc[token.t].counter, s.pc[token.t].i) != id
    ensures HasToken(q, f, token) <==> HasToken(s, f, token)
  {
  }

  /** From every such state the code alone reaches one in which fiber cur[t] is back in task
      code with a wake token still out for it, while the wait of fiber cur[u] has no token at
      all: one wait is resolved twice and the other is lost. */
  lemma StaleOccupantBreaksWaits(s: State, t: nat, u: nat, id: SlotId) returns (q: State)
    requires Inv(s) && StaleOccupant(s, t, u, id)
    ensures Reaches(false, s, q) && SameElse(q, s) && |q.pc| == |s.pc|
    ensures q.pc[t].User? && exists token :: HasToken(q, q.cur[t], token)
    ensures q.pc[u].Waiting? && q.pc[u].wait.Load? && forall token :: !HasToken(q, q.cur[u], token)
  {
    hide Inv, Reaches;
    Here(false, s);
    var m := RegisterSteps(false, s, s, u, id);
    q := EarlyReturnSteps(false, s, m, t, id);
    var slot := m.slots[id].(inUse := true, free := true);
    assert q.slots == s.slots[id := slot];
    var token := LingeringToken(s, t, id);
    TokensAfter(s, q, t, u, id, slot, s.cur[t], token);
    forall tk ensures !HasToken(q, q.cur[u], tk) {
      NoTokenYet(s, u, id, tk);
      OtherTokensAfter(s, q, t, u, id, slot, tk);
    }
  }

  /** The new registration leaves no token either: its slot is marked as in use. */
  lemma OtherTokensAfter(s: State, q: State, t: nat, u: nat, id: SlotId, slot: Slot, token: Token)
    requires StaleOccupant(s, t, u, id) && SameElse(q, s) && slot.inUse
    requires q.pc == s.pc[u := s.pc[u].(wait := Load(id.index))][t := User] && q.slots == s.slots[id := slot]
    requires !HasToken(s, s.cur[u], token)
    requires token.BeingEnqueued? && token.t < |s.pc| && s.pc[token.t].Scan? && s.pc[token.t].phase.AtEnqueue? ==>
      SlotId(s.pc[token.t].counter, s.pc[token.t].i) != id
    ensures !HasToken(q, q.cur[u], token)
  {
  }

  // ----- a disciplined run into that situation ------------------------------------------------------------------

  /** A thread without a previous fiber enters its task loop and starts a task. */
  lemma StartSteps(o: State, s: State, t: nat) returns (q: State)
    requires Reaches(true, o, s) && Shape(s) && t < |s.pc| && s.pc[t].Clean? && s.prev[t].NoPrev? && !s.busy[s.cur[t]]
    ensures Reaches(true, o, q) && Shape(q) && q.pc == s.pc[t := User]
    ensures q == s.(pc := q.pc, prev := s.prev, busy := s.busy[s.cur[t] := true])
  {
    var m := CleanUp(s, t);
    assert s.prev[t := NoPrev] == s.prev;
    assert m == s.(pc := s.pc[t := Loop]);
    OneStep(true, o, s, Advance(t), m);
    q := StartTask(m, t);
    OneStep(true, o, m, GetTask(t), q);
  }

  /** Task code calls wait with an unpinned fiber; the fiber is about to try slot 0. */
  lemma WaitSteps(strict: bool, o: State, s: State, t: nat, c: nat, target: int) returns (q: State)
    requires Reaches(strict, o, s) && Shape(s) && t < |s.pc| && s.pc[t].User? && c < |s.counts| && target >= 0
    ensures Reaches(strict, o, q) && Moved(s, q, t, Waiting(c, target, None, Try(0)), SlotId(c, 0), s.slots[SlotId(c, 0)])
  {
    var m := Goto(s, t, Waiting(c, target, None, Begin));
    OneStep(strict, o, s, Wait(t, c, target, false), m);
    q := MarkWaiting(m, t, m.pc[t]);
    OneStep(strict, o, m, Advance(t), q);
  }

  /** One look of a scan at slot id. */
  lemma LookStep(strict: bool, o: State, s: State, t: nat, id: SlotId, next: ScanPhase) returns (q: State)
    requires Reaches(strict, o, s) && Shape(s) && t < |s.pc| && s.pc[t].Scan? && id == SlotId(s.pc[t].counter, s.pc[t].i)
    requires LookAt(s.width, s.pc[t], s.slots[id]) == s.pc[t].(phase := next) && next != s.pc[t].phase
    requires s.pc[t].phase.AtFree? || s.pc[t].phase.AtInUse? || s.pc[t].phase.AtTarget?
    ensures Reaches(strict, o, q) && Moved(s, q, t, s.pc[t].(phase := next), id, s.slots[id])
  {
    q := Goto(s, t, s.pc[t].(phase := next));
    OneStep(strict, o, s, Advance(t), q);
  }

  lemma IncrementStep(strict: bool, o: State, s: State, t: nat, c: nat, amount: int, finishing: bool) returns (q: State)
    requires Reaches(strict, o, s) && Shape(s) && t < |s.pc| && s.pc[t].User? && c < |s.counts| && amount != 0
    ensures Reaches(strict, o, q) && Shape(q)
    ensures q.pc == s.pc[t := Scan(c, s.counts[c] + amount, 0, AtFree, finishing)]
    ensures q.counts == s.counts[c := s.counts[c] + amount] && q.slots == s.slots && q.width == s.width && q.cur == s.cur
  {
    q := Update(s, t, c, amount, finishing);
    OneStep(strict, o, s, Increment(t, c, amount, finishing), q);
  }

  ghost predicate ScannerAt(s: State, t: nat, id: SlotId, phase: ScanPhase) {
    && Shape(s) && t < |s.pc| && s.pc[t].Scan? && id == SlotId(s.pc[t].counter, s.pc[t].i) && s.pc[t].phase == phase
    && id in s.slots
  }

  /** Thread t scanned on to pc and left the slot as given. */
  ghost predicate Scanned(s: State, q: State, t: nat, pc: Pc, id: SlotId, slot: Slot)
    requires t < |s.pc|
  {
    && Shape(q) && q.pc == s.pc[t := pc] && q.slots == s.slots[id := slot] && q.counts == s.counts && q.width == s.width
  }

  lemma ClaimStep(strict: bool, o: State, s: State, t: nat, id: SlotId) returns (q: State)
    requires Reaches(strict, o, s) && ScannerAt(s, t, id, AtClaim) && !s.slots[id].inUse
    ensures Reaches(strict, o, q) && Scanned(s, q, t, s.pc[t].(phase := AtEnqueue), id, s.slots[id].(inUse := true))
  {
    q := ClaimByChecker(s, t, s.pc[t], id);
    OneStep(strict, o, s, Advance(t), q);
  }

  lemma EnqueueStep(strict: bool, o: State, s: State, t: nat, id: SlotId) returns (q: State)
    requires Reaches(strict, o, s) && ScannerAt(s, t, id, AtEnqueue) && s.slots[id].pin.None?
    ensures Reaches(strict, o, q) && Scanned(s, q, t, s.pc[t].(phase := AtRelease), id, s.slots[id])
  {
    q := EnqueueReady(s, t, s.pc[t], s.slots[id].fiber);
    OneStep(strict, o, s, Advance(t), q);
  }

  lemma ReleaseStep(strict: bool, o: State, s: State, t: nat, id: SlotId) returns (q: State)
    requires Reaches(strict, o, s) && ScannerAt(s, t, id, AtRelease)
    ensures Reaches(strict, o, q) && Scanned(s, q, t, NextSlot(s.width, s.pc[t]), id, s.slots[id].(free := true))
  {
    q := Release(s, t, NextSlot(s.width, s.pc[t]), id);
    OneStep(strict, o, s, Advance(t), q);
  }

  /** The scan claims slot id, wakes its fiber and frees the slot. */
  lemma WakeSteps(strict: bool, o: State, s: State, t: nat, id: SlotId) returns (q: State)
    requires Reaches(strict, o, s) && ScannerAt(s, t, id, AtClaim) && !s.slots[id].inUse && s.slots[id].pin.None?
    ensures Reaches(strict, o, q) && Shape(q) && |q.pc| == |s.pc| && q.counts == s.counts && q.slots.Keys == s.slots.Keys
    ensures forall u: nat :: u < |s.pc| && u != t ==> q.pc[u] == s.pc[u]
    ensures q.slots[id].free
  {
    hide Shape, Reaches;
    q := ClaimStep(strict, o, s, t, id);
    q := EnqueueStep(strict, o, q, t, id);
    q := ReleaseStep(strict, o, q, t, id);
  }

  /** A scan goes on, from the start of an iteration, to the comparison or past it. */
  lemma LookUpTo(strict: bool, o: State, s: State, t: nat, id: SlotId, phase: ScanPhase) returns (q: State)
    requires Reaches(strict, o, s) && ScannerAt(s, t, id, AtFree) && (phase.AtTarget? || phase.AtClaim?)
    requires !s.slots[id].free && !s.slots[id].inUse && s.slots[id].target == s.pc[t].value
    ensures Reaches(strict, o, q) && Moved(s, q, t, s.pc[t].(phase := phase), id, s.slots[id])
  {
    hide Shape, Reaches;
    q := LookStep(strict, o, s, t, id, AtInUse);
    q := LookStep(strict, o, q, t, id, AtTarget);
    if phase.AtClaim? { q := LookStep(strict, o, q, t, id, AtClaim); }
  }

  lemma StrictReachable(o: State, s: State)
    requires Init(o) && Reaches(true, o, s)
    ensures Reachable(s)
  {
    var states, actions :| Runs.Trace(Steps(true), states, actions) && states[0] == o && states[|actions|] == s;
    forall k | 0 <= k < |actions|
      ensures Enabled(states[k], actions[k]) && Disciplined(states[k], actions[k]) && states[k + 1] == Do(states[k], actions[k])
    {
      assert Step(true, states[k], actions[k], states[k + 1]);
    }
    hide Enabled, Disciplined, Do, Step;
    assert RunOf(states, actions);
  }

  /** Threads 0, 1 and 2 run tasks, and nobody waits or scans. */
  lemma ThreeTasks(o: State) returns (s: State)
    requires Init(o) && |o.pc| >= 3 && |o.counts| >= 1
    ensures Reaches(true, o, s) && Shape(s) && |s.pc| >= 3 && s.pc[0].User? && s.pc[1].User? && s.pc[2].User?
    ensures forall t: nat :: t < |s.pc| ==> !s.pc[t].Waiting? && !s.pc[t].Scan?
    ensures |s.counts| >= 1 && s.counts[0] == 0 && s.cur[0] == 0 && SlotId(0, 0) in s.slots && s.slots[SlotId(0, 0)].free
  {
    Here(true, o);
    hide Reaches;
    s := StartSteps(o, o, 1);
    s := StartSteps(o, s, 2);
  }

  /** Fiber 0 is registered for the value 1 and has not loaded the count; threads 1 and 2 run tasks. */
  lemma RegisterFiberZero(o: State) returns (s: State)
    requires Init(o) && |o.pc| >= 3 && |o.counts| >= 1
    ensures Reaches(true, o, s) && WaiterAt(s, 0, SlotId(0, 0), Load(0)) && |s.pc| >= 3 && s.pc[1].User? && s.pc[2].User?
    ensures s.slots[SlotId(0, 0)] == Slot(false, false, 1, 0, None) && |s.counts| >= 1 && s.counts[0] == 0
    ensures s.pc[0].target == 1 && forall t: nat :: 0 < t < |s.pc| ==> !s.pc[t].Waiting? && !s.pc[t].Scan?
  {
    s := ThreeTasks(o);
    hide Reaches;
    s := WaitSteps(true, o, s, 0, 0, 1);
    assert SlotQuiet(s, SlotId(0, 0));
    s := RegisterSteps(true, o, s, 0, SlotId(0, 0));
  }

  /** The points at which fiber 0, having loaded v, still looks at slot 0. */
  predicate Looks(when: WaitPhase, v: int) {
    when == Load(0) || when == Check(0, v) || when == Compare(0, v) || when == Cas(0, v)
  }

  /** Fiber 0 goes on to one of them. */
  lemma GoOnTo(o: State, s: State, when: WaitPhase) returns (q: State)
    requires Reaches(true, o, s) && WaiterAt(s, 0, SlotId(0, 0), Load(0)) && !s.slots[SlotId(0, 0)].inUse
    requires 0 < |s.counts| && Looks(when, s.counts[0]) && (when.Cas? ==> s.slots[SlotId(0, 0)].target == s.counts[0])
    ensures Reaches(true, o, q) && SameElse(q, s) && q.slots == s.slots && q.pc == s.pc[0 := s.pc[0].(wait := when)]
  {
    hide Reaches, Shape;
    var id := SlotId(0, 0);
    q := s;
    if !when.Load? {
      q := LoadStep(true, o, q, 0, id);
      assert q.slots == s.slots;
      if !when.Check? {
        q := CheckStep(true, o, q, 0, id, s.counts[0]);
        assert q.slots == s.slots;
        if when.Cas? { q := CompareStep(true, o, q, 0, id, s.counts[0]); }
      }
    }
    assert q.slots == s.slots && q.pc == s.pc[0 := s.pc[0].(wait := when)];
  }

  /** Thread 1 increments the counter and wakes fiber 0, which is still looking at the slot. */
  lemma WakeBeforeReturn(o: State, s: State, when: WaitPhase) returns (q: State)
    requires Reaches(true, o, s) && WaiterAt(s, 0, SlotId(0, 0), Load(0)) && |s.pc| >= 3 && s.pc[1].User? && s.pc[2].User?
    requires s.slots[SlotId(0, 0)] == Slot(false, false, 1, 0, None) && |s.counts| >= 1 && s.counts[0] == 0
    requires Looks(when, 1)
    ensures Reaches(true, o, q) && WaiterAt(q, 0, SlotId(0, 0), when) && |q.pc| >= 3 && q.pc[2].User?
    ensures q.slots[SlotId(0, 0)].free && |q.counts| >= 1 && q.counts[0] == 1
  {
    hide Reaches, Shape;
    var id := SlotId(0, 0);
    q := IncrementStep(true, o, s, 1, 0, 1, false);
    q := GoOnTo(o, q, when);
    q := LookUpTo(true, o, q, 1, id, AtClaim);
    q := WakeSteps(true, o, q, 1, id);
  }

  /** With three threads and a counter, a disciplined run leads to a stale occupant at each point
      where H1 forbids one: fiber 0 waits for the value 1, thread 1 increments the counter and
      wakes it before fiber 0 is done looking, and thread 2 begins to wait, for the same value or,
      if fiber 0 has compared already, for any. */
  lemma StaleOccupantIsReachable(o: State, when: WaitPhase, target: nat) returns (s: State)
    requires Init(o) && |o.pc| >= 3 && |o.counts| >= 1
    requires Looks(when, 1) && (target == 1 || when.Cas?)
    ensures Reachable(s) && StaleOccupant(s, 0, 2, SlotId(0, 0)) && s.pc[0].wait == when
  {
    hide Reaches, Reachable, Init, Shape;
    s := RegisterFiberZero(o);
    s := WakeBeforeReturn(o, s, when);
    s := WaitSteps(true, o, s, 2, 0, target);
    StrictReachable(o, s);
  }

  /** So the promise fails for the code alone: some reachable state leads, by one acquisition
      that violates H1 and a few more steps, to a fiber in task code that will be resumed once
      more and to a registered wait that nothing will ever resume. */
  lemma WithoutH1WaitsBreak(o: State, when: WaitPhase) returns (s: State, q: State)
    requires Init(o) && |o.pc| >= 3 && |o.counts| >= 1
    requires Looks(when, 1)
    ensures Reachable(s) && Reaches(false, s, q) && Shape(q) && |q.pc| >= 3
    ensures q.pc[0].User? && exists token :: HasToken(q, q.cur[0], token)
    ensures q.pc[2].Waiting? && q.pc[2].wait.Load? && forall token :: !HasToken(q, q.cur[2], token)
  {
    hide Reaches, Reachable, Inv;
    s := StaleOccupantIsReachable(o, when, 1);
    ReachableInv(s);
    q := StaleOccupantBreaksWaits(s, 0, 2, SlotId(0, 0));
  }

  // ----- a stale checker ---------------------------------------------------------------------------------------

  /** Checker t finds, or has found, its value in the slot's target, but the wait it belongs to is
      over and the slot is free; thread u is about to take the slot and waits for another value. */
  ghost predicate StaleChecker(s: State, t: nat, u: nat, id: SlotId) {
    && (ScannerAt(s, t, id, AtClaim) || (ScannerAt(s, t, id, AtTarget) && s.slots[id].target == s.pc[t].value))
    && WaiterAt(s, u, id, Try(id.index))
    && s.slots[id].free && s.pc[u].pin.None? && s.pc[u].target != s.pc[t].value
  }

  /** From every such state the code alone reaches one in which the checker has resolved the
      wait of thread u for a value that is not the one u waits for. */
  lemma StaleCheckerResolvesWrongWait(s: State, t: nat, u: nat, id: SlotId) returns (q: State)
    requires StaleChecker(s, t, u, id)
    ensures Reaches(false, s, q) && ScannerAt(q, t, id, AtEnqueue) && q.pc[t].value == s.pc[t].value
    ensures |q.pc| == |s.pc| && q.pc[u] == s.pc[u].(wait := Load(id.index))
    ensures q.slots[id].fiber == s.cur[u] && q.slots[id].target != q.pc[t].value
  {
    Here(false, s);
    hide Shape, Reaches;
    var m := s;
    if s.pc[t].phase.AtTarget? { m := LookStep(false, s, s, t, id, AtClaim); }
    m := RegisterSteps(false, s, m, u, id);
    q := ClaimStep(false, s, m, t, id);
  }

  /** Thread 1 increments the counter and looks at slot 0 up to the given point; then fiber 0
      returns early. */
  lemma EarlyReturnBeforeClaim(o: State, s: State, phase: ScanPhase) returns (q: State)
    requires Reaches(true, o, s) && WaiterAt(s, 0, SlotId(0, 0), Load(0)) && |s.pc| >= 3 && s.pc[1].User? && s.pc[2].User?
    requires s.slots[SlotId(0, 0)] == Slot(false, false, 1, 0, None) && |s.counts| >= 1 && s.counts[0] == 0
    requires phase.AtTarget? || phase.AtClaim?
    ensures Reaches(true, o, q) && ScannerAt(q, 1, SlotId(0, 0), phase) && |q.pc| >= 3 && q.pc[2].User?
    ensures q.slots[SlotId(0, 0)].free && q.slots[SlotId(0, 0)].target == 1 && |q.counts| >= 1 && q.pc[1].value == 1
  {
    hide Reaches, Shape;
    var id := SlotId(0, 0);
    q := IncrementStep(true, o, s, 1, 0, 1, false);
    q := LookUpTo(true, o, q, 1, id, phase);
    q := EarlyReturnSteps(true, o, q, 0, id);
  }

  /** A disciplined run leads to a stale checker at each point where H1 forbids one: fiber 0 waits
      for the value 1, thread 1 increments the counter and looks, fiber 0 returns early, and
      thread 2 begins to wait. */
  lemma StaleCheckerIsReachable(o: State, target: nat, phase: ScanPhase) returns (s: State)
    requires Init(o) && |o.pc| >= 3 && |o.counts| >= 1 && target != 1 && (phase.AtTarget? || phase.AtClaim?)
    ensures Reachable(s) && StaleChecker(s, 1, 2, SlotId(0, 0)) && s.pc[1].phase == phase
  {
    hide Reaches, Reachable, Init, Shape;
    s := RegisterFiberZero(o);
    s := EarlyReturnBeforeClaim(o, s, phase);
    s := WaitSteps(true, o, s, 2, 0, target);
    StrictReachable(o, s);
  }

  // ----- a scan with an outdated value ----------------------------------------------------------------------------

  /** A scan of a counter nobody waits on passes all slots. */
  lemma {:induction false} PassFreeSlots(strict: bool, o: State, s: State, t: nat) returns (q: State)
    requires Reaches(strict, o, s) && Shape(s) && t < |s.pc| && s.pc[t].Scan? && s.pc[t].phase.AtFree?
    requires CounterQuiet(s, s.pc[t].counter)
    ensures Reaches(strict, o, q) && Shape(q) && q == s.(pc := s.pc[t := if s.pc[t].finishing then Loop else User])
    decreases s.width - s.pc[t].i
  {
    var pc := s.pc[t];
    assert s.slots[SlotId(pc.counter, pc.i)].free;
    q := Goto(s, t, NextSlot(s.width, pc));
    OneStep(strict, o, s, Advance(t), q);
    if pc.i + 1 < s.width { q := PassFreeSlots(strict, o, q, t); }
  }

  lemma RenewStep(strict: bool, o: State, s: State, c: nat) returns (q: State)
    requires Reaches(strict, o, s) && Shape(s) && c < |s.counts| && (strict ==> CounterQuiet(s, c))
    ensures Reaches(strict, o, q) && Shape(q) && CounterQuiet(q, c)
    ensures q == s.(counts := s.counts[c := 0], slots := q.slots)
    ensures forall id :: id in s.slots ==> q.slots[id] == if id.counter == c then s.slots[id].(free := true) else s.slots[id]
  {
    q := Reset(s, c);
    OneStep(strict, o, s, Renew(c), q);
  }

  /** The counter is back at 0, thread 1 is about to scan it for waits for 0, and thread 0 runs a task. */
  ghost predicate UsedOnce(s: State) {
    && Shape(s) && |s.pc| >= 2 && |s.counts| >= 1 && s.counts[0] == 0 && CounterQuiet(s, 0)
    && s.cur[0] == 0 && s.pc[0].User? && s.pc[1] == Scan(0, 0, 0, AtFree, true)
    && forall t: nat :: 2 <= t < |s.pc| ==> s.pc[t].Clean?
  }

  /** Thread 0 submits a task and the task finishes on thread 1. */
  lemma FirstUse(o: State) returns (s: State)
    requires Init(o) && |o.pc| >= 2 && |o.counts| >= 1
    ensures Reaches(true, o, s) && UsedOnce(s)
  {
    Here(true, o);
    hide Reaches;
    s := StartSteps(o, o, 1);
    s := IncrementStep(true, o, s, 0, 0, 1, false);
    s := PassFreeSlots(true, o, s, 0);
    s := IncrementStep(true, o, s, 1, 0, -1, true);
  }

  /** Thread 0 then waits and is registered in slot 0. */
  lemma WaitAfterSubmitting(o: State, s: State) returns (q: State)
    requires Reaches(true, o, s) && Shape(s) && |s.pc| >= 2 && |s.counts| >= 1 && CounterQuiet(s, 0)
    requires s.pc[0].User? && s.pc[1] == Scan(0, 0, 0, AtFree, true) && forall t: nat :: 2 <= t < |s.pc| ==> s.pc[t].Clean?
    ensures Reaches(true, o, q) && ScannerAt(q, 1, SlotId(0, 0), AtFree) && q.pc[1].value == 0 && q.counts == s.counts
    ensures q.slots[SlotId(0, 0)] == Slot(false, false, 0, s.cur[0], None)
  {
    hide Reaches;
    var id := SlotId(0, 0);
    q := WaitSteps(true, o, s, 0, 0, 0);
    assert SlotQuiet(q, id);
    q := RegisterSteps(true, o, q, 0, id);
  }

  lemma ClaimIsWake(s: State, t: nat, id: SlotId)
    requires ScannerAt(s, t, id, AtClaim) && !s.slots[id].inUse
    ensures Enabled(s, Advance(t)) && Wakes(s, Advance(t), s.slots[id].fiber)
  {
  }

  /** A wait for 0 is about to be resolved although the count is 1. */
  ghost predicate TooEarly(s: State) {
    && Enabled(s, Advance(1)) && Wakes(s, Advance(1), 0)
    && s.slots[SlotId(0, 0)].target == 0 && s.slots[SlotId(0, 0)].fiber == 0 && s.counts[0] == 1
  }

  /** Thread 0 submits again and waits, before thread 1 has looked at any slot. */
  lemma SecondUse(o: State, s: State) returns (q: State)
    requires Reaches(true, o, s) && UsedOnce(s)
    ensures Reaches(true, o, q) && TooEarly(q)
  {
    hide Reaches, Shape, Enabled, Wakes, CounterQuiet;
    q := IncrementStep(true, o, s, 0, 0, 1, false);
    assert CounterQuiet(q, 0) by { SameSlotsQuiet(s, q, 0); }
    q := PassFreeSlots(true, o, q, 0);
    SameSlotsQuiet(s, q, 0);
    q := WaitAfterSubmitting(o, q);
    q := LookUpTo(true, o, q, 1, SlotId(0, 0), AtClaim);
    ClaimIsWake(q, 1, SlotId(0, 0));
  }

  lemma SameSlotsQuiet(s: State, q: State, c: nat)
    requires q.slots == s.slots && CounterQuiet(s, c)
    ensures CounterQuiet(q, c)
  {
  }

  /** Without H3 a wait for 0 can end too early in ordinary use: a fiber submits twice on one
      counter and waits, and the scan that the first task's end began, with the value 0 that the
      count had then, wakes it while the second task is outstanding.  H1 and H2 hold throughout. */
  lemma OutdatedScanWakesTooEarly(o: State) returns (s: State)
    requires Init(o) && |o.pc| >= 2 && |o.counts| >= 1
    ensures Reachable(s) && TooEarly(s)
  {
    hide Reaches, Reachable, TooEarly, UsedOnce;
    s := FirstUse(o);
    s := SecondUse(o, s);
    StrictReachable(o, s);
  }

  /** Acquiring the counter anew in between does not help: reset while the old scan is under way,
      it lets that scan end the first wait of its next use too early. */
  lemma ResetDuringScanWakesTooEarly(o: State) returns (s: State, q: State)
    requires Init(o) && |o.pc| >= 2 && |o.counts| >= 1
    ensures Reachable(s) && UsedOnce(s) && Enabled(s, Renew(0)) && Disciplined(s, Renew(0))
    ensures Reaches(true, Do(s, Renew(0)), q) && TooEarly(q)
  {
    hide Reaches, Reachable, TooEarly;
    s := FirstUse(o);
    StrictReachable(o, s);
    var m := Reset(s, 0);
    Here(true, m);
    q := SecondUse(m, m);
  }

  // ----- a reset while a fiber waits -----------------------------------------------------------------------------

  /** Nobody is changing the counter. */
  ghost predicate NotScanned(s: State, c: nat) {
    forall t: nat :: t < |s.pc| ==> !(s.pc[t].Scan? && s.pc[t].counter == c)
  }

  /** A fiber waits in the slot and is past its own look at the count. */
  ghost predicate WaitsIn(s: State, id: SlotId) {
    Shape(s) && id in s.slots && !s.slots[id].inUse && Committed(s, id)
  }

  /** Without H2 a wait is forgotten: from every state in which a fiber waits on a counter that is
      not being changed, a reset and one update lead to a state in which its target is met and
      nobody is about to resolve it. */
  lemma ResetForgetsWait(s: State, t: nat, id: SlotId) returns (q: State)
    requires WaitsIn(s, id) && !s.slots[id].free && NotScanned(s, id.counter) && t < |s.pc| && s.pc[t].User?
    ensures Enabled(s, Renew(id.counter)) && !Disciplined(s, Renew(id.counter))
    ensures Reaches(false, s, q) && WaitsIn(q, id) && NotScanned(q, id.counter)
    ensures q.slots[id].fiber == s.slots[id].fiber && q.slots[id].target == s.slots[id].target
    ensures q.counts[id.counter] == q.slots[id].target
  {
    var c := id.counter;
    Here(false, s);
    hide Reaches;
    q := RenewStep(false, s, s, c);
    if q.slots[id].target != 0 {
      q := IncrementStep(false, s, q, t, c, q.slots[id].target, false);
      q := PassFreeSlots(false, s, q, t);
    }
  }

  /** Fiber 0 is registered for the value 1 in slot 0 and has loaded the count 0; nobody else waits or scans. */
  ghost predicate OneWaiter(s: State) {
    && Shape(s) && SlotId(0, 0) in s.slots && s.slots[SlotId(0, 0)] == Slot(false, false, 1, 0, None)
    && |s.pc| >= 3 && s.pc[0].Waiting? && s.pc[0].target == 1 && s.pc[0].wait == Check(0, 0) && s.pc[1].User?
    && forall t: nat :: 0 < t < |s.pc| ==> !s.pc[t].Waiting? && !s.pc[t].Scan?
  }

  /** Such a state is reached by a disciplined run. */
  lemma WaitIsReachable(o: State) returns (s: State)
    requires Init(o) && |o.pc| >= 3 && |o.counts| >= 1
    ensures Reachable(s) && OneWaiter(s)
  {
    hide Reaches, Reachable, Init, Shape;
    s := RegisterFiberZero(o);
    s := GoOnTo(o, s, Check(0, 0));
    StrictReachable(o, s);
  }

  /** So without H2 the code can leave a fiber waiting for a value that the counter has, with
      nobody about to wake it. */
  lemma WithoutH2WaitIsForgotten(o: State) returns (s: State, q: State)
    requires Init(o) && |o.pc| >= 3 && |o.counts| >= 1
    ensures Reachable(s) && Reaches(false, s, q) && WaitsIn(q, SlotId(0, 0)) && NotScanned(q, 0)
    ensures |q.counts| >= 1 && q.counts[0] == q.slots[SlotId(0, 0)].target == 1 && q.slots[SlotId(0, 0)].fiber == 0
  {
    hide Reaches, Reachable, Init;
    s := WaitIsReachable(o);
    q := ResetForgetsWait(s, 1, SlotId(0, 0));
  }
}

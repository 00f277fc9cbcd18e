/**
  The hand-off of fibers between threads, for every run of the code: what is proved here owes
  nothing to H1 or H2.  Even a fiber with a stale wake token is current on one thread at most,
  because is_waiting_cleaned_up decides who may switch to it.
 */
module FiberHandOff {
  import opened Prelude
  import opened SchedulerCore
  import opened SchedulerInv

  // ----- the invariant -------------------------------------------------------------------------

  /** What a control point of thread t says about its current fiber f and about a fiber in transit. */
  ghost predicate AtWork(s: State, t: nat, f: nat, pc: Pc)
    requires Shape(s) && f < |s.place| && PcShape(pc, s.width, |s.counts|, |s.place|)
  {
    match pc
    case Clean => true
    case Loop => !s.busy[f]
    case Got(_, _) => !s.busy[f]
    case Back(_, _) => !s.busy[f]
    case Resume(g) => !s.busy[f] && s.place[g] == Chosen(t)
    case User => s.busy[f]
    case Scan(_, _, _, _, finishing) => s.busy[f] == !finishing
    case Waiting(_, _, _, Leave(g)) => s.busy[f] && s.place[g] == Drawn(t)
    case Waiting(_, _, _, _) => s.busy[f]
  }

  ghost predicate ThreadPlaced(s: State, t: nat)
    requires Shape(s) && t < |s.pc|
  {
    && s.place[s.cur[t]] == Running(t)
    && (s.prev[t].Prev? ==> s.pc[t].Clean? && s.place[s.prev[t].fiber] == Leaving(t))
    && AtWork(s, t, s.cur[t], s.pc[t])
  }

  ghost predicate FiberPlaced(s: State, f: nat)
    requires Shape(s) && f < |s.place|
  {
    && (s.cleaned[f] <==> s.place[f].Parked?)
    && match s.place[f]
       case Idle => f in s.idle && !s.busy[f]
       case Drawn(t) => t < |s.pc| && s.pc[t].Waiting? && s.pc[t].wait == Leave(f) && !s.busy[f]
       case Running(t) => t < |s.pc| && s.cur[t] == f
       case Leaving(t) =>
         t < |s.pc| && s.prev[t].Prev? && s.prev[t].fiber == f && s.busy[f] == s.prev[t].dest.ToWaiting?
       case Parked => s.busy[f]
       case Chosen(t) => t < |s.pc| && s.pc[t] == Resume(f) && s.busy[f]
  }

  ghost predicate HandOff(s: State) {
    && Shape(s) && PlacedQueue(s, s.idle, Idle)
    && (forall t: nat :: t < |s.pc| ==> ThreadPlaced(s, t))
    && (forall f: nat :: f < |s.place| ==> FiberPlaced(s, f))
  }

  lemma InvHandOff(s: State)
    requires Inv(s)
    ensures HandOff(s)
  {
    forall t: nat | t < |s.pc| ensures ThreadPlaced(s, t) { assert ThreadOk(s, t); }
    forall f: nat | f < |s.place| ensures FiberPlaced(s, f) { assert FiberOk(s, f); }
  }

  // ----- steps that move no fiber ----------------------------------------------------------------

  /** The control point refers to a fiber in transit. */
  predicate Carries(pc: Pc) {
    pc.Resume? || (pc.Waiting? && pc.wait.Leave?)
  }

  /** Thread t goes on without moving any fiber. */
  ghost predicate Quiet(s: State, t: nat, s': State) {
    && Shape(s) && Shape(s') && |s'.pc| == |s.pc| && |s'.busy| == |s.busy|
    && t < |s.pc| && !s.pc[t].Clean? && !Carries(s.pc[t])
    && s'.pc == s.pc[t := s'.pc[t]] && !Carries(s'.pc[t])
    && s'.cur == s.cur && s'.prev == s.prev && s'.idle == s.idle && s'.cleaned == s.cleaned && s'.place == s.place
    && s'.busy == s.busy[s.cur[t] := s'.busy[s.cur[t]]]
    && AtWork(s', t, s.cur[t], s'.pc[t])
  }

  lemma QuietThread(s: State, t: nat, s': State, u: nat)
    requires Quiet(s, t, s') && u < |s.pc| && ThreadPlaced(s, u) && ThreadPlaced(s, t)
    ensures ThreadPlaced(s', u)
  {
  }

  lemma QuietFiber(s: State, t: nat, s': State, f: nat)
    requires Quiet(s, t, s') && f < |s.place| && FiberPlaced(s, f) && ThreadPlaced(s, t)
    ensures FiberPlaced(s', f)
  {
  }

  lemma QuietStep(s: State, t: nat, s': State)
    requires HandOff(s) && Quiet(s, t, s')
    ensures HandOff(s')
  {
    assert ThreadPlaced(s, t);
    hide ThreadPlaced, FiberPlaced;
    forall u: nat | u < |s'.pc| ensures ThreadPlaced(s', u) { QuietThread(s, t, s', u); }
    forall f: nat | f < |s'.place| ensures FiberPlaced(s', f) { QuietFiber(s, t, s', f); }
  }

  // ----- steps that move a fiber -------------------------------------------------------------------

  /** What is known of the acting thread and of the fiber that moves. */
  ghost predicate Mover(s: State, t: nat, f: nat) {
    Shape(s) && t < |s.pc| && ThreadPlaced(s, t) && f < |s.place| && FiberPlaced(s, f)
  }

  lemma CleanUpThread(s: State, t: nat, u: nat, s': State)
    requires Shape(s) && t < |s.pc| && Mover(s, t, s.cur[t]) && s.pc[t].Clean? && s' == CleanUp(s, t) && Shape(s') && u < |s.pc| && ThreadPlaced(s, u)
    ensures ThreadPlaced(s', u)
  {
  }

  lemma CleanUpFiber(s: State, t: nat, f: nat, s': State)
    requires Mover(s, t, f) && s.pc[t].Clean? && s' == CleanUp(s, t) && Shape(s')
    ensures FiberPlaced(s', f)
  {
  }

  lemma CleanUpStep(s: State, t: nat)
    requires HandOff(s) && t < |s.pc| && s.pc[t].Clean?
    ensures HandOff(CleanUp(s, t))
  {
    var s' := CleanUp(s, t);
    assert ThreadPlaced(s, t) && FiberPlaced(s, s.cur[t]);
    assert Shape(s') && PlacedQueue(s', s'.idle, Idle);
    hide ThreadPlaced, FiberPlaced;
    forall u: nat | u < |s'.pc| ensures ThreadPlaced(s', u) { CleanUpThread(s, t, u, s'); }
    forall f: nat | f < |s'.place| ensures FiberPlaced(s', f) { CleanUpFiber(s, t, f, s'); }
  }

  lemma ChooseThread(s: State, t: nat, f: nat, u: nat, s': State)
    requires Mover(s, t, f) && s.pc[t].Got? && s.cleaned[f] && s' == ChooseFiber(s, t, f) && Shape(s')
    requires u < |s.pc| && ThreadPlaced(s, u)
    ensures ThreadPlaced(s', u)
  {
  }

  lemma ChooseFiberPlaced(s: State, t: nat, f: nat, g: nat, s': State)
    requires Mover(s, t, f) && s.pc[t].Got? && s.cleaned[f] && s' == ChooseFiber(s, t, f) && Shape(s')
    requires g < |s.place| && FiberPlaced(s, g)
    ensures FiberPlaced(s', g)
  {
  }

  lemma ChooseStep(s: State, t: nat, f: nat)
    requires HandOff(s) && t < |s.pc| && s.pc[t].Got? && s.pc[t].fiber == f && s.cleaned[f]
    ensures HandOff(ChooseFiber(s, t, f))
  {
    var s' := ChooseFiber(s, t, f);
    assert ThreadPlaced(s, t) && FiberPlaced(s, f);
    assert Shape(s') && PlacedQueue(s', s'.idle, Idle);
    hide ThreadPlaced, FiberPlaced;
    forall u: nat | u < |s'.pc| ensures ThreadPlaced(s', u) { ChooseThread(s, t, f, u, s'); }
    forall g: nat | g < |s'.place| ensures FiberPlaced(s', g) { ChooseFiberPlaced(s, t, f, g, s'); }
  }

  lemma SwitchThread(s: State, t: nat, f: nat, dest: Dest, u: nat, s': State)
    requires Mover(s, t, f) && Leaves(s.pc[t], f, dest) && s' == SwitchTo(s, t, f, dest) && Shape(s')
    requires u < |s.pc| && ThreadPlaced(s, u)
    ensures ThreadPlaced(s', u)
  {
  }

  lemma SwitchFiber(s: State, t: nat, f: nat, dest: Dest, g: nat, s': State)
    requires Mover(s, t, f) && Leaves(s.pc[t], f, dest) && s' == SwitchTo(s, t, f, dest) && Shape(s')
    requires g < |s.place| && FiberPlaced(s, g)
    ensures FiberPlaced(s', g)
  {
  }

  lemma SwitchStep(s: State, t: nat, f: nat, dest: Dest)
    requires HandOff(s) && t < |s.pc| && Leaves(s.pc[t], f, dest)
    ensures HandOff(SwitchTo(s, t, f, dest))
  {
    var s' := SwitchTo(s, t, f, dest);
    assert ThreadPlaced(s, t) && FiberPlaced(s, f);
    assert Shape(s') && PlacedQueue(s', s'.idle, Idle);
    hide ThreadPlaced, FiberPlaced;
    forall u: nat | u < |s'.pc| ensures ThreadPlaced(s', u) { SwitchThread(s, t, f, dest, u, s'); }
    forall g: nat | g < |s'.place| ensures FiberPlaced(s', g) { SwitchFiber(s, t, f, dest, g, s'); }
  }

  lemma DrawThread(s: State, t: nat, u: nat, s': State)
    requires s.idle != [] && Mover(s, t, s.idle[0]) && s.place[s.idle[0]].Idle? && s.pc[t].Waiting? && s.pc[t].wait.Take?
    requires s' == TakeIdle(s, t, s.pc[t]) && Shape(s') && u < |s.pc| && ThreadPlaced(s, u)
    ensures ThreadPlaced(s', u)
  {
  }

  lemma DrawFiber(s: State, t: nat, f: nat, s': State)
    requires s.idle != [] && Mover(s, t, s.idle[0]) && s.place[s.idle[0]].Idle? && s.pc[t].Waiting? && s.pc[t].wait.Take?
    requires s' == TakeIdle(s, t, s.pc[t]) && Shape(s') && f < |s.place| && FiberPlaced(s, f)
    ensures FiberPlaced(s', f)
  {
  }

  lemma DrawStep(s: State, t: nat)
    requires HandOff(s) && t < |s.pc| && s.pc[t].Waiting? && s.pc[t].wait.Take? && s.idle != []
    ensures s.idle[0] < |s.place| && HandOff(TakeIdle(s, t, s.pc[t]))
  {
    var s' := TakeIdle(s, t, s.pc[t]);
    assert ThreadPlaced(s, t) && FiberPlaced(s, s.idle[0]);
    assert Shape(s') && PlacedQueue(s', s'.idle, Idle);
    hide ThreadPlaced, FiberPlaced;
    forall u: nat | u < |s'.pc| ensures ThreadPlaced(s', u) { DrawThread(s, t, u, s'); }
    forall f: nat | f < |s'.place| ensures FiberPlaced(s', f) { DrawFiber(s, t, f, s'); }
  }

  // ----- every step ------------------------------------------------------------------------------------

  lemma ScanIsQuiet(s: State, t: nat)
    requires CanAdvance(s, t) && s.pc[t].Scan? && ThreadPlaced(s, t)
    ensures Quiet(s, t, ScanStep(s, t))
  {
    ScanShape(s, t);
    hide ScanStep, Quiet, ThreadPlaced;
    ScanMovesNoFiber(s, t);
  }

  lemma ScanMovesNoFiber(s: State, t: nat)
    requires CanAdvance(s, t) && s.pc[t].Scan? && t < |s.cur| && s.cur[t] < |s.place| == |s.busy| && Shape(ScanStep(s, t))
    requires ThreadPlaced(s, t)
    ensures Quiet(s, t, ScanStep(s, t))
  {
    hide Shape;
  }

  lemma ScanShape(s: State, t: nat)
    requires CanAdvance(s, t) && s.pc[t].Scan?
    ensures Shape(ScanStep(s, t))
  {
    hide ScanStep, Alike;
    var id := SlotId(s.pc[t].counter, s.pc[t].i);
    ScanAlike(s, t, id);
    AlikeShape(s, t, ScanStep(s, t), id);
  }

  lemma ScanAlike(s: State, t: nat, id: SlotId)
    requires CanAdvance(s, t) && s.pc[t].Scan? && id == SlotId(s.pc[t].counter, s.pc[t].i)
    requires id in s.slots && id in s.holder && s.slots[id].fiber < |s.place| == |s.wake|
    requires s.pc[t].counter < |s.counts| && s.pc[t].i < s.width && |s.pinned| == |s.pc|
    ensures Alike(s, t, ScanStep(s, t), id)
  {
    hide Shape;
  }

  /** Thread t moved on, and of the slots at most slot id changed. */
  ghost predicate Alike(s: State, t: nat, s': State, id: SlotId) {
    && t < |s.pc| && s'.width == s.width && |s'.counts| == |s.counts| && |s'.place| == |s.place| && |s'.last| == |s.last|
    && s'.cur == s.cur && s'.prev == s.prev && |s'.pinned| == |s.pinned| && |s'.cleaned| == |s.cleaned|
    && |s'.busy| == |s.busy| && |s'.wake| == |s.wake| && |s'.home| == |s.home|
    && |s'.pc| == |s.pc| && s'.pc == s.pc[t := s'.pc[t]] && PcShape(s'.pc[t], s.width, |s.counts|, |s.place|)
    && (s'.slots == s.slots || (id in s.slots && id in s'.slots && s'.slots == s.slots[id := s'.slots[id]] && s'.slots[id].fiber < |s.place|))
    && s'.holder.Keys == s.holder.Keys
  }

  lemma AlikeShape(s: State, t: nat, s': State, id: SlotId)
    requires Shape(s)
    requires Alike(s, t, s', id)
    ensures Shape(s')
  {
  }

  lemma WaitIsQuiet(s: State, t: nat)
    requires CanAdvance(s, t) && s.pc[t].Waiting? && ThreadPlaced(s, t) && !s.pc[t].wait.Take? && !s.pc[t].wait.Leave?
    requires s.cleaned[s.cur[t] := false] == s.cleaned
    ensures Quiet(s, t, WaitStep(s, t))
  {
    WaitShape(s, t);
    hide WaitStep, Quiet, ThreadPlaced;
    WaitMovesNoFiber(s, t);
  }

  lemma WaitMovesNoFiber(s: State, t: nat)
    requires CanAdvance(s, t) && s.pc[t].Waiting? && !s.pc[t].wait.Take? && !s.pc[t].wait.Leave?
    requires t < |s.cur| && s.cur[t] < |s.place| == |s.busy| && Shape(WaitStep(s, t)) && ThreadPlaced(s, t)
    requires s.cleaned[s.cur[t] := false] == s.cleaned
    ensures Quiet(s, t, WaitStep(s, t))
  {
    hide Shape;
  }

  lemma WaitShape(s: State, t: nat)
    requires CanAdvance(s, t) && s.pc[t].Waiting? && !s.pc[t].wait.Take? && !s.pc[t].wait.Leave?
    ensures Shape(WaitStep(s, t))
  {
    var ph := s.pc[t].wait;
    var id := SlotId(s.pc[t].counter, if ph.Begin? then 0 else ph.i);
    hide WaitStep, Alike;
    WaitAlike(s, t, id);
    AlikeShape(s, t, WaitStep(s, t), id);
  }

  lemma WaitAlike(s: State, t: nat, id: SlotId)
    requires CanAdvance(s, t) && s.pc[t].Waiting? && !s.pc[t].wait.Take? && !s.pc[t].wait.Leave?
    requires id == SlotId(s.pc[t].counter, if s.pc[t].wait.Begin? then 0 else s.pc[t].wait.i)
    requires s.pc[t].wait.Try? || (id in s.slots && id in s.holder)
    requires s.width > 0 && t < |s.cur| && s.cur[t] < |s.place| && PcShape(s.pc[t], s.width, |s.counts|, |s.place|)
    ensures Alike(s, t, WaitStep(s, t), id)
  {
    assert s.pc[t].wait.Try? && s.pc[t].wait.i < s.width ==> id in s.slots && id in s.holder;
    hide Shape;
  }

  lemma WaitHandOff(s: State, t: nat)
    requires HandOff(s) && CanAdvance(s, t) && s.pc[t].Waiting?
    ensures HandOff(WaitStep(s, t))
  {
    assert ThreadPlaced(s, t) && FiberPlaced(s, s.cur[t]);
    assert s.cleaned[s.cur[t] := false] == s.cleaned;
    hide HandOff, FiberPlaced, ThreadPlaced, Quiet;
    match s.pc[t].wait {
      case Take => DrawStep(s, t);
      case Leave(g) => SwitchStep(s, t, g, ToWaiting);
      case _ => WaitIsQuiet(s, t); QuietStep(s, t, WaitStep(s, t));
    }
  }

  lemma ResetHandOff(s: State, c: nat)
    requires HandOff(s) && c < |s.counts|
    ensures HandOff(Reset(s, c))
  {
    var s' := Reset(s, c);
    assert Shape(s');
    forall u: nat | u < |s'.pc| ensures ThreadPlaced(s', u) { assert ThreadPlaced(s, u); }
    forall f: nat | f < |s'.place| ensures FiberPlaced(s', f) { assert FiberPlaced(s, f); }
  }

  /** Steps other than those of scans and waits that move no fiber. */
  predicate Harmless(s: State, a: Action) {
    match a
    case Advance(t) =>
      t < |s.pc| && (s.pc[t].Back? || (s.pc[t].Got? && s.pc[t].fiber < |s.cleaned| && !s.cleaned[s.pc[t].fiber]))
    case Renew(_) => false
    case _ => true
  }

  lemma HarmlessIsQuiet(s: State, a: Action)
    requires Enabled(s, a) && Harmless(s, a) && ThreadPlaced(s, a.t)
    ensures Quiet(s, a.t, Do(s, a))
  {
    hide ScanStep, WaitStep;
    HarmlessShape(s, a);
    assert |s.pc| == |s.cur| && s.cur[a.t] < |s.busy|;
    hide Shape;
  }

  lemma HarmlessShape(s: State, a: Action)
    requires Enabled(s, a) && Harmless(s, a)
    ensures Shape(Do(s, a))
  {
    hide ScanStep, WaitStep;
    HarmlessAlike(s, a);
    hide Alike, Do;
    AlikeShape(s, a.t, Do(s, a), SlotId(0, 0));
  }

  lemma HarmlessAlike(s: State, a: Action)
    requires Enabled(s, a) && Harmless(s, a)
    ensures Alike(s, a.t, Do(s, a), SlotId(0, 0))
  {
    assert s.cur[a.t] < |s.busy| && s.width > 0;
    hide ScanStep, WaitStep, Shape;
  }

  /** Every step of the code keeps every fiber where it belongs. */
  lemma StepHandOff(s: State, a: Action)
    requires HandOff(s) && Enabled(s, a)
    ensures HandOff(Do(s, a))
  {
    assert !a.Renew? ==> ThreadPlaced(s, a.t);
    hide HandOff, ThreadPlaced, Quiet, ScanStep, WaitStep;
    if Harmless(s, a) {
      HarmlessIsQuiet(s, a);
      QuietStep(s, a.t, Do(s, a));
    } else if a.Renew? {
      ResetHandOff(s, a.counter);
    } else {
      var t := a.t;
      match s.pc[t] {
        case Clean => CleanUpStep(s, t);
        case Got(f, _) => ChooseStep(s, t, f);
        case Resume(f) => SwitchStep(s, t, f, ToPool);
        case Scan(_, _, _, _, _) => ScanIsQuiet(s, t); QuietStep(s, t, ScanStep(s, t));
        case Waiting(_, _, _, _) => WaitHandOff(s, t);
      }
    }
  }

  // ----- every run ---------------------------------------------------------------------------------------

  /** The states along any run of the code. */
  ghost predicate CodeRun(states: seq<State>, actions: seq<Action>) {
    && |states| == |actions| + 1
    && forall k :: 0 <= k < |actions| ==> Enabled(states[k], actions[k]) && states[k + 1] == Do(states[k], actions[k])
  }

  lemma {:induction false} CodeRunHandOff(states: seq<State>, actions: seq<Action>, k: nat)
    requires CodeRun(states, actions) && Init(states[0]) && k < |states|
    ensures HandOff(states[k])
  {
    if k == 0 {
      InitInv(states[0]);
      InvHandOff(states[0]);
    } else {
      CodeRunHandOff(states, actions, k - 1);
      StepHandOff(states[k - 1], actions[k - 1]);
    }
  }

  // ----- a fiber is at exactly one place -------------------------------------------------------------------

  datatype Role = InPool | InTransit(t: nat) | CurrentOn(t: nat) | LeftBy(t: nat) | ParkedAway

  /** Read off the queues, the threads' registers and is_waiting_cleaned_up. */
  ghost predicate HasRole(s: State, f: nat, r: Role)
    requires Shape(s) && f < |s.place|
  {
    match r
    case InPool => f in s.idle
    case InTransit(t) => t < |s.pc| && (s.pc[t] == Resume(f) || (s.pc[t].Waiting? && s.pc[t].wait == Leave(f)))
    case CurrentOn(t) => t < |s.pc| && s.cur[t] == f
    case LeftBy(t) => t < |s.pc| && s.prev[t].Prev? && s.prev[t].fiber == f
    case ParkedAway => s.cleaned[f]
  }

  function RoleOf(p: Place): Role {
    match p
    case Idle => InPool
    case Drawn(t) => InTransit(t)
    case Running(t) => CurrentOn(t)
    case Leaving(t) => LeftBy(t)
    case Parked => ParkedAway
    case Chosen(t) => InTransit(t)
  }

  lemma OneRole(s: State, f: nat, r: Role)
    requires HandOff(s) && f < |s.place|
    ensures HasRole(s, f, r) <==> r == RoleOf(s.place[f])
  {
    assert FiberPlaced(s, f);
    match r {
      case InPool => assert PlacedQueue(s, s.idle, Idle);
      case InTransit(t) => if t < |s.pc| { assert ThreadPlaced(s, t); }
      case CurrentOn(t) => if t < |s.pc| { assert ThreadPlaced(s, t); }
      case LeftBy(t) => if t < |s.pc| { assert ThreadPlaced(s, t); }
      case ParkedAway =>
    }
  }

  ghost predicate HasOneRole(s: State, f: nat)
    requires Shape(s) && f < |s.place|
  {
    (exists r :: HasRole(s, f, r)) && forall r, r' :: HasRole(s, f, r) && HasRole(s, f, r') ==> r == r'
  }

  /** Every fiber has exactly one role; in particular it is current on at most one thread, and a
      cleaned-up fiber is on none. */
  lemma FiberAtOnePlace(s: State, f: nat)
    requires HandOff(s) && f < |s.place|
    ensures HasOneRole(s, f)
  {
    OneRole(s, f, RoleOf(s.place[f]));
    forall r, r' | HasRole(s, f, r) && HasRole(s, f, r') ensures r == r' {
      OneRole(s, f, r);
      OneRole(s, f, r');
    }
  }

  /** In every state of every run of the code, H1 and H2 or not, every fiber has one role. */
  lemma FibersPlacedInEveryRun(states: seq<State>, actions: seq<Action>, k: nat)
    requires CodeRun(states, actions) && Init(states[0]) && k < |states|
    ensures Shape(states[k]) && forall f: nat :: f < |states[k].place| ==> HasOneRole(states[k], f)
  {
    CodeRunHandOff(states, actions, k);
    var s := states[k];
    forall f: nat | f < |s.place| ensures HasOneRole(s, f) { FiberAtOnePlace(s, f); }
  }

  /** No step switches a thread to a fiber whose stack is in use: the target of a switch is on no
      thread, neither current nor awaiting clean-up. */
  lemma SwitchEntersFreeStack(s: State, t: nat, f: nat, u: nat)
    requires HandOff(s) && t < |s.pc| && u < |s.pc|
    requires s.pc[t] == Resume(f) || (s.pc[t].Waiting? && s.pc[t].wait == Leave(f))
    ensures s.cur[u] != f && !(s.prev[u].Prev? && s.prev[u].fiber == f)
  {
    assert ThreadPlaced(s, t) && ThreadPlaced(s, u);
  }
}

/**
  What push_bottom, pop_bottom and steal do and answer, from their first step to their last, under
  every interleaving with other threads.
 */
module ChaseLevCalls {
  import opened Prelude
  import opened Arithmetic
  import opened Rings
  import opened ChaseLev
  import opened ChaseLevInv
  import opened ChaseLevTheorems

  // ----- runs -----------------------------------------------------------------------------------------

  ghost predicate Moved<T(!new)>(s: State<T>, a: Action<T>, q: State<T>) {
    Enabled(s, a) && q == Do(s, a)
  }

  /** The states along a run of a new deque. */
  ghost predicate Path<T(!new)>(states: seq<State<T>>, actions: seq<Action<T>>) {
    && |states| == |actions| + 1 && Init(states[0])
    && forall k :: 0 <= k < |actions| ==> Moved(states[k], actions[k], states[k + 1])
  }

  lemma {:induction false} PathInv<T(!new)>(states: seq<State<T>>, actions: seq<Action<T>>, k: nat)
    requires Path(states, actions) && k < |states|
    ensures Inv(states[k])
  {
    if k == 0 {
      InitInv(states[0]);
    } else {
      PathInv(states, actions, k - 1);
      assert Moved(states[k - 1], actions[k - 1], states[k]);
      hide Init, Enabled, Do, Inv;
      StepInv(states[k - 1], actions[k - 1]);
    }
  }

  lemma PathStep<T(!new)>(states: seq<State<T>>, actions: seq<Action<T>>, k: nat)
    requires Path(states, actions) && k < |actions|
    ensures |states| == |actions| + 1 && Enabled(states[k], actions[k]) && states[k + 1] == Do(states[k], actions[k])
    ensures Inv(states[k]) && Inv(states[k + 1])
  {
    PathInv(states, actions, k);
    PathInv(states, actions, k + 1);
    assert Moved(states[k], actions[k], states[k + 1]);
  }

  lemma PathLength<T(!new)>(states: seq<State<T>>, actions: seq<Action<T>>)
    requires Path(states, actions)
    ensures |states| == |actions| + 1
  {
  }

  /** The action is a step of the owner. */
  predicate OwnerActs<T>(a: Action<T>) {
    a.Push? || a.Pop? || a.Owner?
  }

  /** Others neither move the owner nor change its answer, the elements' order or the capacity. */
  lemma OthersLeaveOwner<T>(s: State<T>, a: Action<T>)
    requires Enabled(s, a) && !OwnerActs(a)
    ensures
      var q := Do(s, a);
      && q.owner == s.owner && q.popped == s.popped && q.items == s.items && q.bottom == s.bottom && q.cur == s.cur
      && q.log == s.log && q.slots == s.slots && q.unlinked == s.unlinked && q.frees == s.frees && q.logInit == s.logInit
  {
  }

  /** The owner is inside an operation from step i + 1 to step j, and out of it at step j. */
  ghost predicate OwnerSpan<T>(states: seq<State<T>>, i: nat, j: nat) {
    i < j < |states| && states[j].owner.Calm? && forall n :: i < n < j ==> !states[n].owner.Calm?
  }

  // ----- pop --------------------------------------------------------------------------------------------

  /** How a pop that loads top at step l and, for the last element, tries its CAS at step m must
      end: it takes the back; of a single element only if top has not moved; of none it fails. */
  ghost predicate PopAnswer<T(!new)>(states: seq<State<T>>, l: nat, m: nat, answer: Answer<T>) {
    && l <= m < |states| && states[l].owner.PopTop? && states[l].top <= |states[l].items|
    && var q := Live(states[l]);
       if |q| == 0 then answer == Failed
       else if |q| == 1 then
         && l < m && states[m].owner.PopCas?
         && answer == if states[m].top == states[l].top then Took(q[0]) else Failed
       else answer == Took(q[|q| - 1])
  }

  predicate AfterPop<T>(pc: OwnerPc<T>) {
    match pc
    case Calm => true
    case PopRestore => true
    case PopShrink(_) => true
    case ScanIdle(_, _, k) => k.ThenReturn?
    case ScanUsed(_, _, k) => k.ThenReturn?
    case Reclaim(_, k) => k.ThenReturn?
    case _ => false
  }

  /** How far the pop that began at step i has come at step n: l and m are its load and its CAS, once
      they have happened. */
  ghost predicate Popping<T(!new)>(states: seq<State<T>>, i: nat, n: nat, l: nat, m: nat) {
    && i < n < |states|
    && var s := states[n];
       match s.owner
       case PopTop => true
       case PopCas(seen) =>
         && i < l < n && states[l].owner.PopTop? && states[l].top == seen && |states[l].items| == seen + 1 && s.items == states[l].items
       case _ => AfterPop(s.owner) && i < l <= m < n && PopAnswer(states, l, m, s.popped)
  }

  lemma OwnPopStep<T(!new)>(s: State<T>, segment: seq<T>)
    requires Inv(s) && OwnerEnabled(s, segment) && (s.owner.PopTop? || s.owner.PopCas? || AfterPop(s.owner)) && !s.owner.Calm?
    ensures
      var q, n := OwnerStep(s, segment), |s.items|;
      match s.owner
      case PopTop =>
        if n <= s.top then AfterPop(q.owner) && q.popped == Failed
        else if n == s.top + 1 then q.owner == PopCas(s.top) && q.items == s.items
        else AfterPop(q.owner) && q.popped == Took(s.items[n - 1])
      case PopCas(seen) =>
        AfterPop(q.owner) && seen < n && q.popped == if s.top == seen then Took(s.items[seen]) else Failed
      case _ => AfterPop(q.owner) && q.popped == s.popped
  {
  }

  lemma PoppingStep<T(!new)>(states: seq<State<T>>, actions: seq<Action<T>>, i: nat, n: nat, l: nat, m: nat) returns (l': nat, m': nat)
    requires Path(states, actions) && n < |actions| && Popping(states, i, n, l, m) && !states[n].owner.Calm?
    ensures Popping(states, i, n + 1, l', m')
  {
    PathStep(states, actions, n);
    hide Path, Do, AfterPop;
    var s, a := states[n], actions[n];
    l', m' := l, m;
    if !OwnerActs(a) {
      OthersLeaveOwner(s, a);
    } else {
      assert a.Owner? && Do(s, a) == OwnerStep(s, a.segment);
      OwnPopStep(s, a.segment);
      if s.owner.PopTop? { l', m' := n, n; } else if s.owner.PopCas? { m' := n; }
    }
    hide Inv;
  }

  lemma {:induction false} PoppingAlong<T(!new)>(states: seq<State<T>>, actions: seq<Action<T>>, i: nat, j: nat) returns (l: nat, m: nat)
    requires Path(states, actions) && i < |actions| && actions[i].Pop? && i < j < |states|
    requires forall n :: i < n < j ==> !states[n].owner.Calm?
    ensures Popping(states, i, j, l, m)
    decreases j
  {
    PathLength(states, actions);
    if j == i + 1 {
      PathStep(states, actions, i);
      l, m := 0, 0;
    } else {
      hide Path, Popping;
      l, m := PoppingAlong(states, actions, i, j - 1);
      l, m := PoppingStep(states, actions, i, j - 1, l, m);
    }
  }

  /** pop_bottom, from its first step to its return: it fails if and only if there was no element
      when it loaded top, or there was one and top had moved on at its CAS; otherwise it answers
      with the element that was the back at the load. */
  lemma PopAnswersExactly<T(!new)>(states: seq<State<T>>, actions: seq<Action<T>>, i: nat, j: nat) returns (l: nat, m: nat)
    requires Path(states, actions) && i < |actions| && actions[i].Pop? && OwnerSpan(states, i, j)
    ensures i < l <= m < j && PopAnswer(states, l, m, states[j].popped)
  {
    l, m := PoppingAlong(states, actions, i, j);
  }

  // ----- push -------------------------------------------------------------------------------------------

  ghost predicate InPush<T>(pc: OwnerPc<T>, x: T) {
    match pc
    case PushTop(y) => y == x
    case PushGrow(y, _) => y == x
    case PushPut(y, _) => y == x
    case PushStore(y) => y == x
    case ScanIdle(_, _, k) => k.ThenPut? && k.x == x
    case ScanUsed(_, _, k) => k.ThenPut? && k.x == x
    case Reclaim(_, k) => k.ThenPut? && k.x == x
    case _ => false
  }

  /** The push that began at step i appends x at its last step and changes the elements at no other. */
  ghost predicate Pushing<T(!new)>(states: seq<State<T>>, i: nat, n: nat, x: T) {
    && i < n < |states|
    && var s := states[n];
       if s.owner.Calm? then
         && i < n - 1 && states[n - 1].items + [x] == s.items
         && forall p :: i < p < n - 1 ==> states[p].items == states[p + 1].items
       else
         && InPush(s.owner, x)
         && forall p :: i < p < n ==> states[p].items == states[p + 1].items
  }

  lemma OwnPushStep<T(!new)>(s: State<T>, segment: seq<T>, x: T)
    requires Sized(s) && OwnerEnabled(s, segment) && InPush(s.owner, x)
    ensures
      var q := OwnerStep(s, segment);
      if s.owner.PushStore? then q.owner.Calm? && q.items == s.items + [x]
      else InPush(q.owner, x) && q.items == s.items
  {
  }

  lemma PushingStep<T(!new)>(states: seq<State<T>>, actions: seq<Action<T>>, i: nat, n: nat, x: T)
    requires Path(states, actions) && n < |actions| && Pushing(states, i, n, x) && !states[n].owner.Calm?
    ensures Pushing(states, i, n + 1, x)
  {
    PathStep(states, actions, n);
    hide Path, InPush;
    var s, a := states[n], actions[n];
    if !OwnerActs(a) {
      OthersLeaveOwner(s, a);
      assert !s.owner.Calm?;
    } else {
      assert a.Owner? && Do(s, a) == OwnerStep(s, a.segment) by { CalmIsNotInPush(s.owner, x); }
      OwnPushStep(s, a.segment, x);
      CalmIsNotInPush(states[n + 1].owner, x);
    }
    hide Inv, Do, OwnerStep;
  }

  lemma CalmIsNotInPush<T>(pc: OwnerPc<T>, x: T)
    ensures InPush(pc, x) ==> !pc.Calm?
  {
  }

  lemma {:induction false} PushingAlong<T(!new)>(states: seq<State<T>>, actions: seq<Action<T>>, i: nat, j: nat, x: T)
    requires Path(states, actions) && i < |actions| && actions[i] == Push(x) && i < j < |states|
    requires forall n :: i < n < j ==> !states[n].owner.Calm?
    ensures Pushing(states, i, j, x)
    decreases j
  {
    PathLength(states, actions);
    if j == i + 1 {
      PathStep(states, actions, i);
    } else {
      hide Path, Pushing;
      PushingAlong(states, actions, i, j - 1, x);
      PushingStep(states, actions, i, j - 1, x);
    }
  }

  /** push_bottom, from its first step to its return: it appends the element it was called with, at
      its last step, and nothing else happens at the back in between. */
  lemma PushAppendsExactly<T(!new)>(states: seq<State<T>>, actions: seq<Action<T>>, i: nat, j: nat)
    requires Path(states, actions) && i < |actions| && actions[i].Push? && OwnerSpan(states, i, j)
    ensures i < j - 1 && states[j].items == states[j - 1].items + [actions[i].x]
    ensures forall p :: i < p < j - 1 ==> states[p + 1].items == states[p].items
  {
    PushingAlong(states, actions, i, j, actions[i].x);
  }

  // ----- reclaiming during a push -------------------------------------------------------------------------

  /** Every stealer is idle, or has noted a buffer id of at least low. */
  ghost predicate NotedAtLeast<T>(s: State<T>, low: nat) {
    forall k: nat :: k < |s.idle| && k < |s.used| ==> s.idle[k] || s.used[k] >= low
  }

  function Min(a: nat, b: nat): nat { if a < b then a else b }

  /** The scan of the stealers has not gone below low, and once it is over the buffers below are gone. */
  ghost predicate Reclaiming<T(!new)>(s: State<T>, low: nat) {
    match s.owner
    case PushTop(_) => true
    case PushGrow(_, _) => true
    case ScanIdle(_, min, k) => k.ThenPut? && min >= Min(low, s.cur)
    case ScanUsed(left, min, k) => k.ThenPut? && min >= Min(low, s.cur) && 0 < left <= |s.used| && s.used[left - 1] >= low
    case Reclaim(min, k) => k.ThenPut? && min >= Min(low, s.cur)
    case PushPut(_, _) => Front(s) >= Min(low, s.cur)
    case PushStore(_) => Front(s) >= Min(low, s.cur)
    case Calm => Front(s) >= Min(low, s.cur)
    case _ => false
  }

  lemma OwnReclaimStep<T(!new)>(s: State<T>, segment: seq<T>, low: nat)
    requires Inv(s) && OwnerEnabled(s, segment) && |s.idle| == |s.used| == |s.pc| && Reclaiming(s, low) && !s.owner.Calm? && NotedAtLeast(s, low)
    ensures Reclaiming(OwnerStep(s, segment), low)
  {
  }

  lemma OtherReclaimStep<T(!new)>(s: State<T>, a: Action<T>, low: nat)
    requires Enabled(s, a) && Inv(s) && !OwnerActs(a) && Reclaiming(s, low) && NotedAtLeast(s, low) && NotedAtLeast(Do(s, a), low)
    ensures Reclaiming(Do(s, a), low)
  {
    if a.Thief? { assert ThiefOk(s, a.k); }
  }

  lemma ReclaimingStep<T(!new)>(states: seq<State<T>>, actions: seq<Action<T>>, n: nat, low: nat)
    requires Path(states, actions) && n < |actions| && Reclaiming(states[n], low) && !states[n].owner.Calm?
    requires NotedAtLeast(states[n], low) && NotedAtLeast(states[n + 1], low)
    ensures Reclaiming(states[n + 1], low)
  {
    hide Path, Reclaiming, NotedAtLeast;
    PathStep(states, actions, n);
    var s, a := states[n], actions[n];
    if !OwnerActs(a) {
      hide Inv, Do;
      OtherReclaimStep(s, a, low);
    } else {
      assert a.Owner? && Do(s, a) == OwnerStep(s, a.segment) && |s.idle| == |s.used| == |s.pc|;
      hide Inv, Do, OwnerStep;
      OwnReclaimStep(s, a.segment, low);
    }
  }

  lemma {:induction false} ReclaimingAlong<T(!new)>(states: seq<State<T>>, actions: seq<Action<T>>, i: nat, j: nat, low: nat)
    requires Path(states, actions) && i < |actions| && actions[i].Push? && i < j < |states|
    requires forall n :: i < n < j ==> !states[n].owner.Calm?
    requires forall n :: i < n <= j ==> NotedAtLeast(states[n], low)
    ensures Reclaiming(states[j], low)
    decreases j
  {
    PathLength(states, actions);
    if j == i + 1 {
      PathStep(states, actions, i);
    } else {
      hide Path, Reclaiming, NotedAtLeast;
      ReclaimingAlong(states, actions, i, j - 1, low);
      ReclaimingStep(states, actions, j - 1, low);
    }
  }

  /** Reclamation is prompt: if during a push every stealer is idle, or has noted a buffer id of at
      least low, then at its return every buffer below low, the current one excepted, is deleted. */
  lemma PushReclaims<T(!new)>(states: seq<State<T>>, actions: seq<Action<T>>, i: nat, j: nat, low: nat)
    requires Path(states, actions) && i < |actions| && actions[i].Push? && OwnerSpan(states, i, j)
    requires forall n :: i < n <= j ==> NotedAtLeast(states[n], low)
    ensures forall b: nat :: b < low && b < states[j].cur ==> b < |states[j].frees| && states[j].frees[b] == 1
  {
    ReclaimingAlong(states, actions, i, j, low);
    PathInv(states, actions, j);
  }

  // ----- capacity ---------------------------------------------------------------------------------------------

  /** The capacity that an operation must leave, from what it found when it loaded top: a push doubles
      it exactly if only the spare slot was free, a pop halves it exactly if it took one of at most a
      third of the capacity, but more than the initial capacity. */
  function NextCapacity<T>(s: State<T>): nat
    requires s.cur < |s.slots| && s.top <= |s.items|
  {
    var n, cap := |s.items| - s.top, Capacity(s);
    if s.owner.PushTop? && n >= cap - 1 then 2 * cap
    else if s.owner.PopTop? && n > 1 && n <= cap / 3 && n > Pow2(s.logInit) then cap / 2
    else cap
  }

  /** How far resizing has come at step n of the operation that began at step i and loaded top at l. */
  ghost predicate Resizing<T(!new)>(states: seq<State<T>>, i: nat, n: nat, l: nat) {
    && i < n < |states| && states[n].cur < |states[n].slots|
    && if states[n].owner.PushTop? || states[n].owner.PopTop? then true
       else
         && i < l < n && (states[l].owner.PushTop? || states[l].owner.PopTop?)
         && states[l].cur < |states[l].slots| && states[l].top <= |states[l].items|
         && if states[n].owner.PushGrow? || states[n].owner.PopShrink? then
              Capacity(states[n]) == Capacity(states[l]) && NextCapacity(states[l]) != Capacity(states[l])
              && (states[n].owner.PushGrow? <==> states[l].owner.PushTop?)
            else Capacity(states[n]) == NextCapacity(states[l])
  }

  lemma OwnResizeStep<T(!new)>(s: State<T>, segment: seq<T>)
    requires Inv(s) && OwnerEnabled(s, segment) && !s.owner.Calm? && Inv(OwnerStep(s, segment))
    ensures
      var q := OwnerStep(s, segment);
      if s.owner.PushTop? || s.owner.PopTop? then
        && Capacity(q) == Capacity(s) && !q.owner.PushTop? && !q.owner.PopTop?
        && (q.owner.PushGrow? <==> s.owner.PushTop? && NextCapacity(s) != Capacity(s))
        && (q.owner.PopShrink? <==> s.owner.PopTop? && NextCapacity(s) != Capacity(s))
      else
        && Settled(q.owner)
        && if s.owner.PushGrow? then Capacity(q) == 2 * Capacity(s)
           else if s.owner.PopShrink? then 2 * Capacity(q) == Capacity(s)
           else Capacity(q) == Capacity(s)
  {
    assert Capacity(s) == Pow2(s.log[s.cur]);
  }

  predicate Settled<T>(pc: OwnerPc<T>) {
    !pc.PushGrow? && !pc.PopShrink? && !pc.PushTop? && !pc.PopTop?
  }

  lemma ResizingStep<T(!new)>(states: seq<State<T>>, actions: seq<Action<T>>, i: nat, n: nat, l: nat) returns (l': nat)
    requires Path(states, actions) && n < |actions| && Resizing(states, i, n, l) && !states[n].owner.Calm?
    ensures Resizing(states, i, n + 1, l')
  {
    PathStep(states, actions, n);
    hide Path;
    var s, a := states[n], actions[n];
    l' := l;
    if !OwnerActs(a) {
      OthersLeaveOwner(s, a);
    } else {
      assert a.Owner? && Do(s, a) == OwnerStep(s, a.segment);
      if s.owner.PushTop? || s.owner.PopTop? { l' := n; }
      OwnResizeStep(s, a.segment);
    }
    assert states[n + 1].cur < |states[n + 1].slots| && s.top <= |s.items|;
    hide Inv, Do, OwnerStep;
  }

  lemma {:induction false} ResizingAlong<T(!new)>(states: seq<State<T>>, actions: seq<Action<T>>, i: nat, j: nat) returns (l: nat)
    requires Path(states, actions) && i < |actions| && (actions[i].Push? || actions[i].Pop?) && i < j < |states|
    requires forall n :: i < n < j ==> !states[n].owner.Calm?
    ensures Resizing(states, i, j, l)
    decreases j
  {
    PathLength(states, actions);
    if j == i + 1 {
      PathStep(states, actions, i);
      l := 0;
    } else {
      hide Path, Resizing;
      l := ResizingAlong(states, actions, i, j - 1);
      l := ResizingStep(states, actions, i, j - 1, l);
    }
  }

  /** The capacity after a push or a pop is determined by what the operation found when it loaded top. */
  lemma ResizesExactly<T(!new)>(states: seq<State<T>>, actions: seq<Action<T>>, i: nat, j: nat) returns (l: nat)
    requires Path(states, actions) && i < |actions| && (actions[i].Push? || actions[i].Pop?) && OwnerSpan(states, i, j)
    ensures i < l < j && (states[l].owner.PushTop? || states[l].owner.PopTop?)
    ensures states[l].cur < |states[l].slots| && states[l].top <= |states[l].items| && states[j].cur < |states[j].slots|
    ensures Capacity(states[j]) == NextCapacity(states[l])
  {
    l := ResizingAlong(states, actions, i, j);
  }

  // ----- steal ----------------------------------------------------------------------------------------------------

  /** The steps of a steal: its loads of top and of bottom, its CAS, its read, and the load of the buffer id
      that it notes in the end. */
  datatype Steps = Steps(top: nat, bottom: nat, cas: nat, read: nat, note: nat)

  /** How a steal with these steps must end: it fails if bottom was not past its top, or top had moved on
      at its CAS; otherwise it has claimed the front, and answers with what it then reads. */
  ghost predicate StealAnswer<T(!new)>(states: seq<State<T>>, k: nat, p: Steps, answer: Answer<T>) {
    && p.top < p.bottom <= p.cas <= p.read < |states|
    && var t := states[p.top].top;
       if states[p.bottom].bottom <= t then answer == Failed
       else if states[p.cas].top != t then p.bottom < p.cas && answer == Failed
       else
         && p.bottom < p.cas < p.read && Claimed(states[p.cas], states[p.read], k)
         && var c := states[p.read].pc[k].claim;
            c.t == t && answer == Took(At(states[p.read].slots[c.buf], t))
  }

  /** The thief is about to read what it claimed at its CAS: the front at that moment. */
  ghost predicate Claimed<T(!new)>(s: State<T>, q: State<T>, k: nat) {
    && k < |q.pc| && q.pc[k].StealRead? && q.pc[k].claim.t == s.top < |s.items|
    && q.pc[k].claim.elem == s.items[s.top]
    && q.pc[k].claim.buf < |q.slots| && |q.slots[q.pc[k].claim.buf]| > 0
  }

  /** How far the steal that stealer k began at step i has come at step n. */
  ghost predicate Stealing<T(!new)>(states: seq<State<T>>, k: nat, i: nat, n: nat, p: Steps) {
    && i < n < |states| && k < |states[n].pc| && k < |states[n].stolen| && k < |states[n].used|
    && var s := states[n];
       match s.pc[k]
       case StealTop => true
       case StealBottom(t) => i < p.top < n && states[p.top].top == t
       case StealBuffer(t) => i < p.top < p.bottom < n && states[p.top].top == t && states[p.bottom].bottom > t
       case StealCas(t, _) => i < p.top < p.bottom < n && states[p.top].top == t && states[p.bottom].bottom > t
       case StealRead(c) =>
         && i < p.top < p.bottom < p.cas < n && states[p.top].top == c.t && states[p.bottom].bottom > c.t
         && states[p.cas].top == c.t < |states[p.cas].items| && c.elem == states[p.cas].items[c.t]
       case StealStore(id) => i < p.top && p.read < p.note < n && StealAnswer(states, k, p, s.stolen[k]) && states[p.note].cur == id
       case Rest => i < p.top && p.read < p.note < n && StealAnswer(states, k, p, s.stolen[k]) && states[p.note].cur == s.used[k]
       case _ => i < p.top && p.read < n && StealAnswer(states, k, p, s.stolen[k])
  }

  /** Only its own actions move a stealer or change its answer and its note; a push may note that it wrote
      over a claimed slot. */
  ghost predicate LeavesThief<T>(s: State<T>, q: State<T>, k: nat) {
    && k < |s.pc| && k < |q.pc| && k < |s.stolen| && k < |q.stolen| && k < |s.used| && k < |q.used|
    && q.stolen[k] == s.stolen[k] && q.used[k] == s.used[k]
    && (q.pc[k] == s.pc[k] ||
        (s.pc[k].StealRead? && q.pc[k].StealRead? && q.pc[k].claim.t == s.pc[k].claim.t && q.pc[k].claim.elem == s.pc[k].claim.elem))
  }

  lemma OwnerLeavesThief<T>(s: State<T>, segment: seq<T>, k: nat)
    requires Sized(s) && OwnerEnabled(s, segment) && k < |s.pc|
    ensures LeavesThief(s, OwnerStep(s, segment), k)
  {
  }

  lemma OtherThiefLeavesThief<T>(s: State<T>, j: nat, k: nat)
    requires Sized(s) && ThiefEnabled(s, j) && k < |s.pc| && j != k
    ensures LeavesThief(s, ThiefStep(s, j), k)
  {
  }

  lemma OthersLeaveThief<T>(s: State<T>, a: Action<T>, k: nat)
    requires Enabled(s, a) && k < |s.pc| && a != Thief(k) && a != BeginSteal(k)
    ensures LeavesThief(s, Do(s, a), k)
  {
    hide OwnerStep, ThiefStep;
    match a {
      case Owner(segment) => OwnerLeavesThief(s, segment, k);
      case Thief(j) => OtherThiefLeavesThief(s, j, k);
      case _ =>
    }
  }

  lemma OwnStealStep<T(!new)>(s: State<T>, k: nat)
    requires Inv(s) && ThiefEnabled(s, k)
    ensures
      var q := ThiefStep(s, k);
      && |q.pc| == |s.pc| == |q.stolen| && |q.used| == |s.pc|
      && match s.pc[k]
         case StealTop => q.pc[k] == StealBottom(s.top)
         case StealBottom(t) => if s.bottom > t then q.pc[k] == StealBuffer(t) else q.pc[k].StealLeave? && q.stolen[k] == Failed
         case StealBuffer(t) => q.pc[k].StealCas? && q.pc[k].t == t
         case StealCas(t, _) =>
           if s.top == t then t < |s.items| && q.pc[k].StealRead? && q.pc[k].claim.t == t && q.pc[k].claim.elem == s.items[t]
           else q.pc[k].StealLeave? && q.stolen[k] == Failed
         case StealRead(c) => c.buf < |s.slots| && |s.slots[c.buf]| > 0 && q.pc[k].StealLeave? && q.stolen[k] == Took(At(s.slots[c.buf], c.t))
         case StealLeave => q.pc[k].StealNote? && q.stolen[k] == s.stolen[k]
         case StealNote => q.pc[k] == StealStore(s.cur) && q.stolen[k] == s.stolen[k]
         case StealStore(id) => q.pc[k].Rest? && q.stolen[k] == s.stolen[k] && q.used[k] == id
         case Rest => true
  {
    assert ThiefOk(s, k);
  }

  lemma StealingStep<T(!new)>(states: seq<State<T>>, actions: seq<Action<T>>, k: nat, i: nat, n: nat, p: Steps) returns (p': Steps)
    requires Path(states, actions) && n < |actions| && Stealing(states, k, i, n, p) && !states[n].pc[k].Rest?
    ensures Stealing(states, k, i, n + 1, p')
  {
    PathStep(states, actions, n);
    hide Path;
    var s, a := states[n], actions[n];
    p' := p;
    if a == Thief(k) {
      OwnStealStep(s, k);
      match s.pc[k] {
        case StealTop => p' := p.(top := n);
        case StealBottom(_) => p' := p.(bottom := n, cas := n, read := n);
        case StealCas(_, _) => p' := p.(cas := n, read := n);
        case StealRead(_) => p' := p.(read := n);
        case StealNote => p' := p.(note := n);
        case _ =>
      }
      assert Do(s, a) == ThiefStep(s, k);
    } else {
      assert a != BeginSteal(k);
      OthersLeaveThief(s, a, k);
    }
    hide Inv, Do, ThiefStep, Enabled;
  }

  lemma {:induction false} StealingAlong<T(!new)>(states: seq<State<T>>, actions: seq<Action<T>>, k: nat, i: nat, j: nat) returns (p: Steps)
    requires Path(states, actions) && i < |actions| && actions[i] == BeginSteal(k) && i < j < |states|
    requires forall n :: i < n < j ==> k < |states[n].pc| && !states[n].pc[k].Rest?
    ensures Stealing(states, k, i, j, p)
    decreases j
  {
    PathLength(states, actions);
    if j == i + 1 {
      PathStep(states, actions, i);
      p := Steps(0, 0, 0, 0, 0);
    } else {
      hide Path, Stealing;
      p := StealingAlong(states, actions, k, i, j - 1);
      p := StealingStep(states, actions, k, i, j - 1, p);
    }
  }

  /** steal, from its first step to its return: it fails if and only if bottom was not past the top it
      had loaded, or top had moved on at its CAS; otherwise it claimed the front at the CAS and
      answers with what it then read from the slot of that element in the buffer it had loaded.  In the
      end it notes the id of the buffer that was current after that. */
  lemma StealAnswersExactly<T(!new)>(states: seq<State<T>>, actions: seq<Action<T>>, k: nat, i: nat, j: nat) returns (p: Steps)
    requires Path(states, actions) && i < |actions| && actions[i] == BeginSteal(k) && i < j < |states|
    requires forall n :: i < n < j ==> k < |states[n].pc| && !states[n].pc[k].Rest?
    requires k < |states[j].pc| && states[j].pc[k].Rest?
    ensures i < p.top && p.read < p.note < j && k < |states[j].stolen| && StealAnswer(states, k, p, states[j].stolen[k])
    ensures k < |states[j].used| && states[j].used[k] == states[p.note].cur
  {
    p := StealingAlong(states, actions, k, i, j);
  }
}

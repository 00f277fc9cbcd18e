/**
  Handing out and taking back counters: acquireCounterHandle, releaseCounter and
  releaseCounterIfOnTarget, run by any number of threads at once.

  One action is one access to the free queue, to the handle pool or to a counter.  The handle
  pool has as many handles as there are counters and may hand out any handle that is free.
  The fields of `State` from `place` on are history variables.
 */
module CounterPool {
  import opened Prelude

  datatype Pc =
    | Resting
    | Taken(c: nat)                                   // index dequeued, about to reset the counter
    | NeedHandle(c: nat)                              // about to acquire a handle
    | Bind(h: nat, c: nat)                            // about to write the handle's counterIndex
    | Look(h: nat, target: Option<int>)               // release: about to read counterIndex
    | Load(h: nat, c: nat, target: Option<int>)       // about to load the count
    | Drop(h: nat, c: nat, reply: Answer)             // about to release the handle
    | GiveBack(c: nat, reply: Answer)                 // about to enqueue the index

  /** What a call returns: a handle, whether the count was on target, or the last count. */
  datatype Answer = NoAnswer | Acquired(h: nat) | OnTarget(yes: bool) | LastState(value: int)

  /** History: where a counter index is. */
  datatype Place = InQueue | With(t: nat) | Of(h: nat)

  /** History: which thread works on a handle. */
  datatype User = Nobody | Binder(t: nat) | Releaser(t: nat)

  datatype State = State(
    free: seq<nat>,          // mFreeCounters
    counts: seq<int>,        // per counter
    alive: seq<bool>,        // per handle: taken from the pool
    index: seq<nat>,         //   counterIndex
    pc: seq<Pc>,             // per thread
    answer: seq<Answer>,     //   what its last completed call returned
    place: seq<Place>,       // history, per counter
    user: seq<User>)         // history, per handle

  predicate PcShape(pc: Pc, n: nat) {
    match pc
    case Resting => true
    case Taken(c) => c < n
    case NeedHandle(c) => c < n
    case Bind(h, c) => h < n && c < n
    case Look(h, _) => h < n
    case Load(h, c, _) => h < n && c < n
    case Drop(h, c, _) => h < n && c < n
    case GiveBack(c, _) => c < n
  }

  ghost predicate Shape(s: State) {
    && |s.counts| == |s.alive| == |s.index| == |s.place| == |s.user|
    && |s.answer| == |s.pc|
    && (forall k :: 0 <= k < |s.free| ==> s.free[k] < |s.counts|)
    && (forall h :: 0 <= h < |s.index| ==> s.index[h] < |s.counts|)
    && (forall t: nat :: t < |s.pc| ==> PcShape(s.pc[t], |s.counts|))
  }

  // ----- actions ---------------------------------------------------------------------------------

  datatype Action =
    | BeginAcquire(t: nat)
    | BeginRelease(t: nat, h: nat, target: Option<int>)   // without a target: releaseCounter
    | Advance(t: nat, h: nat)                             // h: the handle the pool hands out, if it does
    | Count(c: nat, value: int)                           // some update of a counter

  function AfterLoad(h: nat, c: nat, target: Option<int>, value: int): Pc {
    if target.Some? && target.value != value then Resting
    else Drop(h, c, if target.Some? then OnTarget(true) else LastState(value))
  }

  ghost predicate Enabled(s: State, a: Action) {
    && Shape(s)
    && match a
       case BeginAcquire(t) => t < |s.pc| && s.pc[t].Resting? && s.free != []
       case BeginRelease(t, h, _) => t < |s.pc| && s.pc[t].Resting? && h < |s.alive|
       case Advance(t, h) =>
         t < |s.pc| && !s.pc[t].Resting? && (s.pc[t].NeedHandle? ==> h < |s.alive| && !s.alive[h])
       case Count(c, _) => c < |s.counts|
  }

  ghost function Do(s: State, a: Action): State
    requires Enabled(s, a)
  {
    match a
    case BeginAcquire(t) =>
      s.(pc := s.pc[t := Taken(s.free[0])], answer := s.answer[t := NoAnswer], free := s.free[1..], place := s.place[s.free[0] := With(t)])
    case BeginRelease(t, h, target) =>
      s.(pc := s.pc[t := Look(h, target)], answer := s.answer[t := NoAnswer], user := s.user[h := Releaser(t)])
    case Count(c, value) => s.(counts := s.counts[c := value])
    case Advance(t, h) => Next(s, t, h)
  }

  ghost function Next(s: State, t: nat, given: nat): State
    requires Enabled(s, Advance(t, given))
  {
    match s.pc[t]
    case Taken(c) => s.(pc := s.pc[t := NeedHandle(c)], counts := s.counts[c := 0])
    case NeedHandle(c) =>
      s.(pc := s.pc[t := Bind(given, c)], alive := s.alive[given := true], user := s.user[given := Binder(t)])
    case Bind(h, c) =>
      s.(pc := s.pc[t := Resting], answer := s.answer[t := Acquired(h)], index := s.index[h := c], user := s.user[h := Nobody], place := s.place[c := Of(h)])
    case Look(h, target) => s.(pc := s.pc[t := Load(h, s.index[h], target)])
    case Load(h, c, target) =>
      var next := AfterLoad(h, c, target, s.counts[c]);
      s.(pc := s.pc[t := next],
         answer := if next.Resting? then s.answer[t := OnTarget(false)] else s.answer,
         user := if next.Resting? then s.user[h := Nobody] else s.user)
    case Drop(h, c, reply) =>
      s.(pc := s.pc[t := GiveBack(c, reply)], alive := s.alive[h := false], user := s.user[h := Nobody],
         place := s.place[c := With(t)])
    case GiveBack(c, reply) =>
      s.(pc := s.pc[t := Resting], answer := s.answer[t := reply], free := s.free + [c], place := s.place[c := InQueue])
  }

  /** Some thread is between the first and the last access of a handle's acquisition or release. */
  predicate WorksOn(pc: Pc, h: nat) {
    (pc.Bind? || pc.Look? || pc.Load? || pc.Drop?) && pc.h == h
  }

  /** H4: a handle is released at most once: only while it is alive, and by one thread at a time. */
  ghost predicate Disciplined(s: State, a: Action)
    requires Enabled(s, a)
  {
    a.BeginRelease? ==> s.alive[a.h] && forall t: nat :: t < |s.pc| ==> !WorksOn(s.pc[t], a.h)
  }

  ghost predicate RunOf(states: seq<State>, actions: seq<Action>) {
    && |states| == |actions| + 1
    && forall k :: 0 <= k < |actions| ==>
         Enabled(states[k], actions[k]) && Disciplined(states[k], actions[k]) && states[k + 1] == Do(states[k], actions[k])
  }

  ghost predicate Init(s: State) {
    && Shape(s)
    && s.free == seq(|s.counts|, i => i)
    && (forall t: nat :: t < |s.pc| ==> s.pc[t].Resting?)
    && (forall h: nat :: h < |s.alive| ==> !s.alive[h] && s.user[h].Nobody?)
    && (forall c: nat :: c < |s.place| ==> s.place[c].InQueue?)
  }

  // ----- the invariant ------------------------------------------------------------------------------

  ghost predicate ThreadOk(s: State, t: nat)
    requires Shape(s) && t < |s.pc|
  {
    match s.pc[t]
    case Resting => true
    case Taken(c) => s.place[c] == With(t)
    case NeedHandle(c) => s.place[c] == With(t)
    case Bind(h, c) => s.place[c] == With(t) && s.alive[h] && s.user[h] == Binder(t)
    case Look(h, _) => s.alive[h] && s.user[h] == Releaser(t)
    case Load(h, c, _) => s.alive[h] && s.user[h] == Releaser(t) && s.index[h] == c
    case Drop(h, c, _) => s.alive[h] && s.user[h] == Releaser(t) && s.index[h] == c
    case GiveBack(c, _) => s.place[c] == With(t)
  }

  ghost predicate CounterOk(s: State, c: nat)
    requires Shape(s) && c < |s.place|
  {
    match s.place[c]
    case InQueue => c in s.free
    case With(t) =>
      && t < |s.pc| && (s.pc[t].Taken? || s.pc[t].NeedHandle? || s.pc[t].Bind? || s.pc[t].GiveBack?)
      && s.pc[t].c == c
    case Of(h) => h < |s.alive| && s.alive[h] && s.index[h] == c && !s.user[h].Binder?
  }

  ghost predicate HandleOk(s: State, h: nat)
    requires Shape(s) && h < |s.alive|
  {
    match s.user[h]
    case Nobody => s.alive[h] ==> s.place[s.index[h]] == Of(h)
    case Binder(t) => s.alive[h] && t < |s.pc| && s.pc[t].Bind? && s.pc[t].h == h
    case Releaser(t) =>
      && s.alive[h] && s.place[s.index[h]] == Of(h)
      && t < |s.pc| && WorksOn(s.pc[t], h) && !s.pc[t].Bind?
  }

  ghost predicate FreeOk(s: State)
    requires Shape(s)
  {
    NoDup(s.free) && forall k :: 0 <= k < |s.free| ==> s.place[s.free[k]].InQueue?
  }

  ghost predicate Inv(s: State) {
    && Shape(s) && FreeOk(s)
    && (forall t: nat :: t < |s.pc| ==> ThreadOk(s, t))
    && (forall c: nat :: c < |s.place| ==> CounterOk(s, c))
    && (forall h: nat :: h < |s.alive| ==> HandleOk(s, h))
  }

  lemma InitInv(s: State)
    requires Init(s)
    ensures Inv(s)
  {
    forall c: nat | c < |s.place| ensures CounterOk(s, c) { assert s.free[c] == c; }
  }

  /** What the invariant says about the acting thread and the handle and the counter it touches. */
  ghost predicate Acting(s: State, a: Action) {
    && Enabled(s, a) && Disciplined(s, a)
    && match a
       case Count(_, _) => true
       case BeginRelease(_, h, _) => HandleOk(s, h)
       case BeginAcquire(_) => s.place[s.free[0]].InQueue?
       case Advance(t, given) =>
         && ThreadOk(s, t)
         && (s.pc[t].NeedHandle? ==> HandleOk(s, given))
         && (s.pc[t].Drop? ==> HandleOk(s, s.pc[t].h))
  }

  lemma ActingOf(s: State, a: Action)
    requires Inv(s) && Enabled(s, a) && Disciplined(s, a)
    ensures Acting(s, a)
  {
  }

  lemma StepShape(s: State, a: Action)
    requires Acting(s, a)
    ensures Shape(Do(s, a))
  {
  }

  lemma StepFree(s: State, a: Action, s': State)
    requires Acting(s, a) && s' == Do(s, a) && Shape(s') && FreeOk(s)
    ensures FreeOk(s')
  {
  }

  lemma NextThread(s: State, actor: nat, given: nat, t: nat, s': State)
    requires Acting(s, Advance(actor, given)) && s' == Next(s, actor, given) && Shape(s')
    requires t < |s.pc| && ThreadOk(s, t)
    ensures ThreadOk(s', t)
  {
    if t != actor { NextOtherThread(s, actor, given, t, s'); }
    hide Acting, Disciplined, CounterOk;
  }

  lemma NextOtherThread(s: State, actor: nat, given: nat, t: nat, s': State)
    requires Acting(s, Advance(actor, given)) && s' == Next(s, actor, given) && Shape(s')
    requires t < |s.pc| && t != actor && ThreadOk(s, t)
    ensures ThreadOk(s', t)
  {
  }

  lemma StepThread(s: State, a: Action, t: nat, s': State)
    requires Acting(s, a) && s' == Do(s, a) && Shape(s') && t < |s.pc| && ThreadOk(s, t)
    ensures ThreadOk(s', t)
  {
    if a.Advance? { NextThread(s, a.t, a.h, t, s'); }
    hide Next;
  }

  lemma NextCounter(s: State, actor: nat, given: nat, c: nat, s': State)
    requires Acting(s, Advance(actor, given)) && s' == Next(s, actor, given) && Shape(s')
    requires c < |s.place| && CounterOk(s, c)
    ensures CounterOk(s', c)
  {
  }

  lemma StepCounter(s: State, a: Action, c: nat, s': State)
    requires Acting(s, a) && s' == Do(s, a) && Shape(s') && c < |s.place| && CounterOk(s, c)
    ensures CounterOk(s', c)
  {
    if a.Advance? { NextCounter(s, a.t, a.h, c, s'); }
    hide Next;
  }

  lemma NextHandle(s: State, actor: nat, given: nat, h: nat, s': State)
    requires Acting(s, Advance(actor, given)) && s' == Next(s, actor, given) && Shape(s')
    requires h < |s.alive| && HandleOk(s, h)
    ensures HandleOk(s', h)
  {
  }

  lemma StepHandle(s: State, a: Action, h: nat, s': State)
    requires Acting(s, a) && s' == Do(s, a) && Shape(s') && h < |s.alive| && HandleOk(s, h)
    ensures HandleOk(s', h)
  {
    if a.Advance? { NextHandle(s, a.t, a.h, h, s'); }
    hide Next;
  }

  /** Every action that respects H4 keeps the invariant. */
  lemma StepInv(s: State, a: Action)
    requires Inv(s) && Enabled(s, a) && Disciplined(s, a)
    ensures Inv(Do(s, a))
  {
    ActingOf(s, a);
    StepShape(s, a);
    var s' := Do(s, a);
    StepFree(s, a, s');
    assert |s'.pc| == |s.pc| && |s'.place| == |s.place| && |s'.alive| == |s.alive|;
    hide Do, Acting, ThreadOk, CounterOk, HandleOk, Enabled, Disciplined, FreeOk;
    forall t: nat | t < |s.pc| ensures ThreadOk(s', t) { StepThread(s, a, t, s'); }
    forall c: nat | c < |s.place| ensures CounterOk(s', c) { StepCounter(s, a, c, s'); }
    forall h: nat | h < |s.alive| ensures HandleOk(s', h) { StepHandle(s, a, h, s'); }
  }

  lemma {:induction false} RunInv(states: seq<State>, actions: seq<Action>, k: nat)
    requires RunOf(states, actions) && Init(states[0]) && k < |states|
    ensures Inv(states[k])
  {
    if k == 0 {
      InitInv(states[0]);
    } else {
      RunInv(states, actions, k - 1);
      StepInv(states[k - 1], actions[k - 1]);
    }
  }

  // ----- what every run keeps ------------------------------------------------------------------------

  /** A place of a counter index, read off the program's variables. */
  datatype Role = Queued(k: nat) | InTransit(t: nat) | BoundTo(h: nat)

  ghost predicate HasRole(s: State, c: nat, r: Role) {
    match r
    case Queued(k) => k < |s.free| && s.free[k] == c
    case InTransit(t) =>
      && t < |s.pc| && (s.pc[t].Taken? || s.pc[t].NeedHandle? || s.pc[t].Bind? || s.pc[t].GiveBack?)
      && s.pc[t].c == c
    case BoundTo(h) =>
      && h < |s.alive| == |s.index| && s.alive[h] && s.index[h] == c
      && forall t: nat :: t < |s.pc| && s.pc[t].Bind? ==> s.pc[t].h != h
  }

  lemma RolePlace(s: State, c: nat, r: Role)
    requires Inv(s) && c < |s.place| && HasRole(s, c, r)
    ensures
      match r
      case Queued(_) => s.place[c].InQueue?
      case InTransit(t) => s.place[c] == With(t)
      case BoundTo(h) => s.place[c] == Of(h)
  {
    match r {
      case Queued(k) =>
      case InTransit(t) => assert ThreadOk(s, t);
      case BoundTo(h) => assert HandleOk(s, h);
    }
  }

  lemma RoleExists(s: State, c: nat) returns (r: Role)
    requires Inv(s) && c < |s.place|
    ensures HasRole(s, c, r)
  {
    assert CounterOk(s, c);
    match s.place[c] {
      case InQueue =>
        var k: nat :| k < |s.free| && s.free[k] == c;
        r := Queued(k);
      case With(t) => r := InTransit(t);
      case Of(h) =>
        forall t: nat | t < |s.pc| && s.pc[t].Bind? ensures s.pc[t].h != h { assert ThreadOk(s, t); }
        r := BoundTo(h);
    }
  }

  ghost predicate HasOneRole(s: State, c: nat) {
    (exists r :: HasRole(s, c, r)) && forall r, r' :: HasRole(s, c, r) && HasRole(s, c, r') ==> r == r'
  }

  /** Every counter index is always in exactly one place: once in the free queue, in the hands of
      one thread, or bound to one live handle. */
  lemma CounterAtOnePlace(s: State, c: nat)
    requires Inv(s) && c < |s.counts|
    ensures HasOneRole(s, c)
  {
    var r0 := RoleExists(s, c);
    forall r, r' | HasRole(s, c, r) && HasRole(s, c, r') ensures r == r' {
      RolePlace(s, c, r);
      RolePlace(s, c, r');
    }
  }

  /** The counter a live handle stands for, or is about to stand for. */
  ghost function CounterOf(s: State, h: nat): (c: nat)
    requires Inv(s) && h < |s.alive| && s.alive[h]
    ensures c < |s.place|
    ensures s.place[c] == if s.user[h].Binder? then With(s.user[h].t) else Of(h)
  {
    assert HandleOk(s, h);
    if s.user[h].Binder? then assert ThreadOk(s, s.user[h].t); s.pc[s.user[h].t].c else s.index[h]
  }

  lemma CountersDiffer(s: State, g: nat, h: nat)
    requires Inv(s) && g < |s.alive| && h < |s.alive| && s.alive[g] && s.alive[h] && CounterOf(s, g) == CounterOf(s, h)
    ensures g == h
  {
    assert HandleOk(s, g) && HandleOk(s, h);
  }

  /** Whenever a free counter was obtained, the pool still has a handle for it. */
  lemma HandlePoolNeverExhausted(s: State, t: nat)
    requires Inv(s) && t < |s.pc| && s.pc[t].NeedHandle?
    ensures exists h: nat :: h < |s.alive| && !s.alive[h]
  {
    var n := |s.alive|;
    if forall h: nat :: h < n ==> s.alive[h] {
      assert ThreadOk(s, t);
      var held := seq(n, h requires 0 <= h < n => CounterOf(s, h));
      forall g, h | 0 <= g < h < n ensures held[g] != held[h] {
        if held[g] == held[h] { CountersDiffer(s, g, h); }
      }
      forall h | 0 <= h < n ensures held[h] != s.pc[t].c { assert HandleOk(s, h); }
      Pigeonhole(held + [s.pc[t].c], n);
    }
  }

  /** Whenever an index is about to be given back, the free queue has room for it. */
  lemma FreeQueueHasRoom(s: State, t: nat)
    requires Inv(s) && t < |s.pc| && s.pc[t].GiveBack?
    ensures |s.free| < |s.counts|
  {
    assert ThreadOk(s, t);
    Pigeonhole(s.free + [s.pc[t].c], |s.counts|);
  }

  /** A bound handle keeps its counter until it is released. */
  lemma BindingIsStable(s: State, a: Action, c: nat, h: nat)
    requires Inv(s) && Enabled(s, a) && Disciplined(s, a) && c < |s.counts| && HasRole(s, c, BoundTo(h))
    ensures HasRole(Do(s, a), c, BoundTo(h)) || (a.Advance? && s.pc[a.t].Drop? && s.pc[a.t].h == h && s.pc[a.t].c == c)
  {
    if a.Advance? { assert ThreadOk(s, a.t); }
    if a.Advance? && s.pc[a.t].NeedHandle? { assert HandleOk(s, a.h); }
  }

  /** Over every run that respects H4: each counter at one place, a handle for every counter that
      was obtained, and room for every index that is given back. */
  lemma SafeInEveryRun(states: seq<State>, actions: seq<Action>, k: nat)
    requires RunOf(states, actions) && Init(states[0]) && k < |states|
    ensures
      var s := states[k];
      && (forall c: nat :: c < |s.counts| ==> HasOneRole(s, c))
      && (forall t: nat :: t < |s.pc| && s.pc[t].NeedHandle? ==> exists h: nat :: h < |s.alive| && !s.alive[h])
      && (forall t: nat :: t < |s.pc| && s.pc[t].GiveBack? ==> |s.free| < |s.counts|)
  {
    var s := states[k];
    RunInv(states, actions, k);
    forall c: nat | c < |s.counts| ensures HasOneRole(s, c) { CounterAtOnePlace(s, c); }
    forall t: nat | t < |s.pc| && s.pc[t].NeedHandle? ensures exists h: nat :: h < |s.alive| && !s.alive[h] {
      HandlePoolNeverExhausted(s, t);
    }
    forall t: nat | t < |s.pc| && s.pc[t].GiveBack? ensures |s.free| < |s.counts| { FreeQueueHasRoom(s, t); }
  }
}

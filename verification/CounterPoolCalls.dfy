/**
  What the calls of the counter interface answer, from their first step to their last, whatever
  other threads do in between.
 */
module CounterPoolCalls {
  import opened Prelude
  import opened CounterPool

  lemma RunStep(states: seq<State>, actions: seq<Action>, k: nat)
    requires RunOf(states, actions) && Init(states[0]) && k < |actions|
    ensures |states| == |actions| + 1 && Enabled(states[k], actions[k]) && Disciplined(states[k], actions[k])
    ensures states[k + 1] == Do(states[k], actions[k]) && Inv(states[k]) && Inv(states[k + 1])
  {
    RunInv(states, actions, k);
    RunInv(states, actions, k + 1);
  }

  /** Only its own actions move a thread or change its answer. */
  lemma OthersLeaveThread(s: State, a: Action, t: nat)
    requires Enabled(s, a) && t < |s.pc| && (a.Count? || a.t != t)
    ensures |Do(s, a).pc| == |s.pc| == |Do(s, a).answer| && Do(s, a).pc[t] == s.pc[t] && Do(s, a).answer[t] == s.answer[t]
  {
  }

  /** Thread t is inside a call from step i + 1 to step j, and out of it at step j. */
  ghost predicate CallSpan(states: seq<State>, t: nat, i: nat, j: nat) {
    && i < j < |states| && t < |states[j].pc| && states[j].pc[t].Resting?
    && forall n :: i < n < j ==> t < |states[n].pc| && !states[n].pc[t].Resting?
  }

  // ----- acquiring ------------------------------------------------------------------------------------

  /** The count of c was set to 0 by a step of thread t between i and n. */
  ghost predicate ResetBetween(states: seq<State>, actions: seq<Action>, t: nat, c: nat, i: nat, n: nat) {
    exists m: nat :: i < m < n && ResetStep(states, actions, t, c, m)
  }

  ghost predicate ResetStep(states: seq<State>, actions: seq<Action>, t: nat, c: nat, m: nat) {
    && m < |actions| && m + 1 < |states| && actions[m].Advance? && actions[m].t == t
    && c < |states[m + 1].counts| && states[m + 1].counts[c] == 0
  }

  /** How far the acquisition that took index c at step i has come at step n. */
  ghost predicate Acquiring(states: seq<State>, actions: seq<Action>, t: nat, c: nat, i: nat, n: nat) {
    && n < |states| && t < |states[n].pc| == |states[n].answer|
    && match states[n].pc[t]
       case Taken(d) => d == c
       case NeedHandle(d) => d == c && ResetBetween(states, actions, t, c, i, n)
       case Bind(_, d) => d == c && ResetBetween(states, actions, t, c, i, n)
       case Resting =>
         && ResetBetween(states, actions, t, c, i, n)
         && states[n].answer[t].Acquired? && HasRole(states[n], c, BoundTo(states[n].answer[t].h))
       case _ => false
  }

  lemma ResetLater(states: seq<State>, actions: seq<Action>, t: nat, c: nat, i: nat, n: nat)
    requires ResetBetween(states, actions, t, c, i, n)
    ensures ResetBetween(states, actions, t, c, i, n + 1)
  {
    var m: nat :| i < m < n && ResetStep(states, actions, t, c, m);
    assert i < m < n + 1 && ResetStep(states, actions, t, c, m);
  }

  /** The last step of an acquisition binds the index to the handle it answers with. */
  lemma BindAnswers(s: State, a: Action)
    requires Inv(s) && Enabled(s, a) && a.Advance? && s.pc[a.t].Bind?
    ensures |Do(s, a).answer| == |s.pc| && Do(s, a).answer[a.t] == Acquired(s.pc[a.t].h) && HasRole(Do(s, a), s.pc[a.t].c, BoundTo(s.pc[a.t].h))
  {
    assert ThreadOk(s, a.t);
    forall t: nat | t < |s.pc| && t != a.t && s.pc[t].Bind? ensures s.pc[t].h != s.pc[a.t].h { assert ThreadOk(s, t); }
  }

  lemma AcquiringStep(states: seq<State>, actions: seq<Action>, t: nat, c: nat, i: nat, n: nat)
    requires RunOf(states, actions) && Init(states[0]) && i < n < |actions|
    requires Acquiring(states, actions, t, c, i, n) && !states[n].pc[t].Resting?
    ensures Acquiring(states, actions, t, c, i, n + 1)
  {
    RunStep(states, actions, n);
    hide RunOf, Init, HasRole;
    var s, a := states[n], actions[n];
    if !s.pc[t].Taken? { ResetLater(states, actions, t, c, i, n); }
    if a.Count? || a.t != t {
      OthersLeaveThread(s, a, t);
    } else {
      if s.pc[t].Taken? { assert ResetStep(states, actions, t, c, n); }
      if s.pc[t].Bind? { BindAnswers(s, a); }
    }
    hide Inv;
  }

  lemma {:induction false} AcquiringAlong(states: seq<State>, actions: seq<Action>, t: nat, c: nat, i: nat, j: nat)
    requires RunOf(states, actions) && Init(states[0]) && i < j < |states| && Acquiring(states, actions, t, c, i, i + 1)
    requires forall n :: i < n < j ==> t < |states[n].pc| && !states[n].pc[t].Resting?
    ensures Acquiring(states, actions, t, c, i, j)
    decreases j
  {
    hide RunOf, Init, Acquiring;
    if i + 1 < j {
      AcquiringAlong(states, actions, t, c, i, j - 1);
      RunLength(states, actions);
      AcquiringStep(states, actions, t, c, i, j - 1);
    }
  }

  lemma RunLength(states: seq<State>, actions: seq<Action>)
    requires RunOf(states, actions)
    ensures |states| == |actions| + 1
  {
  }

  /** acquireCounterHandle takes the oldest free index, sets its count to 0 and answers with a live
      handle that is bound to it. */
  lemma AcquireAnswers(states: seq<State>, actions: seq<Action>, i: nat, j: nat)
    requires RunOf(states, actions) && Init(states[0]) && i < |actions| && actions[i].BeginAcquire? && CallSpan(states, actions[i].t, i, j)
    ensures
      var t := actions[i].t;
      && states[i].free != [] && t < |states[j].answer| && states[j].answer[t].Acquired?
      && HasRole(states[j], states[i].free[0], BoundTo(states[j].answer[t].h))
      && ResetBetween(states, actions, t, states[i].free[0], i, j)
  {
    RunStep(states, actions, i);
    var t := actions[i].t;
    assert Acquiring(states, actions, t, states[i].free[0], i, i + 1);
    hide RunOf, Init, Inv, Do, HasRole;
    AcquiringAlong(states, actions, t, states[i].free[0], i, j);
  }

  // ----- releasing ---------------------------------------------------------------------------------------

  /** What a release with the given target must answer when it loads the value. */
  function ReleaseAnswer(target: Option<int>, value: int): Answer {
    match target
    case Some(v) => OnTarget(v == value)
    case None => LastState(value)
  }

  /** Thread t loaded the count of c at step m, and the value was v. */
  ghost predicate LoadStep(states: seq<State>, actions: seq<Action>, t: nat, c: nat, m: nat, v: int) {
    && m < |actions| && m < |states| && actions[m].Advance? && actions[m].t == t
    && c < |states[m].counts| && states[m].counts[c] == v
  }

  ghost predicate LoadedBetween(states: seq<State>, actions: seq<Action>, t: nat, c: nat, i: nat, n: nat, v: int) {
    exists m: nat :: i < m < n && LoadStep(states, actions, t, c, m, v)
  }

  /** The release ended as it must for the count it loaded: off target the handle keeps the counter,
      otherwise it is released and the index is back in the free queue. */
  ghost predicate ReleasedFor(s: State, h: nat, c: nat, target: Option<int>, v: int, answer: Answer) {
    && answer == ReleaseAnswer(target, v)
    && if answer == OnTarget(false) then HasRole(s, c, BoundTo(h)) else |s.free| > 0 && s.free[|s.free| - 1] == c
  }

  /** How far the release of handle h, bound to c, has come at step n. */
  ghost predicate Releasing(states: seq<State>, actions: seq<Action>, t: nat, h: nat, c: nat, target: Option<int>, i: nat, n: nat) {
    && n < |states| && t < |states[n].pc| == |states[n].answer|
    && match states[n].pc[t]
       case Look(g, v) => g == h && v == target && HasRole(states[n], c, BoundTo(h))
       case Load(g, d, v) => g == h && d == c && v == target && HasRole(states[n], c, BoundTo(h))
       case Drop(g, d, reply) =>
         && g == h && d == c && reply != OnTarget(false)
         && exists v :: LoadedBetween(states, actions, t, c, i, n, v) && reply == ReleaseAnswer(target, v)
       case GiveBack(d, reply) =>
         && d == c && reply != OnTarget(false)
         && exists v :: LoadedBetween(states, actions, t, c, i, n, v) && reply == ReleaseAnswer(target, v)
       case Resting =>
         exists v :: LoadedBetween(states, actions, t, c, i, n, v) && ReleasedFor(states[n], h, c, target, v, states[n].answer[t])
       case _ => false
  }

  lemma LoadedLater(states: seq<State>, actions: seq<Action>, t: nat, c: nat, i: nat, n: nat, v: int)
    requires LoadedBetween(states, actions, t, c, i, n, v)
    ensures LoadedBetween(states, actions, t, c, i, n + 1, v)
  {
    var m: nat :| i < m < n && LoadStep(states, actions, t, c, m, v);
    assert i < m < n + 1 && LoadStep(states, actions, t, c, m, v);
  }

  /** A handle bound to c stays so while its release has not dropped it. */
  lemma StaysBound(s: State, a: Action, t: nat, h: nat, c: nat)
    requires Inv(s) && Enabled(s, a) && Disciplined(s, a) && c < |s.counts| && HasRole(s, c, BoundTo(h))
    requires t < |s.pc| && WorksOn(s.pc[t], h) && !s.pc[t].Bind? && !(a.Advance? && a.t == t && s.pc[t].Drop?)
    ensures HasRole(Do(s, a), c, BoundTo(h))
  {
    assert ThreadOk(s, t);
    if a.Advance? { assert ThreadOk(s, a.t); }
    BindingIsStable(s, a, c, h);
  }

  lemma OwnReleaseStep(s: State, a: Action, h: nat, c: nat, target: Option<int>)
    requires Inv(s) && Enabled(s, a) && Disciplined(s, a) && a.Advance? && c < |s.counts|
    requires s.pc[a.t].Look? || s.pc[a.t].Load? ==> HasRole(s, c, BoundTo(h)) && s.pc[a.t].h == h
    requires s.pc[a.t].Load? ==> s.pc[a.t].c == c && s.pc[a.t].target == target
    ensures |Do(s, a).pc| == |s.pc| == |Do(s, a).answer|
    ensures
      var s', t := Do(s, a), a.t;
      match s.pc[t]
      case Look(_, v) => s'.pc[t] == Load(h, c, v) && HasRole(s', c, BoundTo(h))
      case Load(_, _, _) =>
        var reply := ReleaseAnswer(target, s.counts[c]);
        if reply == OnTarget(false) then s'.pc[t].Resting? && s'.answer[t] == reply && HasRole(s', c, BoundTo(h))
        else s'.pc[t] == Drop(h, c, reply)
      case Drop(_, d, reply) => s'.pc[t] == GiveBack(d, reply)
      case GiveBack(d, reply) => s'.pc[t].Resting? && s'.answer[t] == reply && |s'.free| > 0 && s'.free[|s'.free| - 1] == d
      case _ => true
  {
    assert ThreadOk(s, a.t);
    if s.pc[a.t].Look? || s.pc[a.t].Load? { BindingIsStable(s, a, c, h); }
  }

  lemma ReleasingOther(states: seq<State>, actions: seq<Action>, t: nat, h: nat, c: nat, target: Option<int>, i: nat, n: nat)
    requires i < n < |actions| && n + 1 < |states| && c < |states[n].counts| && (actions[n].Count? || actions[n].t != t)
    requires Inv(states[n]) && Enabled(states[n], actions[n]) && Disciplined(states[n], actions[n]) && states[n + 1] == Do(states[n], actions[n])
    requires Releasing(states, actions, t, h, c, target, i, n) && !states[n].pc[t].Resting?
    ensures Releasing(states, actions, t, h, c, target, i, n + 1)
  {
    hide HasRole, Do, Inv;
    var s, a := states[n], actions[n];
    if s.pc[t].Drop? || s.pc[t].GiveBack? {
      var v :| LoadedBetween(states, actions, t, c, i, n, v) && s.pc[t].reply == ReleaseAnswer(target, v);
      LoadedLater(states, actions, t, c, i, n, v);
    }
    OthersLeaveThread(s, a, t);
    if s.pc[t].Look? || s.pc[t].Load? { StaysBound(s, a, t, h, c); }
    hide LoadedBetween, Enabled, Disciplined;
  }

  lemma ReleasingOwn(states: seq<State>, actions: seq<Action>, t: nat, h: nat, c: nat, target: Option<int>, i: nat, n: nat)
    requires i < n < |actions| && n + 1 < |states| && c < |states[n].counts| && !actions[n].Count? && actions[n].t == t
    requires Inv(states[n]) && Enabled(states[n], actions[n]) && Disciplined(states[n], actions[n]) && states[n + 1] == Do(states[n], actions[n])
    requires Releasing(states, actions, t, h, c, target, i, n) && !states[n].pc[t].Resting?
    ensures Releasing(states, actions, t, h, c, target, i, n + 1)
  {
    hide HasRole, Do, Inv;
    var s, a := states[n], actions[n];
    assert a.Advance?;
    if s.pc[t].Drop? || s.pc[t].GiveBack? {
      var v :| LoadedBetween(states, actions, t, c, i, n, v) && s.pc[t].reply == ReleaseAnswer(target, v);
      LoadedLater(states, actions, t, c, i, n, v);
    } else if s.pc[t].Load? {
      assert i < n < n + 1 && LoadStep(states, actions, t, c, n, s.counts[c]);
      assert LoadedBetween(states, actions, t, c, i, n + 1, s.counts[c]);
    }
    hide LoadedBetween;
    OwnReleaseStep(s, a, h, c, target);
    hide Enabled, Disciplined;
  }

  lemma ReleasingStep(states: seq<State>, actions: seq<Action>, t: nat, h: nat, c: nat, target: Option<int>, i: nat, n: nat)
    requires RunOf(states, actions) && Init(states[0]) && i < n < |actions|
    requires n < |states| && c < |states[n].counts|
    requires Releasing(states, actions, t, h, c, target, i, n) && !states[n].pc[t].Resting?
    ensures Releasing(states, actions, t, h, c, target, i, n + 1)
  {
    hide RunOf, Init, Releasing, Do, Inv, Enabled, Disciplined;
    RunStep(states, actions, n);
    if actions[n].Count? || actions[n].t != t {
      ReleasingOther(states, actions, t, h, c, target, i, n);
    } else {
      ReleasingOwn(states, actions, t, h, c, target, i, n);
    }
  }

  lemma CountersKept(s: State, a: Action)
    requires Enabled(s, a)
    ensures |Do(s, a).counts| == |s.counts|
  {
  }

  lemma {:induction false} ReleasingAlong(states: seq<State>, actions: seq<Action>, t: nat, h: nat, c: nat, target: Option<int>, i: nat, j: nat)
    requires RunOf(states, actions) && Init(states[0]) && i < j < |states| && Releasing(states, actions, t, h, c, target, i, i + 1)
    requires c < |states[i + 1].counts|
    requires forall n :: i < n < j ==> t < |states[n].pc| && !states[n].pc[t].Resting?
    ensures Releasing(states, actions, t, h, c, target, i, j) && c < |states[j].counts|
    decreases j
  {
    hide RunOf, Init, Releasing, Do, Inv, Enabled, Disciplined;
    if i + 1 < j {
      ReleasingAlong(states, actions, t, h, c, target, i, j - 1);
      RunLength(states, actions);
      RunStep(states, actions, j - 1);
      CountersKept(states[j - 1], actions[j - 1]);
      ReleasingStep(states, actions, t, h, c, target, i, j - 1);
    }
  }

  /** releaseCounterIfOnTarget answers true exactly if the count it loads is the target; then, and in
      any case for releaseCounter, which answers with that count, the index ends up in the free
      queue, and otherwise the handle stays bound to it. */
  lemma ReleaseAnswers(states: seq<State>, actions: seq<Action>, i: nat, j: nat, c: nat)
    requires RunOf(states, actions) && Init(states[0]) && i < |actions| && actions[i].BeginRelease? && CallSpan(states, actions[i].t, i, j)
    requires c < |states[i].counts| && HasRole(states[i], c, BoundTo(actions[i].h))
    ensures
      var t := actions[i].t;
      t < |states[j].answer| &&
      exists v :: LoadedBetween(states, actions, t, c, i, j, v) && ReleasedFor(states[j], actions[i].h, c, actions[i].target, v, states[j].answer[t])
  {
    RunStep(states, actions, i);
    var t, h := actions[i].t, actions[i].h;
    CountersKept(states[i], actions[i]);
    assert HasRole(states[i + 1], c, BoundTo(h));
    assert Releasing(states, actions, t, h, c, actions[i].target, i, i + 1);
    hide RunOf, Init, Inv, Do, HasRole;
    ReleasingAlong(states, actions, t, h, c, actions[i].target, i, j);
  }
}

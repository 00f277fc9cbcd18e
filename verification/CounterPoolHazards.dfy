/** Why hypothesis H4 is needed: a handle released twice puts its counter into the free queue twice. */
module CounterPoolHazards {
  import opened Prelude
  import Runs
  import opened CounterPool

  /** A step of the code; a strict step also respects H4. */
  ghost predicate Step(strict: bool, s: State, a: Action, q: State) {
    Enabled(s, a) && (strict ==> Disciplined(s, a)) && q == Do(s, a)
  }

  ghost function Steps(strict: bool): (State, Action, State) -> bool {
    (s, a, q) => Step(strict, s, a, q)
  }

  /** The code can get from s to q. */
  ghost predicate Reaches(strict: bool, s: State, q: State) {
    Runs.Connected(Steps(strict), s, q)
  }

  lemma Here(strict: bool, s: State)
    ensures Reaches(strict, s, s)
  {
    Runs.ConnectedToItself(Steps(strict), s);
  }

  lemma OneStep(strict: bool, o: State, s: State, a: Action) returns (q: State)
    requires Reaches(strict, o, s) && Enabled(s, a) && (strict ==> Disciplined(s, a))
    ensures Reaches(strict, o, q) && q == Do(s, a)
  {
    q := Do(s, a);
    Runs.ConnectedByStep(Steps(strict), o, s, a, q);
  }

  /** A release that is on target, or has none. */
  predicate OnTarget(s: State, h: nat, target: Option<int>) {
    h < |s.index| && s.index[h] < |s.counts| && (target.Some? ==> s.counts[s.index[h]] == target.value)
  }

  /** Thread t, which has begun to release handle h, goes through with it. */
  lemma ReleaseSteps(o: State, s: State, t: nat, h: nat, target: Option<int>) returns (q: State)
    requires Reaches(false, o, s) && Shape(s) && t < |s.pc| && s.pc[t] == Look(h, target) && OnTarget(s, h, target)
    ensures Reaches(false, o, q) && Shape(q)
    ensures q.pc == s.pc[t := Resting] && q.free == s.free + [s.index[h]] && q.index == s.index && q.counts == s.counts
  {
    hide Reaches;
    q := LookAndLoad(o, s, t, h, target);
    q := OneStep(false, o, q, Advance(t, 0));
    q := OneStep(false, o, q, Advance(t, 0));
    assert q.pc == s.pc[t := Resting];
  }

  lemma LookAndLoad(o: State, s: State, t: nat, h: nat, target: Option<int>) returns (q: State)
    requires Reaches(false, o, s) && Shape(s) && t < |s.pc| && s.pc[t] == Look(h, target) && OnTarget(s, h, target)
    ensures Reaches(false, o, q) && Shape(q) && q == s.(pc := s.pc[t := AfterLoad(h, s.index[h], target, s.counts[s.index[h]])]) && q.pc[t].Drop?
  {
    hide Reaches;
    q := OneStep(false, o, s, Advance(t, 0));
    q := OneStep(false, o, q, Advance(t, 0));
    assert q.pc == s.pc[t := AfterLoad(h, s.index[h], target, s.counts[s.index[h]])];
  }

  /** From every state in which counter c is bound to handle h and nobody works on h, a second
      release of h begun before the first is over, each of them on target, puts c into the free
      queue twice: the next two acquisitions get the same counter. */
  lemma SecondReleaseDuplicates(s: State, t: nat, u: nat, h: nat, c: nat, target: Option<int>) returns (q: State)
    requires Shape(s) && t < |s.pc| && u < |s.pc| && t != u && s.pc[t].Resting? && s.pc[u].Resting?
    requires c < |s.counts| && HasRole(s, c, BoundTo(h)) && OnTarget(s, h, target)
    requires forall v: nat :: v < |s.pc| ==> !WorksOn(s.pc[v], h)
    ensures Enabled(s, BeginRelease(t, h, target)) && Disciplined(s, BeginRelease(t, h, target))
    ensures Reaches(false, s, q) && q.free == s.free + [c, c] && !HasOneRole(q, c)
  {
    Here(false, s);
    q := OneStep(false, s, s, BeginRelease(t, h, target));
    q := OneStep(false, s, q, BeginRelease(u, h, target));
    hide Reaches;
    q := ReleaseSteps(s, q, t, h, target);
    q := ReleaseSteps(s, q, u, h, target);
    var k := |s.free|;
    assert HasRole(q, c, Queued(k)) && HasRole(q, c, Queued(k + 1));
  }

  /** Thread 0 takes counter 0 off the free queue and resets it. */
  lemma TakeSteps(o: State) returns (s: State)
    requires Init(o) && |o.pc| >= 1 && |o.counts| >= 1
    ensures Reaches(true, o, s) && Shape(s) && |s.pc| == |o.pc| && |s.counts| == |o.counts|
    ensures s.pc == o.pc[0 := NeedHandle(0)] && s.counts[0] == 0 && !s.alive[0]
  {
    Here(true, o);
    hide Reaches;
    s := OneStep(true, o, o, BeginAcquire(0));
    s := OneStep(true, o, s, Advance(0, 0));
  }

  /** It then takes handle 0 and binds it. */
  lemma BindSteps(o: State, s: State) returns (q: State)
    requires Reaches(true, o, s) && Shape(s) && |s.pc| >= 1 && |s.counts| >= 1 && s.pc[0] == NeedHandle(0) && !s.alive[0]
    ensures Reaches(true, o, q) && Shape(q) && q.pc == s.pc[0 := Resting] && q.counts == s.counts
    ensures q.alive[0] && q.index[0] == 0
  {
    hide Reaches;
    q := OneStep(true, o, s, Advance(0, 0));
    q := OneStep(true, o, q, Advance(0, 0));
    assert q.pc == s.pc[0 := Resting];
  }

  /** Such a state is reached by a disciplined run: thread 0 acquires counter 0 with handle 0. */
  lemma BoundIsReachable(o: State) returns (s: State)
    requires Init(o) && |o.pc| >= 2 && |o.counts| >= 1
    ensures Reaches(true, o, s) && Shape(s) && |s.pc| == |o.pc| && |s.counts| == |o.counts|
    ensures HasRole(s, 0, BoundTo(0)) && s.counts[0] == 0 && forall v: nat :: v < |s.pc| ==> s.pc[v].Resting?
  {
    hide Reaches;
    s := TakeSteps(o);
    s := BindSteps(o, s);
  }

  /** So without H4 a counter index can be in two places. */
  lemma WithoutH4CounterIsDuplicated(o: State) returns (s: State, q: State)
    requires Init(o) && |o.pc| >= 2 && |o.counts| >= 1
    ensures Reaches(true, o, s) && Reaches(false, s, q) && !HasOneRole(q, 0)
  {
    hide Reaches, HasOneRole, Init;
    s := BoundIsReachable(o);
    q := SecondReleaseDuplicates(s, 0, 1, 0, 0, Some(0));
  }
}

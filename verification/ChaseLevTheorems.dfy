/** What the deque promises in every state of every interleaving of owner and stealers. */
module ChaseLevTheorems {
  import opened Prelude
  import opened Arithmetic
  import opened Rings
  import opened ChaseLev
  import opened ChaseLevInv

  // ----- runs ------------------------------------------------------------------------------------------

  ghost predicate CanRun<T>(s: State<T>, actions: seq<Action<T>>)
    decreases |actions|
  {
    actions != [] ==> Enabled(s, actions[0]) && CanRun(Do(s, actions[0]), actions[1..])
  }

  ghost function Run<T>(s: State<T>, actions: seq<Action<T>>): State<T>
    requires CanRun(s, actions)
    decreases |actions|
  {
    if actions == [] then s else Run(Do(s, actions[0]), actions[1..])
  }

  lemma {:induction false} RunInv<T>(s: State<T>, actions: seq<Action<T>>)
    requires Inv(s) && CanRun(s, actions)
    ensures Inv(Run(s, actions))
    decreases |actions|
  {
    if actions != [] {
      StepInv(s, actions[0]);
      RunInv(Do(s, actions[0]), actions[1..]);
    }
  }

  /** No guard blocks: whoever is inside an operation can take its next step. */
  lemma NeverStuck<T>(s: State<T>, filler: T)
    requires Inv(s)
    ensures !s.owner.Calm? ==> exists segment: seq<T> :: Enabled(s, Owner(segment))
    ensures forall k: nat :: k < |s.pc| && !s.pc[k].Rest? ==> Enabled(s, Thief(k))
  {
    if s.owner.PushGrow? {
      assert Enabled(s, Owner(seq(Pow2(s.log[s.cur] + 1), _ => filler)));
    } else if s.owner.PopShrink? {
      assert s.log[s.cur] > 0;
      assert Enabled(s, Owner(seq(Pow2(s.log[s.cur] - 1), _ => filler)));
    } else if !s.owner.Calm? {
      var segment: seq<T> := [];
      assert Enabled(s, Owner(segment));
    }
    forall k: nat | k < |s.pc| && !s.pc[k].Rest? ensures Enabled(s, Thief(k)) { assert ThiefOk(s, k); }
  }

  // ----- refinement of a sequence --------------------------------------------------------------------------

  /** The deque's elements, front first. */
  ghost function Live<T>(s: State<T>): seq<T>
    requires s.top <= |s.items|
  {
    s.items[s.top..]
  }

  datatype Effect<T> = Nothing | Appended(x: T) | TookFront(x: T) | TookBack(x: T)

  /** The effect of an action, read off the code: the store of bottom that ends a push, the
      owner's decision to take the last element, and the won CAS on top. */
  ghost function EffectOf<T>(s: State<T>, a: Action<T>): Effect<T>
    requires Inv(s) && Enabled(s, a)
  {
    match a
    case Owner(_) =>
      (match s.owner
       case PushStore(x) => Appended(x)
       case PopTop =>
         var b := s.bottom + 1;
         if b - s.top > 1 then TookBack(At(s.slots[s.cur], b - 1)) else Nothing
       case PopCas(seen) => if s.top == seen then TookBack(At(s.slots[s.cur], seen)) else Nothing
       case _ => Nothing)
    case Thief(k) =>
      if s.pc[k].StealCas? && s.pc[k].t == s.top then
        assert ThiefOk(s, k);
        TookFront(At(s.slots[s.pc[k].buf], s.top))
      else Nothing
    case _ => Nothing
  }

  /** How the effect shows in the sequence of elements. */
  ghost predicate Shows<T>(e: Effect<T>, q: seq<T>, q': seq<T>) {
    match e
    case Nothing => q' == q
    case Appended(x) => q' == q + [x]
    case TookFront(x) => q == [x] + q'
    case TookBack(x) => q == q' + [x]
  }

  /** Apart from the three steps that matter, the owner leaves the elements alone. */
  lemma OwnerQuiet<T>(s: State<T>, segment: seq<T>)
    requires Sized(s) && OwnerEnabled(s, segment)
    requires !s.owner.PushStore? && !s.owner.PopTop? && !s.owner.PopCas?
    ensures OwnerStep(s, segment).items == s.items && OwnerStep(s, segment).top == s.top
  {
  }

  lemma OwnerTakes<T>(s: State<T>, segment: seq<T>)
    requires Sized(s) && OwnerOk(s) && ContentOk(s) && OwnerEnabled(s, segment) && (s.owner.PopTop? || s.owner.PopCas?)
    ensures
      var b, s' := s.bottom + 1, OwnerStep(s, segment);
      if s.owner.PopTop? then
        if b - s.top > 1 then
          s'.top == s.top && s'.items == s.items[..b - 1] && b == |s.items| && s.items[b - 1] == At(s.slots[s.cur], b - 1)
        else s'.top == s.top && s'.items == s.items
      else if s.top == s.owner.seen then
        s'.top == s.top + 1 == |s.items| && s'.items == s.items && s.items[s.top] == At(s.slots[s.cur], s.top)
      else s'.top == s.top && s'.items == s.items
  {
  }

  lemma OwnerEffect<T>(s: State<T>, segment: seq<T>)
    requires Inv(s) && OwnerEnabled(s, segment) && OwnerStep(s, segment).top <= |OwnerStep(s, segment).items|
    ensures Shows(EffectOf(s, Owner(segment)), Live(s), Live(OwnerStep(s, segment)))
  {
    if s.owner.PopTop? || s.owner.PopCas? {
      OwnerTakes(s, segment);
    } else if !s.owner.PushStore? {
      OwnerQuiet(s, segment);
    } else {
      assert OwnerStep(s, segment) == StoreBottom(s, s.owner.x);
    }
  }

  lemma ThiefEffect<T>(s: State<T>, k: nat)
    requires Inv(s) && ThiefEnabled(s, k) && Inv(ThiefStep(s, k))
    ensures Shows(EffectOf(s, Thief(k)), Live(s), Live(ThiefStep(s, k)))
  {
    assert ThiefOk(s, k);
  }

  /** Push appends, pop removes the back, a steal removes the front, each at one moment; the
      value is what the slot in the operation's buffer holds at that moment.  A steal reads the
      slot only later, see below.  Nothing else changes the deque: growing, shrinking and
      reclaiming preserve its meaning. */
  lemma StepRefinesSequence<T>(s: State<T>, a: Action<T>)
    requires Inv(s) && Enabled(s, a)
    ensures Inv(Do(s, a)) && Shows(EffectOf(s, a), Live(s), Live(Do(s, a)))
  {
    StepInv(s, a);
    match a {
      case Owner(segment) => OwnerEffect(s, segment);
      case Thief(k) => ThiefEffect(s, k);
      case _ =>
    }
  }

  function Given<T>(e: Effect<T>): multiset<T> {
    if e.Appended? then multiset{e.x} else multiset{}
  }

  function Got<T>(e: Effect<T>): multiset<T> {
    if e.TookFront? || e.TookBack? then multiset{e.x} else multiset{}
  }

  /** All elements pushed, respectively taken, along a run. */
  ghost function Totals<T>(s: State<T>, actions: seq<Action<T>>): (multiset<T>, multiset<T>)
    requires Inv(s) && CanRun(s, actions)
    decreases |actions|
  {
    if actions == [] then (multiset{}, multiset{}) else
      StepInv(s, actions[0]);
      var e := EffectOf(s, actions[0]);
      var (p, t) := Totals(Do(s, actions[0]), actions[1..]);
      (p + Given(e), t + Got(e))
  }

  lemma EffectBalances<T>(e: Effect<T>, q: seq<T>, q': seq<T>)
    requires Shows(e, q, q')
    ensures multiset(q) + Given(e) == multiset(q') + Got(e)
  {
  }

  lemma Regroup<T>(a: multiset<T>, b: multiset<T>, c: multiset<T>, g: multiset<T>, t: multiset<T>, p: multiset<T>, r: multiset<T>)
    requires a + g == b + t && b + p == r + c
    ensures a + (p + g) == (r + t) + c
  {
    calc {
      a + (p + g);
      (a + g) + p;
      (b + t) + p;
      (b + p) + t;
      (r + c) + t;
      (r + t) + c;
    }
  }

  /** Every element is taken at most once and none disappears: over any run, what was there
      plus what was pushed is what was taken plus what is still there. */
  lemma {:induction false} Conservation<T>(s: State<T>, actions: seq<Action<T>>)
    requires Inv(s) && CanRun(s, actions)
    ensures Inv(Run(s, actions))
    ensures multiset(Live(s)) + Totals(s, actions).0 == Totals(s, actions).1 + multiset(Live(Run(s, actions)))
    decreases |actions|
  {
    if actions != [] {
      var s' := Do(s, actions[0]);
      StepRefinesSequence(s, actions[0]);
      Conservation(s', actions[1..]);
      var e := EffectOf(s, actions[0]);
      EffectBalances(e, Live(s), Live(s'));
      var (p, t) := Totals(s', actions[1..]);
      Regroup(multiset(Live(s)), multiset(Live(s')), multiset(Live(Run(s, actions))), Given(e), Got(e), p, t);
    }
  }

  // ----- capacity ----------------------------------------------------------------------------------------------

  /** The deque keeps one slot spare, live indices have distinct slots, and the capacity is a
      power of two that never falls below the initial one. */
  lemma CapacityBounds<T>(s: State<T>, i: nat, j: nat)
    requires Inv(s)
    ensures |Live(s)| <= Capacity(s) - 1
    ensures Pow2(s.logInit) <= Capacity(s) == Pow2(s.log[s.cur])
    ensures s.top <= i < j < |s.items| ==> i % Capacity(s) != j % Capacity(s)
  {
    Pow2Mono(s.logInit, s.log[s.cur]);
    if s.top <= i < j < |s.items| && i % Capacity(s) == j % Capacity(s) {
      SameRemainder(i, j, Capacity(s));
    }
  }

  // ----- reclamation --------------------------------------------------------------------------------------------

  /** A buffer that a stealer has loaded and may still read is not deleted, even if the stealer
      registered or began its steal while the reclaimer was scanning. */
  lemma HeldBufferIsNotDeleted<T>(s: State<T>, k: nat, b: nat)
    requires Inv(s) && k < |s.pc| && Holds(s.pc[k], b)
    ensures b < |s.frees| && s.frees[b] == 0
  {
    assert ThiefOk(s, k);
    assert s.frees[b] == if b < Front(s) then 1 else 0;
  }

  /** Buffer b has been deleted at most once; if it has not, it is the current one or links to
      the next id; nobody who may still read it finds it deleted. */
  ghost predicate BufferSafe<T>(s: State<T>, b: nat)
    requires Sized(s) && b <= s.cur
  {
    && s.frees[b] <= 1
    && (b == s.cur ==> s.frees[b] == 0)
    && (s.frees[b] == 0 && b < s.cur ==> s.next[b] == Some(b + 1) && s.frees[b + 1] == 0 && s.unlinked.Some? && s.unlinked.value <= b)
    && (forall k: nat :: k < |s.pc| && Holds(s.pc[k], b) ==> s.frees[b] == 0)
  }

  /** The reclaim loop is at an undeleted buffer and, if it goes on, that buffer has a successor. */
  ghost predicate LoopSafe<T>(s: State<T>)
    requires Sized(s)
  {
    s.owner.Reclaim? ==>
      && s.unlinked.Some? && s.frees[s.unlinked.value] == 0
      && (s.unlinked.value < s.owner.min ==> s.unlinked.value < s.cur && s.next[s.unlinked.value].Some?)
  }

  /** In every state of every run from the start: no buffer is deleted twice, the current one not
      at all, none that a stealer may still read; the undeleted ones are a chain of consecutive
      ids from `unlinked` to the current one, and the reclaim loop stops before its end. */
  lemma ReclamationIsSafe<T>(s: State<T>, actions: seq<Action<T>>)
    requires Init(s) && CanRun(s, actions)
    ensures
      var q := Run(s, actions);
      Sized(q) && LoopSafe(q) && forall b: nat :: b <= q.cur ==> BufferSafe(q, b)
  {
    InitInv(s);
    RunInv(s, actions);
    var q := Run(s, actions);
    forall b: nat | b <= q.cur ensures BufferSafe(q, b) {
      forall k: nat | k < |q.pc| && Holds(q.pc[k], b) ensures q.frees[b] == 0 { HeldBufferIsNotDeleted(q, k, b); }
    }
  }

  /** ~Deque: delete the chain from unlinked up to the current buffer, then that buffer. */
  method Destroy<T>(s: State<T>) returns (frees: seq<nat>)
    requires Inv(s) && s.owner.Calm?
    ensures |frees| == s.cur + 1 && forall b :: 0 <= b < |frees| ==> frees[b] == 1
  {
    frees := s.frees;
    var unlinked := s.unlinked;
    while unlinked.Some? && unlinked.value != s.cur
      invariant |frees| == s.cur + 1
      invariant unlinked.Some? ==> unlinked.value <= s.cur
      invariant unlinked.None? ==> s.cur == 0
      invariant forall b :: 0 <= b < |frees| ==>
        frees[b] == if b < (if unlinked.Some? then unlinked.value else 0) then 1 else 0
      decreases if unlinked.Some? then s.cur - unlinked.value else 0
    {
      var reclaimed := unlinked.value;
      unlinked := s.next[reclaimed];
      frees := frees[reclaimed := frees[reclaimed] + 1];
    }
    frees := frees[s.cur := frees[s.cur] + 1];
  }

  // ----- reading the slot after the CAS ---------------------------------------------------------------------------

  /** A thief reads the element it claimed, unless a push has since written another value over
      that slot of that buffer; then it reads what the last such push wrote. */
  lemma DelayedReadIsExact<T>(s: State<T>, k: nat)
    requires Inv(s) && k < |s.pc| && s.pc[k].StealRead?
    ensures
      var c := s.pc[k].claim;
      && c.buf < |s.slots|
      && (At(s.slots[c.buf], c.t) == c.elem <==> c.over.None? || c.over == Some(c.elem))
  {
    assert ThiefOk(s, k);
  }

  /** Only a push that loaded a top at least two past the claimed index can do that, and only
      into the buffer the claim refers to. */
  lemma OverwriteNeedsTwoMoreSteals<T>(s: State<T>, a: Action<T>, k: nat)
    requires Inv(s) && Enabled(s, a) && k < |s.pc| && s.pc[k].StealRead?
    requires Do(s, a).pc[k].StealRead? && Do(s, a).pc[k] != s.pc[k]
    ensures a.Owner? && s.owner.PushPut? && s.pc[k].claim.buf == s.cur
    ensures s.owner.seen >= s.pc[k].claim.t + 2
  {
    assert ThiefOk(s, k);
    SameRemainder(s.pc[k].claim.t, s.bottom, Capacity(s));
  }

  /** Taking the CAS and the read as one step gives full value refinement: right after the CAS
      the slot holds the claimed element, which was the front of the deque. */
  lemma ImmediateReadIsRight<T>(s: State<T>, k: nat)
    requires Inv(s) && k < |s.pc| && s.pc[k].StealCas? && s.pc[k].t == s.top
    ensures Live(s) != [] && s.pc[k].buf < |s.slots|
    ensures
      var s' := Steal(s, k, s.pc[k].buf);
      && s'.pc[k] == StealRead(Claim(s.top, s.pc[k].buf, Live(s)[0], None))
      && At(s'.slots[s.pc[k].buf], s.top) == Live(s)[0]
  {
    assert ThiefOk(s, k);
  }

  /** Along the run no push that loaded a top of `top` or more writes into buffer buf, and thief k
      takes no step. */
  ghost predicate Undisturbed<T>(s: State<T>, actions: seq<Action<T>>, k: nat, buf: nat, top: nat)
    requires CanRun(s, actions)
    decreases |actions|
  {
    actions != [] ==>
      && actions[0] != Thief(k)
      && !(actions[0].Owner? && s.owner.PushPut? && s.cur == buf && s.owner.seen >= top)
      && Undisturbed(Do(s, actions[0]), actions[1..], k, buf, top)
  }

  /** A thief about to read keeps its claim through a step of another thread, unless a late push
      writes over the slot. */
  lemma ClaimKept<T>(s: State<T>, a: Action<T>, k: nat)
    requires Inv(s) && Enabled(s, a) && k < |s.pc| && s.pc[k].StealRead? && a != Thief(k)
    requires !(a.Owner? && s.owner.PushPut? && s.cur == s.pc[k].claim.buf && s.owner.seen >= s.pc[k].claim.t + 2)
    ensures k < |Do(s, a).pc| && Do(s, a).pc[k] == s.pc[k]
  {
    if k < |Do(s, a).pc| && Do(s, a).pc[k].StealRead? && Do(s, a).pc[k] != s.pc[k] {
      OverwriteNeedsTwoMoreSteals(s, a, k);
    }
  }

  lemma {:induction false} ClaimKeptAlong<T>(s: State<T>, actions: seq<Action<T>>, k: nat)
    requires Inv(s) && CanRun(s, actions) && k < |s.pc| && s.pc[k].StealRead?
    requires Undisturbed(s, actions, k, s.pc[k].claim.buf, s.pc[k].claim.t + 2)
    ensures k < |Run(s, actions).pc| && Run(s, actions).pc[k] == s.pc[k]
    decreases |actions|
  {
    if actions != [] {
      ClaimKept(s, actions[0], k);
      StepInv(s, actions[0]);
      ClaimKeptAlong(Do(s, actions[0]), actions[1..], k);
    }
  }

  /** From the won CAS of a steal to its read: the read yields the element that was the front of the
      deque at the CAS, however long it takes, as long as no push into that buffer that loaded a
      top at least two past the claimed index comes in between. */
  lemma LateReadIsRight<T>(s: State<T>, k: nat, actions: seq<Action<T>>)
    requires Inv(s) && k < |s.pc| && s.pc[k].StealCas? && s.pc[k].t == s.top && ThiefEnabled(s, k)
    requires CanRun(ThiefStep(s, k), actions) && Undisturbed(ThiefStep(s, k), actions, k, s.pc[k].buf, s.top + 2)
    ensures Live(s) != []
    ensures
      var q := Run(ThiefStep(s, k), actions);
      && Sized(q) && k < |q.pc| && q.pc[k].StealRead? && q.pc[k].claim.buf == s.pc[k].buf < |q.slots| && q.pc[k].claim.t == s.top
      && At(q.slots[s.pc[k].buf], s.top) == Live(s)[0]
  {
    ImmediateReadIsRight(s, k);
    StepInv(s, Thief(k));
    var m := ThiefStep(s, k);
    ClaimKeptAlong(m, actions, k);
    RunInv(m, actions);
    DelayedReadIsExact(Run(m, actions), k);
  }

  // ----- the delayed read can miss ------------------------------------------------------------------------------------

  lemma {:induction false} RunAppend<T>(s: State<T>, a: seq<Action<T>>, b: seq<Action<T>>)
    requires CanRun(s, a) && CanRun(Run(s, a), b)
    ensures CanRun(s, a + b) && Run(s, a + b) == Run(Run(s, a), b)
    decreases |a|
  {
    hide Do, Enabled;
    if a == [] {
      assert a + b == b;
    } else {
      assert (a + b)[0] == a[0] && (a + b)[1..] == a[1..] + b;
      RunAppend(Do(s, a[0]), a[1..], b);
    }
  }

  lemma RunOne<T>(s: State<T>, a: Action<T>)
    requires Enabled(s, a)
    ensures CanRun(s, [a]) && Run(s, [a]) == Do(s, a)
  {
    assert Run(Do(s, a), [a][1..]) == Do(s, a);
  }

  /** Extending a run by one action. */
  lemma Extend<T>(s: State<T>, a: seq<Action<T>>, b: Action<T>) returns (r: seq<Action<T>>)
    requires CanRun(s, a) && Enabled(Run(s, a), b)
    ensures CanRun(s, r) && Run(s, r) == Do(Run(s, a), b)
  {
    RunOne(Run(s, a), b);
    RunAppend(s, a, [b]);
    r := a + [b];
  }

  /** The owner's put of a push that needs neither growing nor reclaiming. */
  lemma PushUpToPut<T>(s: State<T>, a: seq<Action<T>>, x: T) returns (r: seq<Action<T>>)
    requires CanRun(s, a)
    requires
      var q := Run(s, a);
      Sized(q) && q.owner.Calm? && q.unlinked.None? && 0 <= q.bottom - q.top < Capacity(q) - 1
    ensures CanRun(s, r) && Run(s, r) == PutSlot(Run(s, a), x, Run(s, a).bottom)
  {
    var q := Run(s, a);
    var none: seq<T> := [];
    r := Extend(s, a, Push(x));
    r := Extend(s, r, Owner(none));
    assert Run(s, r) == q.(owner := PushPut(x, q.top));
    r := Extend(s, r, Owner(none));
  }

  lemma WholePush<T>(s: State<T>, a: seq<Action<T>>, x: T) returns (r: seq<Action<T>>)
    requires CanRun(s, a)
    requires
      var q := Run(s, a);
      Sized(q) && q.owner.Calm? && q.unlinked.None? && 0 <= q.bottom - q.top < Capacity(q) - 1
    ensures CanRun(s, r) && Run(s, r) == StoreBottom(PutSlot(Run(s, a), x, Run(s, a).bottom), x)
  {
    var none: seq<T> := [];
    r := PushUpToPut(s, a, x);
    var q := PutSlot(Run(s, a), x, Run(s, a).bottom);
    assert forall k: nat :: k < |q.slots| ==> |q.slots[k]| == |Run(s, a).slots[k]|;
    r := Extend(s, r, Owner(none));
  }

  /** A thief that looks at a deque that is not empty, up to its CAS. */
  lemma ReachCas<T>(s: State<T>, a: seq<Action<T>>, k: nat) returns (r: seq<Action<T>>)
    requires CanRun(s, a)
    requires
      var q := Run(s, a);
      Sized(q) && k < |q.pc| && q.pc[k].Rest? && q.top < q.bottom
    ensures
      var q := Run(s, a);
      && CanRun(s, r)
      && Run(s, r) == q.(idle := q.idle[k := false], stolen := q.stolen[k := Unanswered], pc := q.pc[k := StealCas(q.top, q.cur)])
  {
    var q := Run(s, a);
    var i, e := q.idle[k := false], q.stolen[k := Unanswered];
    r := Extend(s, a, BeginSteal(k));
    r := Extend(s, r, Thief(k));
    assert Run(s, r) == q.(idle := i, stolen := e, pc := q.pc[k := StealBottom(q.top)]);
    r := Extend(s, r, Thief(k));
    assert Run(s, r) == q.(idle := i, stolen := e, pc := q.pc[k := StealBuffer(q.top)]);
    r := Extend(s, r, Thief(k));
  }

  /** A thief that wins its CAS undisturbed, up to the point where it is about to read. */
  lemma ClaimFront<T>(s: State<T>, a: seq<Action<T>>, k: nat) returns (r: seq<Action<T>>)
    requires CanRun(s, a)
    requires
      var q := Run(s, a);
      Sized(q) && k < |q.pc| && q.pc[k].Rest? && q.top < q.bottom <= |q.items|
    ensures
      var q := Run(s, a);
      && CanRun(s, r)
      && Run(s, r) == q.(top := q.top + 1, idle := q.idle[k := false], stolen := q.stolen[k := Unanswered],
                         pc := q.pc[k := StealRead(Claim(q.top, q.cur, q.items[q.top], None))])
  {
    r := ReachCas(s, a, k);
    r := Extend(s, r, Thief(k));
  }

  /** The deque of capacity two is empty again, but thief 0 has not yet read the x it claimed. */
  ghost predicate StalledThief<T>(q: State<T>, x: T) {
    && Sized(q) && q.owner.Calm? && q.unlinked.None? && q.cur == 0 && Capacity(q) == 2
    && q.top == 1 && q.bottom == 1 && |q.items| == 1
    && |q.pc| == 2 && q.pc[1].Rest? && q.pc[0] == StealRead(Claim(0, 0, x, None))
  }

  lemma StalledThiefRun<T>(s: State<T>, x: T) returns (r: seq<Action<T>>)
    requires Init(s) && s.logInit == 1
    ensures CanRun(s, r) && StalledThief(Run(s, r), x)
  {
    assert Pow2(1) == 2 * Pow2(0);
    r := Extend(s, [], Join);
    r := Extend(s, r, Join);
    r := WholePush(s, r, x);
    r := ClaimFront(s, r, 0);
  }

  /** A run on a deque of capacity two in which a thief that stalls between its CAS and its
      read finds, in place of the element x it claimed, the element z pushed later: meanwhile
      another thief took y and the owner's next push wrapped around to the claimed slot. */
  lemma DelayedReadCanMiss<T>(s: State<T>, x: T, y: T, z: T) returns (r: seq<Action<T>>)
    requires Init(s) && s.logInit == 1
    ensures CanRun(s, r) && Inv(Run(s, r)) && |Run(s, r).pc| == 2
    ensures
      var q := Run(s, r);
      && q.pc[0].StealRead? && q.pc[0].claim.elem == x
      && q.pc[0].claim.buf < |q.slots| && At(q.slots[q.pc[0].claim.buf], q.pc[0].claim.t) == z
  {
    hide Inv;
    r := StalledThiefRun(s, x);
    r := WholePush(s, r, y);
    r := ClaimFront(s, r, 1);
    r := PushUpToPut(s, r, z);
    InitInv(s);
    RunInv(s, r);
  }
}

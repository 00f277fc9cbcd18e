/** The inductive invariant of the Chase-Lev deque and its preservation by every step. */
module ChaseLevInv {
  import opened Prelude
  import opened Arithmetic
  import opened Rings
  import opened ChaseLev

  // ----- copying and wrapping ----------------------------------------------------------------------

  /** Copying does not disturb an index that is within the size of the new segment. */
  lemma {:induction false} CopyKeeps<T>(from: seq<T>, to: seq<T>, i: nat, b: nat, j: nat)
    requires |from| > 0 && |to| > 0 && j < i && b - j <= |to|
    ensures At(Copy(from, to, i, b), j) == At(to, j)
    decreases b - i
  {
    if i < b {
      CopyKeeps(from, Put(to, i, At(from, i)), i + 1, b, j);
      PutElsewhere(to, i, j, At(from, i));
    }
  }

  /** resize keeps the element of every copied index, whatever the two sizes are, as long as
      the new segment is large enough for the range. */
  lemma {:induction false} CopyGets<T>(from: seq<T>, to: seq<T>, i: nat, b: nat, j: nat)
    requires |from| > 0 && |to| > 0 && i <= j < b && b - i <= |to|
    ensures At(Copy(from, to, i, b), j) == At(from, j)
    decreases b - i
  {
    var to' := Put(to, i, At(from, i));
    if i == j {
      CopyKeeps(from, to', i + 1, b, j);
    } else {
      CopyGets(from, to', i + 1, b, j);
    }
  }

  // ----- the invariant -----------------------------------------------------------------------------

  /** Room and position of the logical bottom |items|, by control point of the owner. */
  ghost predicate OwnerOk<T>(s: State<T>)
    requires Sized(s)
  {
    var n, cap := |s.items|, Capacity(s);
    && s.top <= n < s.top + cap
    && s.logInit <= s.log[s.cur]
    && match s.owner
       case Calm => s.bottom == n
       case PushTop(_) => s.bottom == n
       case PushGrow(_, seen) => s.bottom == n && seen <= s.top && n - seen == cap - 1
       case PushPut(_, seen) => s.bottom == n && seen <= s.top && n - seen <= cap - 2
       case PushStore(x) => s.bottom == n && n - s.top <= cap - 2 && At(s.slots[s.cur], n) == x
       case PopTop => s.bottom == n - 1
       case PopCas(seen) => s.bottom == n - 1 && seen == n - 1 && seen <= s.top
       case PopRestore => s.bottom == n - 1 && s.top == n
       case PopShrink(seen) => s.bottom == n && seen <= s.top && Pow2(s.logInit) < n + 1 - seen <= cap / 3
       case ScanIdle(_, _, k) => s.bottom == n && AfterOk(s, k)
       case ScanUsed(_, _, k) => s.bottom == n && AfterOk(s, k)
       case Reclaim(_, k) => s.bottom == n && AfterOk(s, k)
  }

  ghost predicate AfterOk<T>(s: State<T>, k: After<T>)
    requires Sized(s)
  {
    k.ThenPut? ==> k.seen <= s.top && |s.items| - k.seen <= Capacity(s) - 2
  }

  /** The current buffer holds every live element at its index. */
  ghost predicate ContentOk<T>(s: State<T>)
    requires Sized(s)
  {
    forall i: nat {:trigger s.items[i]} :: s.top <= i < |s.items| ==> At(s.slots[s.cur], i) == s.items[i]
  }

  function Front<T>(s: State<T>): nat {
    if s.unlinked.Some? then s.unlinked.value else 0
  }

  /** The undeleted buffers are a chain of consecutive ids from `unlinked` to the current one. */
  ghost predicate ChainOk<T>(s: State<T>)
    requires Sized(s)
  {
    && (s.unlinked.None? ==> s.cur == 0)
    && (forall k: nat :: k < |s.next| ==> s.next[k] == if k < s.cur then Some(k + 1) else None)
    && (forall k: nat :: k < |s.frees| ==> s.frees[k] == if k < Front(s) then 1 else 0)
  }

  /** The thief may still access the buffer. */
  predicate Holds<T>(pc: ThiefPc<T>, buf: nat) {
    (pc.StealCas? && pc.buf == buf) || (pc.StealRead? && pc.claim.buf == buf)
  }

  ghost predicate ThiefOk<T>(s: State<T>, k: nat)
    requires Sized(s) && k < |s.pc|
  {
    && s.used[k] <= s.cur
    && (s.idle[k] <==> s.pc[k].Rest? || s.pc[k].StealNote? || s.pc[k].StealStore?)
    && match s.pc[k]
       case StealBottom(t) => t <= s.top
       case StealBuffer(t) => t <= s.top && (t == s.top ==> t < |s.items|)
       case StealCas(t, buf) =>
         && t <= s.top && s.used[k] <= buf <= s.cur && Front(s) <= buf
         && (t == s.top ==> t < |s.items| && At(s.slots[buf], t) == s.items[t])
       case StealRead(c) =>
         && c.t < s.top && s.used[k] <= c.buf <= s.cur && Front(s) <= c.buf
         && At(s.slots[c.buf], c.t) == if c.over.None? then c.elem else c.over.value
       case StealStore(id) => s.used[k] <= id <= s.cur
       case _ => true
  }

  /** No stealer that was passed by the scan, or that registered since, holds a buffer below min. */
  ghost predicate ScanOk<T>(s: State<T>)
    requires Sized(s)
  {
    match s.owner
    case ScanIdle(left, min, _) => left <= |s.pc| && Guarded(s, left, min)
    case ScanUsed(left, min, _) => 0 < left <= |s.pc| && Guarded(s, left, min)
    case Reclaim(min, _) => Guarded(s, 0, min)
    case _ => true
  }

  ghost predicate Guarded<T>(s: State<T>, left: nat, min: nat) {
    && s.unlinked.Some? && min <= s.cur
    && forall k: nat, buf: nat :: left <= k < |s.pc| && Holds(s.pc[k], buf) ==> min <= buf
  }

  ghost predicate Inv<T>(s: State<T>) {
    && Sized(s) && OwnerOk(s) && ContentOk(s) && ChainOk(s) && ScanOk(s)
    && forall k: nat :: k < |s.pc| ==> ThiefOk(s, k)
  }

  lemma InitInv<T>(s: State<T>)
    requires Init(s)
    ensures Inv(s)
  {
  }

  // ----- thieves -------------------------------------------------------------------------------------

  /** A step of thief k that touches only its own registers. */
  ghost predicate ThiefMove<T>(s: State<T>, k: nat, s': State<T>) {
    && k < |s.pc| == |s.idle| == |s.used| == |s'.pc| == |s'.idle| == |s'.used|
    && |s.stolen| == |s.pc| == |s'.stolen|
    && s' == s.(pc := s.pc[k := s'.pc[k]], idle := s.idle[k := s'.idle[k]], used := s.used[k := s'.used[k]], stolen := s.stolen[k := s'.stolen[k]])
    && forall buf: nat :: Holds(s'.pc[k], buf) ==> Holds(s.pc[k], buf) || buf == s.cur
  }

  lemma ThiefMoveInv<T>(s: State<T>, k: nat, s': State<T>)
    requires Inv(s) && ThiefMove(s, k, s') && ThiefOk(s', k)
    ensures Inv(s')
  {
    forall j: nat | j < |s'.pc| ensures ThiefOk(s', j) { assert ThiefOk(s, j); }
  }

  lemma StealInv<T>(s: State<T>, k: nat, t: nat, buf: nat)
    requires Inv(s) && k < |s.pc| && s.pc[k] == StealCas(t, buf) && s.top == t && t < |s.items|
    ensures Inv(Steal(s, k, buf))
  {
    var s' := Steal(s, k, buf);
    assert ThiefOk(s, k);
    forall j: nat | j < |s'.pc| ensures ThiefOk(s', j) { assert ThiefOk(s, j); }
    assert forall j: nat, b: nat :: j < |s.pc| && Holds(s'.pc[j], b) ==> Holds(s.pc[j], b);
  }

  lemma RegisterInv<T>(s: State<T>)
    requires Inv(s)
    ensures Inv(Register(s))
  {
    var s' := Register(s);
    forall j: nat | j < |s'.pc| ensures ThiefOk(s', j) { if j < |s.pc| { assert ThiefOk(s, j); } }
  }

  // ----- owner ---------------------------------------------------------------------------------------

  /** A step of the owner that only moves its control point, and possibly bottom and its answer. */
  lemma OwnerMoveInv<T>(s: State<T>, s': State<T>)
    requires Inv(s) && s' == s.(owner := s'.owner, bottom := s'.bottom, popped := s'.popped)
    requires OwnerOk(s') && ScanOk(s')
    ensures Inv(s')
  {
    forall j: nat | j < |s'.pc| ensures ThiefOk(s', j) { assert ThiefOk(s, j); }
  }

  lemma ResizeInv<T>(s: State<T>, seen: nat, b: nat, newLog: nat, segment: seq<T>, k: After<T>)
    requires Inv(s) && seen <= s.top && |s.items| <= b && b - seen <= |segment| == Pow2(newLog)
    requires s.bottom == |s.items| && |s.items| < s.top + |segment| && s.logInit <= newLog
    requires k.ThenPut? ==> k.seen <= s.top && |s.items| - k.seen <= |segment| - 2
    ensures Inv(Resize(s, seen, b, newLog, segment, k))
  {
    var s' := Resize(s, seen, b, newLog, segment, k);
    forall i: nat | s'.top <= i < |s'.items| ensures At(s'.slots[s'.cur], i) == s'.items[i] {
      CopyGets(s.slots[s.cur], segment, seen, b, i);
    }
    forall j: nat | j < |s'.pc| ensures ThiefOk(s', j) { assert ThiefOk(s, j); }
  }

  lemma PutSlotInv<T>(s: State<T>, x: T, seen: nat)
    requires Inv(s) && s.owner == PushPut(x, seen)
    ensures Inv(PutSlot(s, x, s.bottom))
  {
    var b := s.bottom;
    var s' := PutSlot(s, x, b);
    forall i: nat | s.top <= i < b ensures At(s'.slots[s'.cur], i) == At(s.slots[s.cur], i) {
      PutElsewhere(s.slots[s.cur], b, i, x);
    }
    forall j: nat | j < |s'.pc| ensures ThiefOk(s', j) { assert ThiefOk(s, j); }
  }

  lemma StoreBottomInv<T>(s: State<T>, x: T)
    requires Inv(s) && s.owner == PushStore(x)
    ensures Inv(StoreBottom(s, x))
  {
    var s' := StoreBottom(s, x);
    forall j: nat | j < |s'.pc| ensures ThiefOk(s', j) { assert ThiefOk(s, j); }
  }

  lemma TakeLastInv<T>(s: State<T>, b: nat)
    requires Inv(s) && s.owner.PopTop? && b == s.bottom + 1 && b - s.top > 1
    ensures Inv(TakeLast(s, b))
  {
    var s' := TakeLast(s, b);
    forall j: nat | j < |s'.pc| ensures ThiefOk(s', j) { assert ThiefOk(s, j); }
  }

  lemma TakeOnlyInv<T>(s: State<T>)
    requires Inv(s) && s.owner == PopCas(s.top)
    ensures Inv(TakeOnly(s))
  {
    var s' := TakeOnly(s);
    forall j: nat | j < |s'.pc| ensures ThiefOk(s', j) { assert ThiefOk(s, j); }
  }

  lemma ReclaimInv<T>(s: State<T>, min: nat, k: After<T>)
    requires Inv(s) && s.owner == Reclaim(min, k) && s.unlinked.Some? && s.unlinked.value < min
    ensures
      var u := s.unlinked.value;
      Inv(s.(unlinked := s.next[u], frees := s.frees[u := s.frees[u] + 1]))
  {
    var u := s.unlinked.value;
    var s' := s.(unlinked := s.next[u], frees := s.frees[u := s.frees[u] + 1]);
    forall j: nat | j < |s'.pc| ensures ThiefOk(s', j) {
      assert ThiefOk(s, j);
      if s.pc[j].StealCas? { assert Holds(s.pc[j], s.pc[j].buf); }
      if s.pc[j].StealRead? { assert Holds(s.pc[j], s.pc[j].claim.buf); }
    }
  }

  // ----- every step ------------------------------------------------------------------------------------

  lemma PopTopInv<T>(s: State<T>)
    requires Inv(s) && s.owner.PopTop? && OwnerEnabled(s, [])
    ensures Inv(OwnerStep(s, []))
  {
    var b := s.bottom + 1;
    if b - s.top > 1 { TakeLastInv(s, b); } else { OwnerMoveInv(s, OwnerStep(s, [])); }
  }

  /** Growing doubles the capacity, shrinking halves it but never below the initial one. */
  lemma ShrinkInv<T>(s: State<T>, seen: nat, segment: seq<T>)
    requires Inv(s) && s.owner == PopShrink(seen) && OwnerEnabled(s, segment)
    ensures Inv(OwnerStep(s, segment))
  {
    Pow2Strict(s.logInit, s.log[s.cur]);
    ResizeInv(s, seen, s.bottom + 1, s.log[s.cur] - 1, segment, ThenReturn);
  }

  lemma PushStepInv<T>(s: State<T>, segment: seq<T>)
    requires Inv(s) && OwnerEnabled(s, segment)
    requires s.owner.PushTop? || s.owner.PushGrow? || s.owner.PushPut? || s.owner.PushStore?
    ensures Inv(OwnerStep(s, segment))
  {
    match s.owner {
      case PushTop(x) => OwnerMoveInv(s, LoadTopForPush(s, x));
      case PushGrow(x, seen) => ResizeInv(s, seen, s.bottom, s.log[s.cur] + 1, segment, ThenPut(x, seen));
      case PushPut(x, seen) => PutSlotInv(s, x, seen);
      case PushStore(x) => StoreBottomInv(s, x);
    }
  }

  lemma PopStepInv<T>(s: State<T>, segment: seq<T>)
    requires Inv(s) && OwnerEnabled(s, segment)
    requires s.owner.PopTop? || s.owner.PopCas? || s.owner.PopRestore? || s.owner.PopShrink?
    ensures Inv(OwnerStep(s, segment))
  {
    match s.owner {
      case PopTop => PopTopInv(s);
      case PopCas(seen) => if s.top == seen { TakeOnlyInv(s); } else { OwnerMoveInv(s, GiveUp(s)); }
      case PopRestore => OwnerMoveInv(s, s.(bottom := s.bottom + 1, owner := Calm));
      case PopShrink(seen) => ShrinkInv(s, seen, segment);
    }
  }

  lemma OwnerStepInv<T>(s: State<T>, segment: seq<T>)
    requires Inv(s) && OwnerEnabled(s, segment)
    ensures Inv(OwnerStep(s, segment))
  {
    match s.owner {
      case ScanIdle(left, min, k) => ScanIdleInv(s, left, min, k, segment);
      case ScanUsed(left, min, k) => ScanUsedInv(s, left, min, k, segment);
      case Reclaim(min, k) =>
        if s.unlinked.value < min { ReclaimInv(s, min, k); } else { OwnerMoveInv(s, s.(owner := Finish(k))); }
      case PushTop(_) => PushStepInv(s, segment);
      case PushGrow(_, _) => PushStepInv(s, segment);
      case PushPut(_, _) => PushStepInv(s, segment);
      case PushStore(_) => PushStepInv(s, segment);
      case _ => PopStepInv(s, segment);
    }
  }

  lemma ScanIdleInv<T>(s: State<T>, left: nat, min: nat, k: After<T>, segment: seq<T>)
    requires Inv(s) && s.owner == ScanIdle(left, min, k) && OwnerEnabled(s, segment)
    ensures Inv(OwnerStep(s, segment))
  {
    if left > 0 { assert ThiefOk(s, left - 1); }
    OwnerMoveInv(s, OwnerStep(s, segment));
  }

  lemma ScanUsedInv<T>(s: State<T>, left: nat, min: nat, k: After<T>, segment: seq<T>)
    requires Inv(s) && s.owner == ScanUsed(left, min, k) && OwnerEnabled(s, segment)
    ensures Inv(OwnerStep(s, segment))
  {
    assert ThiefOk(s, left - 1);
    OwnerMoveInv(s, OwnerStep(s, segment));
  }

  lemma ThiefStepOk<T>(s: State<T>, k: nat)
    requires Sized(s) && OwnerOk(s) && ContentOk(s) && ThiefEnabled(s, k) && ThiefOk(s, k)
    requires !(s.pc[k].StealCas? && s.pc[k].t == s.top) && Front(s) <= s.cur
    ensures ThiefOk(ThiefStep(s, k), k) && ThiefMove(s, k, ThiefStep(s, k))
  {
  }

  lemma ThiefStepInv<T>(s: State<T>, k: nat)
    requires Inv(s) && ThiefEnabled(s, k)
    ensures Inv(ThiefStep(s, k))
  {
    assert ThiefOk(s, k);
    if s.pc[k].StealCas? && s.pc[k].t == s.top {
      StealInv(s, k, s.top, s.pc[k].buf);
    } else {
      ThiefStepOk(s, k);
      ThiefMoveInv(s, k, ThiefStep(s, k));
    }
  }

  lemma StepInv<T>(s: State<T>, a: Action<T>)
    requires Inv(s) && Enabled(s, a)
    ensures Inv(Do(s, a))
  {
    match a {
      case Push(x) => OwnerMoveInv(s, s.(owner := PushTop(x)));
      case Pop => OwnerMoveInv(s, BeginPop(s));
      case Owner(segment) => OwnerStepInv(s, segment);
      case Join => RegisterInv(s);
      case BeginSteal(k) =>
        assert ThiefOk(s, k);
        ThiefMoveInv(s, k, Start(s, k));
      case Thief(k) => ThiefStepInv(s, k);
    }
  }
}

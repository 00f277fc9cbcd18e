/**
  The growing and shrinking Chase-Lev deque with its id-based reclamation of buffers, under
  every interleaving of the owner with any number of stealers that may register at any time.
  One action is one access to shared memory.

  A buffer is known by its id, which is its index: `resize` always creates id + 1.
  `items` and the parts `elem` and `over` of a thief's claim are history variables.
 */
module ChaseLev {
  import opened Prelude
  import opened Arithmetic
  import opened Rings

  /** What the owner does once reclaim_buffers is over. */
  datatype After<T> = ThenPut(x: T, seen: nat) | ThenReturn

  datatype OwnerPc<T> =
    | Calm
    | PushTop(x: T)                              // about to load top
    | PushGrow(x: T, seen: nat)                  // about to publish a buffer of twice the size
    | PushPut(x: T, seen: nat)                   // about to write the slot of bottom
    | PushStore(x: T)                            // about to store bottom + 1
    | PopTop                                     // bottom - 1 stored, about to load top
    | PopCas(seen: nat)                          // one element left, about to CAS top
    | PopRestore                                 // about to store bottom back
    | PopShrink(seen: nat)                       // about to publish a buffer of half the size
    | ScanIdle(left: nat, min: nat, k: After<T>) // about to load was_idle of stealer left - 1
    | ScanUsed(left: nat, min: nat, k: After<T>) // it was not idle: about to load its id_last_used
    | Reclaim(min: nat, k: After<T>)             // about to compare unlinked's id with min

  /** A won CAS: the buffer loaded before it, the element claimed, and the last value that a
      later push wrote over the claimed slot of that buffer, if any. */
  datatype Claim<T> = Claim(t: nat, buf: nat, elem: T, over: Option<T>)

  datatype ThiefPc<T> =
    | Rest
    | StealTop                          // was_idle cleared, about to load top
    | StealBottom(t: nat)
    | StealBuffer(t: nat)               // size > 0, about to load buffer
    | StealCas(t: nat, buf: nat)
    | StealRead(claim: Claim<T>)        // about to read the claimed slot
    | StealLeave                        // about to set was_idle
    | StealNote                         // about to load buffer and its id
    | StealStore(id: nat)               // about to store id_last_used

  /** What a pop or a steal returns. */
  datatype Answer<T> = Unanswered | Failed | Took(x: T)

  datatype State<T> = State(
    logInit: nat,
    top: nat,
    bottom: int,
    cur: nat,                    // id of the current buffer
    log: seq<nat>,               // per buffer
    slots: seq<seq<T>>,
    next: seq<Option<nat>>,
    frees: seq<nat>,             //   how often it was deleted
    unlinked: Option<nat>,
    owner: OwnerPc<T>,
    popped: Answer<T>,           // of the owner's latest pop
    pc: seq<ThiefPc<T>>,         // per stealer, in order of registration
    idle: seq<bool>,
    used: seq<nat>,
    stolen: seq<Answer<T>>,      //   of the stealer's latest steal
    items: seq<T>)               // history: element of every index below the logical bottom

  /** Buffer::resize: the copy loop over [i, b). */
  function Copy<T>(from: seq<T>, to: seq<T>, i: nat, b: nat): (r: seq<T>)
    requires |from| > 0 && |to| > 0
    ensures |r| == |to|
    decreases b - i
  {
    if i >= b then to else Copy(from, Put(to, i, At(from, i)), i + 1, b)
  }

  ghost predicate Sized<T>(s: State<T>) {
    && |s.log| == |s.slots| == |s.next| == |s.frees| == s.cur + 1
    && (forall k: nat :: k < |s.slots| ==> |s.slots[k]| == Pow2(s.log[k]))
    && (s.unlinked.Some? ==> s.unlinked.value <= s.cur)
    && |s.pc| == |s.idle| == |s.used| == |s.stolen|
  }

  function Capacity<T>(s: State<T>): nat
    requires s.cur < |s.slots|
  {
    |s.slots[s.cur]|
  }

  // ----- owner ---------------------------------------------------------------------------------

  /** The control point that follows a possible resize: reclaim first if anything is unlinked. */
  function Then<T>(s: State<T>, unlinked: Option<nat>, cur: nat, k: After<T>): OwnerPc<T> {
    if unlinked.Some? then ScanIdle(|s.pc|, cur, k) else Finish(k)
  }

  function Finish<T>(k: After<T>): OwnerPc<T> {
    match k
    case ThenPut(x, seen) => PushPut(x, seen)
    case ThenReturn => Calm
  }

  function LoadTopForPush<T>(s: State<T>, x: T): State<T>
    requires s.cur < |s.slots|
  {
    s.(owner := if s.bottom - s.top >= Capacity(s) - 1 then PushGrow(x, s.top)
                else Then(s, s.unlinked, s.cur, ThenPut(x, s.top)))
  }

  /** resize with delta +1 or -1 and the store to `buffer`; `segment` is the new segment before copying. */
  function Resize<T>(s: State<T>, seen: nat, b: nat, newLog: nat, segment: seq<T>, k: After<T>): State<T>
    requires s.cur < |s.slots| && |s.slots[s.cur]| > 0 && |segment| > 0 && |s.next| == s.cur + 1
  {
    var unlinked := if s.unlinked.Some? then s.unlinked else Some(s.cur);
    s.(unlinked := unlinked,
       cur := s.cur + 1,
       log := s.log + [newLog],
       slots := s.slots + [Copy(s.slots[s.cur], segment, seen, b)],
       next := s.next[s.cur := Some(s.cur + 1)] + [None],
       frees := s.frees + [0],
       owner := Then(s, unlinked, s.cur + 1, k))
  }

  /** A push writes over a claimed slot of the buffer the claim reads from. */
  function Overwrite<T>(pc: ThiefPc<T>, buf: nat, size: nat, i: nat, x: T): ThiefPc<T>
    requires size > 0
  {
    if pc.StealRead? && pc.claim.buf == buf && pc.claim.t % size == i % size
    then StealRead(pc.claim.(over := Some(x)))
    else pc
  }

  function PutSlot<T>(s: State<T>, x: T, b: nat): State<T>
    requires s.cur < |s.slots| && |s.slots[s.cur]| > 0
  {
    s.(slots := s.slots[s.cur := Put(s.slots[s.cur], b, x)],
       pc := seq(|s.pc|, k requires 0 <= k < |s.pc| => Overwrite(s.pc[k], s.cur, |s.slots[s.cur]|, b, x)),
       owner := PushStore(x))
  }

  function StoreBottom<T>(s: State<T>, x: T): State<T> {
    s.(bottom := s.bottom + 1, items := s.items + [x], owner := Calm)
  }

  function BeginPop<T>(s: State<T>): State<T> {
    s.(bottom := s.bottom - 1, owner := PopTop, popped := Unanswered)
  }

  /** More than one element: the last one is the owner's without a CAS. */
  function TakeLast<T>(s: State<T>, b: nat): State<T>
    requires 0 < b <= |s.items| && s.cur < |s.slots| && |s.slots[s.cur]| > 0
  {
    s.(items := s.items[..b - 1],
       popped := Took(At(s.slots[s.cur], b - 1)),
       owner := if b - s.top <= Capacity(s) / 3 && b - s.top > Pow2(s.logInit) then PopShrink(s.top)
                else Then(s, s.unlinked, s.cur, ThenReturn))
  }

  function TakeOnly<T>(s: State<T>): State<T>
    requires s.cur < |s.slots| && |s.slots[s.cur]| > 0
  {
    s.(top := s.top + 1, owner := PopRestore, popped := Took(At(s.slots[s.cur], s.top)))
  }

  /** The pop ends without an element. */
  function GiveUp<T>(s: State<T>): State<T> {
    s.(owner := PopRestore, popped := Failed)
  }

  // ----- thieves --------------------------------------------------------------------------------

  function Register<T>(s: State<T>): State<T> {
    s.(pc := s.pc + [Rest], idle := s.idle + [true], used := s.used + [0], stolen := s.stolen + [Unanswered])
  }

  function ThiefGoto<T>(s: State<T>, k: nat, pc: ThiefPc<T>): State<T>
    requires k < |s.pc|
  {
    s.(pc := s.pc[k := pc])
  }

  /** The steal is over, with this answer. */
  function Answered<T>(s: State<T>, k: nat, answer: Answer<T>): State<T>
    requires k < |s.pc| == |s.stolen|
  {
    s.(pc := s.pc[k := StealLeave], stolen := s.stolen[k := answer])
  }

  /** A steal begins. */
  function Start<T>(s: State<T>, k: nat): State<T>
    requires k < |s.pc| == |s.stolen| && |s.idle| == |s.pc|
  {
    s.(pc := s.pc[k := StealTop], idle := s.idle[k := false], stolen := s.stolen[k := Unanswered])
  }

  function SetIdle<T>(s: State<T>, k: nat, idle: bool, pc: ThiefPc<T>): State<T>
    requires k < |s.pc| == |s.idle|
  {
    s.(pc := s.pc[k := pc], idle := s.idle[k := idle])
  }

  /** The CAS on top succeeded. */
  function Steal<T>(s: State<T>, k: nat, buf: nat): State<T>
    requires k < |s.pc| && s.top < |s.items|
  {
    s.(top := s.top + 1,
       pc := s.pc[k := StealRead(Claim(s.top, buf, s.items[s.top], None))])
  }

  // ----- the transition system -------------------------------------------------------------------

  datatype Action<T> =
    | Push(x: T)
    | Pop
    | Owner(segment: seq<T>)     // the owner's next step; segment matters only when it resizes
    | Join
    | BeginSteal(k: nat)
    | Thief(k: nat)

  ghost predicate OwnerEnabled<T>(s: State<T>, segment: seq<T>)
    requires Sized(s)
  {
    match s.owner
    case Calm => false
    case PushGrow(_, _) => s.bottom >= 0 && |segment| == Pow2(s.log[s.cur] + 1)
    case PopShrink(_) => s.bottom >= 0 && s.log[s.cur] > 0 && |segment| == Pow2(s.log[s.cur] - 1)
    case PushPut(_, _) => s.bottom >= 0
    case PopTop => s.bottom + 1 <= |s.items| && (s.bottom + 1 - s.top > 0 ==> s.bottom + 1 > 0)
    case ScanIdle(left, _, _) => left <= |s.pc|
    case ScanUsed(left, _, _) => 0 < left <= |s.pc|
    case Reclaim(_, _) => s.unlinked.Some?
    case _ => true
  }

  ghost function OwnerStep<T>(s: State<T>, segment: seq<T>): State<T>
    requires Sized(s) && OwnerEnabled(s, segment)
  {
    match s.owner
    case PushTop(x) => LoadTopForPush(s, x)
    case PushGrow(x, seen) => Resize(s, seen, s.bottom, s.log[s.cur] + 1, segment, ThenPut(x, seen))
    case PushPut(x, _) => PutSlot(s, x, s.bottom)
    case PushStore(x) => StoreBottom(s, x)
    case PopTop =>
      var b := s.bottom + 1;
      if b - s.top <= 0 then GiveUp(s)
      else if b - s.top == 1 then s.(owner := PopCas(s.top))
      else TakeLast(s, b)
    case PopCas(seen) => if s.top == seen then TakeOnly(s) else GiveUp(s)
    case PopRestore => s.(bottom := s.bottom + 1, owner := Calm)
    case PopShrink(seen) => Resize(s, seen, s.bottom + 1, s.log[s.cur] - 1, segment, ThenReturn)
    case ScanIdle(left, min, k) =>
      if left == 0 then s.(owner := Reclaim(min, k))
      else if s.idle[left - 1] then s.(owner := ScanIdle(left - 1, min, k))
      else s.(owner := ScanUsed(left, min, k))
    case ScanUsed(left, min, k) =>
      s.(owner := ScanIdle(left - 1, if s.used[left - 1] < min then s.used[left - 1] else min, k))
    case Reclaim(min, k) =>
      var u := s.unlinked.value;
      if u < min then s.(unlinked := s.next[u], frees := s.frees[u := s.frees[u] + 1]) else s.(owner := Finish(k))
  }

  ghost predicate ThiefEnabled<T>(s: State<T>, k: nat) {
    && k < |s.pc| == |s.idle| && |s.idle| == |s.used| == |s.stolen| && !s.pc[k].Rest?
    && (s.pc[k].StealCas? && s.pc[k].t == s.top ==> s.top < |s.items|)
    && (s.pc[k].StealRead? ==> s.pc[k].claim.buf < |s.slots| && |s.slots[s.pc[k].claim.buf]| > 0)
  }

  ghost function ThiefStep<T>(s: State<T>, k: nat): State<T>
    requires ThiefEnabled(s, k)
  {
    match s.pc[k]
    case StealTop => ThiefGoto(s, k, StealBottom(s.top))
    case StealBottom(t) => if s.bottom - t > 0 then ThiefGoto(s, k, StealBuffer(t)) else Answered(s, k, Failed)
    case StealBuffer(t) => ThiefGoto(s, k, StealCas(t, s.cur))
    case StealCas(t, buf) => if s.top == t then Steal(s, k, buf) else Answered(s, k, Failed)
    case StealRead(c) => Answered(s, k, Took(At(s.slots[c.buf], c.t)))
    case StealLeave => SetIdle(s, k, true, StealNote)
    case StealNote => ThiefGoto(s, k, StealStore(s.cur))
    case StealStore(id) => s.(pc := s.pc[k := Rest], used := s.used[k := id])
  }

  ghost predicate Enabled<T>(s: State<T>, a: Action<T>) {
    && Sized(s)
    && match a
       case Push(_) => s.owner.Calm?
       case Pop => s.owner.Calm?
       case Owner(segment) => OwnerEnabled(s, segment)
       case Join => true
       case BeginSteal(k) => k < |s.pc| && s.pc[k].Rest?
       case Thief(k) => ThiefEnabled(s, k)
  }

  ghost function Do<T>(s: State<T>, a: Action<T>): State<T>
    requires Enabled(s, a)
  {
    match a
    case Push(x) => s.(owner := PushTop(x))
    case Pop => BeginPop(s)
    case Owner(segment) => OwnerStep(s, segment)
    case Join => Register(s)
    case BeginSteal(k) => Start(s, k)
    case Thief(k) => ThiefStep(s, k)
  }

  ghost predicate Init<T>(s: State<T>) {
    && Sized(s)
    && s.top == 0 && s.bottom == 0 && s.cur == 0 && s.log == [s.logInit] && s.next == [None] && s.frees == [0]
    && s.unlinked == None && s.owner == Calm && s.pc == []
    && s.items == []
  }
}

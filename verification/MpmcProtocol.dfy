/**
  The bounded multi-producer multi-consumer queue with per-cell sequence numbers, under every
  interleaving of any number of threads.  One action is one access to shared memory.

  `hist`, `enqBy`, `deqBy`, `base` and `delivered` are history variables: the value and the
  thread of every claimed position, the position a cell currently stands for, and the values
  handed out so far.
 */
module MpmcProtocol {
  import opened Arithmetic

  datatype Pc<T> =
    | Rest
    | EnqLoad(v: T)                // about to load mEnqueuePos
    | EnqSeq(v: T, pos: nat)       // about to load the cell's sequence
    | EnqCas(v: T, pos: nat)       // sequence matched, about to CAS mEnqueuePos
    | EnqWrite(v: T, pos: nat)     // position claimed, about to write the data
    | EnqPublish(pos: nat)         // about to store sequence pos + 1
    | DeqLoad
    | DeqSeq(pos: nat)
    | DeqCas(pos: nat)
    | DeqRead(pos: nat)            // position claimed, about to read the data
    | DeqRelease(pos: nat, v: T)   // about to store sequence pos + capacity

  datatype Answer<T> = NoAnswer | Stored | Full | Value(v: T) | Empty

  datatype State<T> = State(
    cap: nat,
    sequence: seq<nat>,
    data: seq<T>,
    enq: nat,
    deq: nat,
    pc: seq<Pc<T>>,
    answer: seq<Answer<T>>,        // what the thread's last completed call returned
    hist: seq<T>,
    enqBy: seq<nat>,
    deqBy: seq<nat>,
    base: seq<nat>,
    delivered: map<nat, T>)

  function Cell(cap: nat, pos: nat): (i: nat)
    requires cap > 0
    ensures i < cap
  {
    pos % cap
  }

  // ----- arithmetic of positions that share a cell -----------------------------------------

  /** Different positions of the same cell are at least a capacity apart. */
  lemma SameCell(cap: nat, p: nat, q: nat)
    requires cap > 0 && Cell(cap, p) == Cell(cap, q) && p < q
    ensures q >= p + cap
  {
    SameRemainder(p, q, cap);
  }

  lemma NextRound(cap: nat, p: nat)
    requires cap > 0
    ensures Cell(cap, p + cap) == Cell(cap, p)
  {
    AddPeriod(p, cap);
  }

  // ----- the code ----------------------------------------------------------------------------

  predicate Sized<T>(s: State<T>) {
    && s.cap >= 2
    && |s.sequence| == |s.data| == |s.base| == s.cap
    && |s.pc| == |s.answer|
    && |s.hist| == |s.enqBy| == s.enq && |s.deqBy| == s.deq
  }

  datatype Action<T> = Enqueue(t: nat, v: T) | Dequeue(t: nat) | Advance(t: nat, spurious: bool)

  predicate Enabled<T>(s: State<T>, a: Action<T>) {
    && Sized(s) && a.t < |s.pc|
    && (a.Advance? <==> !s.pc[a.t].Rest?)
  }

  function Goto<T>(s: State<T>, t: nat, pc: Pc<T>): State<T>
    requires t < |s.pc|
  {
    s.(pc := s.pc[t := pc])
  }

  function Return<T>(s: State<T>, t: nat, r: Answer<T>): State<T>
    requires t < |s.pc| == |s.answer|
  {
    s.(pc := s.pc[t := Rest], answer := s.answer[t := r])
  }

  /** enqueue: what the loaded sequence number says. */
  function EnqLook<T>(s: State<T>, t: nat, v: T, pos: nat): State<T>
    requires Sized(s) && t < |s.pc|
  {
    var sq := s.sequence[Cell(s.cap, pos)];
    if sq == pos then Goto(s, t, EnqCas(v, pos))
    else if sq < pos then Return(s, t, Full)
    else Goto(s, t, EnqLoad(v))
  }

  /** enqueue: the compare_exchange succeeded. */
  function EnqClaim<T>(s: State<T>, t: nat, v: T, pos: nat): State<T>
    requires Sized(s) && t < |s.pc|
  {
    s.(pc := s.pc[t := EnqWrite(v, pos)], enq := s.enq + 1, hist := s.hist + [v], enqBy := s.enqBy + [t])
  }

  function EnqStore<T>(s: State<T>, t: nat, v: T, pos: nat): State<T>
    requires Sized(s) && t < |s.pc|
  {
    s.(pc := s.pc[t := EnqPublish(pos)], data := s.data[Cell(s.cap, pos) := v])
  }

  function EnqDone<T>(s: State<T>, t: nat, pos: nat): State<T>
    requires Sized(s) && t < |s.pc|
  {
    s.(pc := s.pc[t := Rest], answer := s.answer[t := Stored], sequence := s.sequence[Cell(s.cap, pos) := pos + 1])
  }

  /** dequeue: what the loaded sequence number says. */
  function DeqLook<T>(s: State<T>, t: nat, pos: nat): State<T>
    requires Sized(s) && t < |s.pc|
  {
    var sq := s.sequence[Cell(s.cap, pos)];
    if sq == pos + 1 then Goto(s, t, DeqCas(pos))
    else if sq < pos + 1 then Return(s, t, Empty)
    else Goto(s, t, DeqLoad)
  }

  function DeqClaim<T>(s: State<T>, t: nat, pos: nat): State<T>
    requires Sized(s) && t < |s.pc|
  {
    s.(pc := s.pc[t := DeqRead(pos)], deq := s.deq + 1, deqBy := s.deqBy + [t])
  }

  function DeqDone<T>(s: State<T>, t: nat, pos: nat, v: T): State<T>
    requires Sized(s) && t < |s.pc|
  {
    s.(pc := s.pc[t := Rest], answer := s.answer[t := Value(v)],
       sequence := s.sequence[Cell(s.cap, pos) := pos + s.cap],
       base := s.base[Cell(s.cap, pos) := pos + s.cap],
       delivered := s.delivered[pos := v])
  }

  function Do<T>(s: State<T>, a: Action<T>): State<T>
    requires Enabled(s, a)
  {
    match a
    case Enqueue(t, v) => Goto(s, t, EnqLoad(v))
    case Dequeue(t) => Goto(s, t, DeqLoad)
    case Advance(t, spurious) =>
      match s.pc[t]
      case EnqLoad(v) => Goto(s, t, EnqSeq(v, s.enq))
      case EnqSeq(v, pos) => EnqLook(s, t, v, pos)
      case EnqCas(v, pos) =>
        if s.enq == pos && !spurious then EnqClaim(s, t, v, pos) else Goto(s, t, EnqSeq(v, s.enq))
      case EnqWrite(v, pos) => EnqStore(s, t, v, pos)
      case EnqPublish(pos) => EnqDone(s, t, pos)
      case DeqLoad => Goto(s, t, DeqSeq(s.deq))
      case DeqSeq(pos) => DeqLook(s, t, pos)
      case DeqCas(pos) =>
        if s.deq == pos && !spurious then DeqClaim(s, t, pos) else Goto(s, t, DeqSeq(s.deq))
      case DeqRead(pos) => Goto(s, t, DeqRelease(pos, s.data[Cell(s.cap, pos)]))
      case DeqRelease(pos, v) => DeqDone(s, t, pos, v)
  }

  predicate Init<T>(s: State<T>) {
    && Sized(s) && s.enq == 0 && s.deq == 0 && s.delivered == map[]
    && (forall i :: 0 <= i < s.cap ==> s.sequence[i] == i && s.base[i] == i)
    && (forall t :: 0 <= t < |s.pc| ==> s.pc[t].Rest?)
  }

  // ----- the invariant -----------------------------------------------------------------------

  predicate HoldsEnq<T>(pc: Pc<T>, p: nat) {
    (pc.EnqWrite? || pc.EnqPublish?) && pc.pos == p
  }

  predicate HoldsDeq<T>(pc: Pc<T>, p: nat) {
    (pc.DeqRead? || pc.DeqRelease?) && pc.pos == p
  }

  /** A cell is either free for its position or filled with that position's value. */
  ghost predicate CellOk<T>(s: State<T>, i: nat)
    requires Sized(s) && i < s.cap
  {
    var p := s.base[i];
    && Cell(s.cap, p) == i
    && if s.sequence[i] == p then
         s.deq <= p < s.deq + s.cap && (p < s.enq ==> s.enqBy[p] < |s.pc| && HoldsEnq(s.pc[s.enqBy[p]], p))
       else
         && s.sequence[i] == p + 1 && p < s.enq <= p + s.cap && s.data[i] == s.hist[p]
         && (p < s.deq ==> s.deqBy[p] < |s.pc| && HoldsDeq(s.pc[s.deqBy[p]], p))
  }

  ghost predicate ThreadOk<T>(s: State<T>, t: nat)
    requires Sized(s) && t < |s.pc| && s.deq <= s.enq
  {
    match s.pc[t]
    case EnqSeq(_, pos) => pos <= s.enq
    case EnqCas(_, pos) => pos <= s.enq && s.sequence[Cell(s.cap, pos)] >= pos
    case EnqWrite(v, pos) =>
      && s.deq <= pos < s.enq && s.enqBy[pos] == t && s.hist[pos] == v
      && s.base[Cell(s.cap, pos)] == pos && s.sequence[Cell(s.cap, pos)] == pos
    case EnqPublish(pos) =>
      && s.deq <= pos < s.enq && s.enqBy[pos] == t
      && s.base[Cell(s.cap, pos)] == pos && s.sequence[Cell(s.cap, pos)] == pos
      && s.data[Cell(s.cap, pos)] == s.hist[pos]
    case DeqSeq(pos) => pos <= s.deq
    case DeqCas(pos) => pos <= s.deq && s.sequence[Cell(s.cap, pos)] >= pos + 1
    case DeqRead(pos) =>
      && pos < s.deq && s.deqBy[pos] == t
      && s.base[Cell(s.cap, pos)] == pos && s.sequence[Cell(s.cap, pos)] == pos + 1
    case DeqRelease(pos, v) =>
      && pos < s.deq && s.deqBy[pos] == t && s.base[Cell(s.cap, pos)] == pos
      && s.sequence[Cell(s.cap, pos)] == pos + 1 && v == s.hist[pos]
    case _ => true
  }

  /** A dequeued position is delivered once its dequeuer has let go of it. */
  ghost predicate DeliveredOk<T>(s: State<T>, p: nat)
    requires Sized(s) && p < s.deq <= s.enq
  {
    && s.deqBy[p] < |s.pc|
    && (p in s.delivered <==> !HoldsDeq(s.pc[s.deqBy[p]], p))
    && (p in s.delivered ==> s.delivered[p] == s.hist[p])
  }

  ghost predicate Inv<T>(s: State<T>) {
    && Sized(s) && s.deq <= s.enq <= s.deq + s.cap
    && (forall i: nat :: i < s.cap ==> CellOk(s, i))
    && (forall t: nat :: t < |s.pc| ==> ThreadOk(s, t))
    && (forall p: nat :: p < s.deq ==> DeliveredOk(s, p))
    && (forall p :: p in s.delivered ==> p < s.deq)
  }

  lemma InitInv<T>(s: State<T>)
    requires Init(s)
    ensures Inv(s)
  {
    forall i: nat | i < s.cap ensures CellOk(s, i) { assert i % s.cap == i; }
  }

  // ----- the steps that write ------------------------------------------------------------------

  /** At the CAS the cell of the next enqueue position is free for exactly that position. */
  lemma EnqCellFree<T>(s: State<T>, pos: nat)
    requires Inv(s) && pos == s.enq && s.sequence[Cell(s.cap, pos)] >= pos
    ensures s.base[Cell(s.cap, pos)] == pos == s.sequence[Cell(s.cap, pos)] && s.enq < s.deq + s.cap
  {
    var i := Cell(s.cap, pos);
    assert CellOk(s, i);
    var p := s.base[i];
    if p < pos { SameCell(s.cap, p, pos); }
    if pos < p { SameCell(s.cap, pos, p); }
  }

  lemma DeqCellFull<T>(s: State<T>, pos: nat)
    requires Inv(s) && pos == s.deq && s.sequence[Cell(s.cap, pos)] >= pos + 1
    ensures s.base[Cell(s.cap, pos)] == pos && s.sequence[Cell(s.cap, pos)] == pos + 1 && pos < s.enq
  {
    var i := Cell(s.cap, pos);
    assert CellOk(s, i);
    var p := s.base[i];
    if pos < p { SameCell(s.cap, pos, p); }
  }

  lemma EnqClaimInv<T>(s: State<T>, t: nat, v: T, pos: nat)
    requires Inv(s) && t < |s.pc| && s.pc[t] == EnqCas(v, pos) && pos == s.enq
    ensures Inv(EnqClaim(s, t, v, pos))
  {
    assert ThreadOk(s, t);
    EnqCellFree(s, pos);
    var s' := EnqClaim(s, t, v, pos);
    forall i: nat | i < s.cap ensures CellOk(s', i) {
      assert CellOk(s, i);
      var p := s.base[i];
      if s.enq == p + s.cap { NextRound(s.cap, p); }
    }
    forall u: nat | u < |s.pc| ensures ThreadOk(s', u) { assert ThreadOk(s, u); }
    forall p: nat | p < s.deq ensures DeliveredOk(s', p) { assert DeliveredOk(s, p); }
  }

  lemma DeqClaimInv<T>(s: State<T>, t: nat, pos: nat)
    requires Inv(s) && t < |s.pc| && s.pc[t] == DeqCas(pos) && pos == s.deq
    ensures Inv(DeqClaim(s, t, pos))
  {
    assert ThreadOk(s, t);
    DeqCellFull(s, pos);
    var s' := DeqClaim(s, t, pos);
    forall i: nat | i < s.cap ensures CellOk(s', i) { assert CellOk(s, i); }
    forall u: nat | u < |s.pc| ensures ThreadOk(s', u) {
      assert ThreadOk(s, u);
      if s.pc[u].EnqWrite? || s.pc[u].EnqPublish? { assert s.pc[u].pos != pos; }
    }
    forall p: nat | p < s'.deq ensures DeliveredOk(s', p) {
      if p < s.deq { assert DeliveredOk(s, p); }
    }
  }

  lemma EnqStoreInv<T>(s: State<T>, t: nat, v: T, pos: nat)
    requires Inv(s) && t < |s.pc| && s.pc[t] == EnqWrite(v, pos)
    ensures Inv(EnqStore(s, t, v, pos))
  {
    assert ThreadOk(s, t);
    var s' := EnqStore(s, t, v, pos);
    forall i: nat | i < s.cap ensures CellOk(s', i) { assert CellOk(s, i); }
    forall u: nat | u < |s.pc| ensures ThreadOk(s', u) { assert ThreadOk(s, u); }
    forall p: nat | p < s.deq ensures DeliveredOk(s', p) { assert DeliveredOk(s, p); }
  }

  lemma EnqDoneInv<T>(s: State<T>, t: nat, pos: nat)
    requires Inv(s) && t < |s.pc| && s.pc[t] == EnqPublish(pos)
    ensures Inv(EnqDone(s, t, pos))
  {
    assert ThreadOk(s, t);
    var s' := EnqDone(s, t, pos);
    forall i: nat | i < s.cap ensures CellOk(s', i) { assert CellOk(s, i); }
    forall u: nat | u < |s.pc| ensures ThreadOk(s', u) { assert ThreadOk(s, u); }
    forall p: nat | p < s.deq ensures DeliveredOk(s', p) { assert DeliveredOk(s, p); }
  }

  lemma DeqDoneInv<T>(s: State<T>, t: nat, pos: nat, v: T)
    requires Inv(s) && t < |s.pc| && s.pc[t] == DeqRelease(pos, v)
    ensures Inv(DeqDone(s, t, pos, v))
  {
    assert ThreadOk(s, t) && CellOk(s, Cell(s.cap, pos));
    NextRound(s.cap, pos);
    var s' := DeqDone(s, t, pos, v);
    forall i: nat | i < s.cap ensures CellOk(s', i) { assert CellOk(s, i); }
    forall u: nat | u < |s.pc| ensures ThreadOk(s', u) { assert ThreadOk(s, u); }
    forall p: nat | p < s.deq ensures DeliveredOk(s', p) { assert DeliveredOk(s, p); }
  }

  /** Moving a thread that holds no position to another control point without one. */
  lemma GotoInv<T>(s: State<T>, t: nat, pc: Pc<T>, r: Answer<T>)
    requires Inv(s) && t < |s.pc|
    requires !s.pc[t].EnqWrite? && !s.pc[t].EnqPublish? && !s.pc[t].DeqRead? && !s.pc[t].DeqRelease?
    requires !pc.EnqWrite? && !pc.EnqPublish? && !pc.DeqRead? && !pc.DeqRelease?
    requires ThreadOk(Goto(s, t, pc), t)
    ensures Inv(Goto(s, t, pc)) && Inv(s.(pc := s.pc[t := pc], answer := s.answer[t := r]))
  {
    var s' := Goto(s, t, pc);
    forall i: nat | i < s.cap ensures CellOk(s', i) { assert CellOk(s, i); }
    forall u: nat | u < |s.pc| ensures ThreadOk(s', u) { assert ThreadOk(s, u); }
    forall p: nat | p < s.deq ensures DeliveredOk(s', p) { assert DeliveredOk(s, p); }
    var s'' := s.(pc := s.pc[t := pc], answer := s.answer[t := r]);
    forall i: nat | i < s.cap ensures CellOk(s'', i) { assert CellOk(s', i); }
    forall u: nat | u < |s.pc| ensures ThreadOk(s'', u) { assert ThreadOk(s', u); }
    forall p: nat | p < s.deq ensures DeliveredOk(s'', p) { assert DeliveredOk(s', p); }
  }

  lemma DeqReadInv<T>(s: State<T>, t: nat, pos: nat)
    requires Inv(s) && t < |s.pc| && s.pc[t] == DeqRead(pos)
    ensures Inv(Goto(s, t, DeqRelease(pos, s.data[Cell(s.cap, pos)])))
  {
    assert ThreadOk(s, t) && CellOk(s, Cell(s.cap, pos));
    var s' := Goto(s, t, DeqRelease(pos, s.data[Cell(s.cap, pos)]));
    forall i: nat | i < s.cap ensures CellOk(s', i) { assert CellOk(s, i); }
    forall u: nat | u < |s.pc| ensures ThreadOk(s', u) { assert ThreadOk(s, u); }
    forall p: nat | p < s.deq ensures DeliveredOk(s', p) { assert DeliveredOk(s, p); }
  }

  lemma StepInv<T>(s: State<T>, a: Action<T>)
    requires Inv(s) && Enabled(s, a)
    ensures Inv(Do(s, a))
  {
    assert ThreadOk(s, a.t);
    match a {
      case Enqueue(t, v) => GotoInv(s, t, EnqLoad(v), NoAnswer);
      case Dequeue(t) => GotoInv(s, t, DeqLoad, NoAnswer);
      case Advance(t, spurious) =>
        match s.pc[t] {
          case EnqLoad(v) => GotoInv(s, t, EnqSeq(v, s.enq), NoAnswer);
          case EnqSeq(v, pos) =>
            GotoInv(s, t, if s.sequence[Cell(s.cap, pos)] == pos then EnqCas(v, pos)
                          else if s.sequence[Cell(s.cap, pos)] < pos then Rest else EnqLoad(v), Full);
          case EnqCas(v, pos) =>
            if s.enq == pos && !spurious { EnqClaimInv(s, t, v, pos); } else { GotoInv(s, t, EnqSeq(v, s.enq), NoAnswer); }
          case EnqWrite(v, pos) => EnqStoreInv(s, t, v, pos);
          case EnqPublish(pos) => EnqDoneInv(s, t, pos);
          case DeqLoad => GotoInv(s, t, DeqSeq(s.deq), NoAnswer);
          case DeqSeq(pos) =>
            GotoInv(s, t, if s.sequence[Cell(s.cap, pos)] == pos + 1 then DeqCas(pos)
                          else if s.sequence[Cell(s.cap, pos)] < pos + 1 then Rest else DeqLoad, Empty);
          case DeqCas(pos) =>
            if s.deq == pos && !spurious { DeqClaimInv(s, t, pos); } else { GotoInv(s, t, DeqSeq(s.deq), NoAnswer); }
          case DeqRead(pos) => DeqReadInv(s, t, pos);
          case DeqRelease(pos, v) => DeqDoneInv(s, t, pos, v);
        }
    }
  }
}

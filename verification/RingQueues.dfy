/** The two array-backed queues as objects whose operations run one after the other. */
module RingQueues {
  import opened Prelude
  import opened Arithmetic
  import opened Rings

  // ----- the bounded queue with per-cell sequence numbers --------------------------------------------

  /** With no call in flight: the cells of [d, e) are filled and carry their position plus one,
      the other cells carry the next position they will be filled for. */
  ghost predicate CellsOk(cells: seq<nat>, d: nat, e: nat) {
    && |cells| >= 2 && d <= e <= d + |cells|
    && (forall p: nat :: d <= p < d + |cells| ==> CellOk(cells, p, e))
  }

  ghost predicate CellOk(cells: seq<nat>, p: nat, e: nat)
    requires |cells| > 0
  {
    At(cells, p) == if p < e then p + 1 else p
  }

  /** The cell of the enqueue position tells exactly whether there is room. */
  lemma EnqueueCell(cells: seq<nat>, d: nat, e: nat)
    requires CellsOk(cells, d, e)
    ensures At(cells, e) == if e < d + |cells| then e else d + 1
  {
    if e < d + |cells| {
      assert CellOk(cells, e, e);
    } else {
      AddPeriod(d, |cells|);
      assert CellOk(cells, d, e);
    }
  }

  lemma EnqueueCells(cells: seq<nat>, d: nat, e: nat)
    requires CellsOk(cells, d, e) && e < d + |cells|
    ensures CellsOk(Put(cells, e, e + 1), d, e + 1)
  {
    var e' := e + 1;
    var cells' := Put(cells, e, e');
    forall p: nat | d <= p < d + |cells| ensures CellOk(cells', p, e') {
      assert CellOk(cells, p, e);
      if p != e { PutElsewhere(cells, e, p, e'); }
    }
  }

  lemma DequeueCells(cells: seq<nat>, d: nat, e: nat)
    requires CellsOk(cells, d, e) && d < e
    ensures CellsOk(Put(cells, d, d + |cells|), d + 1, e)
  {
    var n := |cells|;
    AddPeriod(d, n);
    var cells' := Put(cells, d, d + n);
    forall p: nat | d + 1 <= p < d + 1 + n ensures CellOk(cells', p, e) {
      if p < d + n {
        assert CellOk(cells, p, e);
        PutElsewhere(cells, d, p, d + n);
      }
    }
  }

  class MpmcQueue<T(0)> {
    const sequence: array<nat>
    const data: array<T>
    var enqueuePos: nat
    var dequeuePos: nat

    ghost predicate Valid()
      reads this, sequence
    {
      && CellsOk(sequence[..], dequeuePos, enqueuePos) && data.Length == sequence.Length
      && (sequence as object) != (data as object)
    }

    ghost function Contents(): seq<T>
      requires Valid()
      reads this, sequence, data
    {
      Window(data[..], dequeuePos, enqueuePos)
    }

    constructor (size: nat)
      requires size >= 2
      ensures Valid() && Contents() == [] && sequence.Length == size && fresh(sequence) && fresh(data)
    {
      sequence := new nat[size](i => i);
      data := new T[size];
      enqueuePos, dequeuePos := 0, 0;
      new;
      forall p: nat | p < size ensures CellOk(sequence[..], p, 0) { DivModUnique(p, size, 0, p); }
    }

    /** Stores exactly when there is room; a second attempt is never needed without rivals. */
    method Enqueue(v: T) returns (stored: bool)
      requires Valid()
      modifies this`enqueuePos, sequence, data
      ensures Valid() && stored == (|old(Contents())| < sequence.Length)
      ensures Contents() == if stored then old(Contents()) + [v] else old(Contents())
    {
      var pos := enqueuePos;
      EnqueueCell(sequence[..], dequeuePos, pos);
      var s := sequence[pos % sequence.Length];
      if s < pos {
        return false;
      }
      EnqueueCells(sequence[..], dequeuePos, pos);
      WindowPut(data[..], dequeuePos, pos, v);
      enqueuePos := pos + 1;
      StoreData(pos, v);
      StoreSequence(pos, pos + 1);
      stored := true;
    }

    method Dequeue() returns (r: Option<T>)
      requires Valid()
      modifies this`dequeuePos, sequence
      ensures Valid() && (r.None? <==> old(Contents()) == [])
      ensures if r.Some? then old(Contents()) == [r.value] + Contents() else Contents() == []
    {
      var pos := dequeuePos;
      assert CellOk(sequence[..], pos, enqueuePos);
      var s := sequence[pos % sequence.Length];
      if s < pos + 1 {
        return None;
      }
      DequeueCells(sequence[..], pos, enqueuePos);
      WindowFront(data[..], pos, enqueuePos);
      hide CellsOk, Window, Put;
      dequeuePos := pos + 1;
      r := Some(data[pos % data.Length]);
      StoreSequence(pos, pos + sequence.Length);
    }

    method StoreData(p: nat, v: T)
      requires data.Length > 0
      modifies data
      ensures data[..] == Put(old(data[..]), p, v)
    {
      data[p % data.Length] := v;
    }

    method StoreSequence(p: nat, value: nat)
      requires sequence.Length > 0
      modifies sequence
      ensures sequence[..] == Put(old(sequence[..]), p, value)
    {
      sequence[p % sequence.Length] := value;
    }
  }

  // ----- the ring of pinned resumable fibers -----------------------------------------------------------

  /** The ring with -1 sentinels that holds a thread's pinned resumable fibers. */
  class FifoQueue<T(0)> {
    var head: int
    var tail: int
    const data: array<T>

    ghost predicate Valid()
      reads this
    {
      && data.Length > 0
      && (if tail == -1 then head == -1 else 0 <= tail < data.Length && 0 <= head < data.Length)
    }

    /** Oldest first. */
    ghost function Contents(): seq<T>
      requires Valid()
      reads this, data
    {
      if tail == -1 then []
      else if tail <= head then data[tail..head + 1]
      else data[tail..] + data[..head + 1]
    }

    constructor (n: nat)
      requires n > 0
      ensures Valid() && Contents() == [] && data.Length == n && fresh(data)
    {
      head, tail := -1, -1;
      data := new T[n];
    }

    method Empty() returns (r: bool)
      requires Valid()
      ensures r <==> Contents() == []
    {
      r := tail == -1;
    }

    /** Full means exactly N elements: no slot is lost to the sentinels. */
    method Full() returns (r: bool)
      requires Valid()
      ensures r <==> |Contents()| == data.Length
    {
      var nextHead := head + 1;
      if nextHead >= data.Length {
        nextHead := nextHead - data.Length;
      }
      r := nextHead == tail;
    }

    method Enqueue(x: T)
      requires Valid() && |Contents()| < data.Length
      modifies this, data
      ensures Valid() && Contents() == old(Contents()) + [x]
    {
      if tail == -1 {
        tail := 0;
      }
      head := head + 1;
      if head >= data.Length {
        head := head - data.Length;
      }
      data[head] := x;
    }

    method Dequeue() returns (r: Option<T>)
      requires Valid()
      modifies this
      ensures Valid() && (r.None? <==> old(Contents()) == [])
      ensures if r.Some? then old(Contents()) == [r.value] + Contents() else Contents() == []
    {
      if tail == -1 {
        r := None;
        return;
      }
      r := Some(data[tail]);
      if tail == head {
        tail, head := -1, -1;
      } else {
        tail := tail + 1;
        if tail >= data.Length {
          tail := tail - data.Length;
        }
      }
    }
  }
}

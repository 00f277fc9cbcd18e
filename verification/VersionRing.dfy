/** The ring of versioned handles: a 32-bit version counter and a power-of-two ring of values. */
module VersionRing {
  import opened Arithmetic
  import opened Rings

  lemma Regroup(q: nat, n: nat, m: nat, r: nat)
    ensures q * (n * m) + r * n == (q * m + r) * n
  {
    assert q * (n * m) == (q * m) * n;
  }

  /** Reducing modulo a multiple of n first does not change the remainder modulo n. */
  lemma RemainderOfMultiple(a: nat, n: nat, m: nat, w: nat)
    requires n > 0 && w > 0 && w == n * m
    ensures (a % w) % n == a % n
  {
    var q, r := a / w, a % w;
    var k := r / n;
    assert a == q * w + (k * n + r % n);
    Regroup(q, n, m, k);
    DivModUnique(a, n, q * m + k, r % n);
  }

  /** The wrapped handle still selects the slot of the acquire it stands for. */
  lemma SlotOfHandle(a: nat, j: nat)
    requires j <= 30
    ensures (a % WRAP) % Pow2(j) == a % Pow2(j)
  {
    WrapIsPow2();
    Pow2Sum(j, 32 - j);
    RemainderOfMultiple(a, Pow2(j), Pow2(32 - j), WRAP);
  }

  /** After `issued` acquires, no acquire later than a has used its slot in a ring of n. */
  ghost predicate OwnsSlot(issued: nat, n: nat, a: nat)
    requires n > 0
  {
    forall p: nat :: a < p < issued ==> p % n != a % n
  }

  lemma OwnsSlotExactly(issued: nat, n: nat, a: nat)
    requires n > 0 && a < issued
    ensures OwnsSlot(issued, n, a) <==> issued - a <= n
  {
    if issued - a <= n {
      forall p: nat | a < p < issued ensures p % n != a % n {
        if p % n == a % n { SameRemainder(a, p, n); }
      }
    } else {
      AddPeriod(a, n);
    }
  }

  /** isExpired on bare values: the version, the handle and the ring size. */
  predicate Expired(version: nat, handle: nat, n: nat) {
    (version + WRAP - handle % WRAP) % WRAP > n
  }

  /** The wrapped difference of two wrapped counters is the wrapped distance. */
  lemma ExpiredExactly(issued: nat, a: nat, n: nat)
    requires a <= issued
    ensures Expired(issued % WRAP, a % WRAP, n) <==> (issued - a) % WRAP > n
  {
  }

  /** When the answer of isExpired is right, for every number of acquires: exactly unless the
      handle is a whole number of version periods, and at most n more, behind. */
  lemma ExpiryCorrectExactly(issued: nat, a: nat, j: nat)
    requires a < issued && j <= 30
    ensures
      (Expired(issued % WRAP, a % WRAP, Pow2(j)) <==> !OwnsSlot(issued, Pow2(j), a))
      <==> (issued - a < WRAP || (issued - a) % WRAP > Pow2(j))
  {
    RingIsSmall(j);
    ExpiredExactly(issued, a, Pow2(j));
    OwnsSlotExactly(issued, Pow2(j), a);
    hide Expired, OwnsSlot, Pow2;
    if issued - a < WRAP { DivModUnique(issued - a, WRAP, 0, issued - a); }
  }

  /** A handle that still owns its slot is never reported as expired. */
  lemma LiveHandleNeverExpired(issued: nat, a: nat, j: nat)
    requires a < issued && j <= 30 && OwnsSlot(issued, Pow2(j), a)
    ensures !Expired(issued % WRAP, a % WRAP, Pow2(j))
  {
    RingIsSmall(j);
    ExpiredExactly(issued, a, Pow2(j));
    OwnsSlotExactly(issued, Pow2(j), a);
    hide Expired, OwnsSlot, Pow2;
    if issued - a < WRAP { DivModUnique(issued - a, WRAP, 0, issued - a); }
  }

  /** After exactly 2^32 acquires a long overwritten handle looks fresh again. */
  lemma HandleFromTheLastPeriod(a: nat, j: nat)
    requires j <= 30
    ensures !Expired((a + WRAP) % WRAP, a % WRAP, Pow2(j)) && !OwnsSlot(a + WRAP, Pow2(j), a)
  {
    RingIsSmall(j);
    ExpiredExactly(a + WRAP, a, Pow2(j));
    OwnsSlotExactly(a + WRAP, Pow2(j), a);
  }

  lemma RingIsSmall(j: nat)
    requires j <= 30
    ensures 0 < Pow2(j) < WRAP / 2
  {
    WrapIsPow2();
    Pow2Sum(2, 30);
    assert Pow2(2) == 4;
    Pow2Mono(j, 30);
  }

  /** Every slot holds the value of the acquire that owns it. */
  ghost predicate Remembers<T>(slots: seq<T>, written: seq<T>) {
    && |slots| > 0
    && forall p: nat :: p < |written| && OwnsSlot(|written|, |slots|, p) ==> At(slots, p) == written[p]
  }

  lemma Remember<T>(slots: seq<T>, written: seq<T>, value: T)
    requires Remembers(slots, written)
    ensures Remembers(Put(slots, |written|, value), written + [value])
  {
    var slots', written' := Put(slots, |written|, value), written + [value];
    var last := |written|;
    forall p: nat | p < |written'| && OwnsSlot(|written'|, |slots'|, p) ensures At(slots', p) == written'[p] {
      if p < last {
        assert last % |slots| != p % |slots|;
        assert OwnsSlot(last, |slots|, p);
      }
    }
  }

  lemma NextVersion(k: nat)
    ensures (k % WRAP + 1) % WRAP == (k + 1) % WRAP
  {
  }

  class Ring<T(0)> {
    const logSize: nat
    const data: array<T>
    var version: nat
    ghost var written: seq<T>     // the values of all acquires since the start or the last reset

    ghost predicate Valid()
      reads this, data
    {
      && logSize <= 30 && data.Length == Pow2(logSize)
      && version == |written| % WRAP
      && Remembers(data[..], written)
    }

    constructor (j: nat)
      requires j <= 30
      ensures Valid() && written == [] && logSize == j && fresh(data)
    {
      logSize := j;
      data := new T[Pow2(j)];
      version := 0;
      written := [];
    }

    function IsExpired(handle: nat): (r: bool)
      reads this
    {
      Expired(version, handle, data.Length)
    }

    function Get(handle: nat): (r: T)
      requires data.Length > 0
      reads this, data
    {
      data[handle % data.Length]
    }

    method Acquire(value: T) returns (handle: nat)
      requires Valid()
      modifies this, data
      ensures Valid() && written == old(written) + [value]
      ensures handle == |old(written)| % WRAP && handle < WRAP
    {
      handle := version;
      version := (version + 1) % WRAP;
      SlotOfHandle(|written|, logSize);
      NextVersion(|written|);
      hide OwnsSlot, Pow2;
      Remember(data[..], written, value);
      data[handle % data.Length] := value;
      written := written + [value];
    }

    method Reset()
      requires Valid()
      modifies this
      ensures Valid() && written == []
    {
      version := 0;
      written := [];
    }

    /** With fewer than 2^32 acquires since a handle was issued, its own included, the handle is
        unexpired exactly if its slot was last written by its own acquire, and then `get`
        returns the value it was acquired with. */
    lemma HandleIsExact(a: nat)
      requires Valid() && a < |written| && |written| - a < WRAP
      ensures !IsExpired(a % WRAP) <==> OwnsSlot(|written|, data.Length, a)
      ensures !IsExpired(a % WRAP) ==> Get(a % WRAP) == written[a]
    {
      ExpiryCorrectExactly(|written|, a, logSize);
      SlotOfHandle(a, logSize);
    }
  }
}

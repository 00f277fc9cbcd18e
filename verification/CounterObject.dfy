/**
  A counter with its waiting slots as an object whose operations run one after the other:
  the loops of counterAddWaitingFiber, counterCheckWaitingFibers and reset, and
  counterIncrement.  The interleavings of the same code are the subject of SchedulerCore.
 */
module CounterObject {
  import opened Prelude
  import opened SchedulerCore

  /** A registered wait. */
  datatype Entry = Entry(fiber: nat, target: int, pin: Option<nat>)

  function EntryOf(slot: Slot): Option<Entry> {
    if slot.free then None else Some(Entry(slot.fiber, slot.target, slot.pin))
  }

  /** Who waits in which slot. */
  function Entries(slots: seq<Slot>): (r: seq<Option<Entry>>)
    ensures |r| == |slots|
    ensures forall i :: 0 <= i < |slots| ==> r[i] == EntryOf(slots[i])
  {
    seq(|slots|, i requires 0 <= i < |slots| => EntryOf(slots[i]))
  }

  /** The entries with the given target, lowest slot first. */
  function Due(e: seq<Option<Entry>>, value: int): (r: seq<Entry>) {
    if e == [] then []
    else Due(e[..|e| - 1], value) +
         (if e[|e| - 1].Some? && e[|e| - 1].value.target == value then [e[|e| - 1].value] else [])
  }

  /** Due goes by slots: what is due in lower slots comes first, and in a single slot it is that slot's
      entry exactly if its target is the value. */
  lemma {:induction false} DueGoesBySlots(e1: seq<Option<Entry>>, e2: seq<Option<Entry>>, value: int)
    ensures Due(e1 + e2, value) == Due(e1, value) + Due(e2, value)
    ensures |e1| == 1 ==> Due(e1, value) == if e1[0].Some? && e1[0].value.target == value then [e1[0].value] else []
    decreases |e2|
  {
    if e2 == [] {
      assert e1 + e2 == e1;
    } else {
      var n := |e2| - 1;
      DueGoesBySlots(e1, e2[..n], value);
      assert (e1 + e2)[..|e1| + n] == e1 + e2[..n];
    }
  }

  /** The other entries stay where they are. */
  function Kept(e: Option<Entry>, value: int): Option<Entry> {
    if e.Some? && e.value.target == value then None else e
  }

  function Remaining(e: seq<Option<Entry>>, value: int): (r: seq<Option<Entry>>)
    ensures |r| == |e| && forall i :: 0 <= i < |e| ==> r[i] == Kept(e[i], value)
  {
    seq(|e|, i requires 0 <= i < |e| => Kept(e[i], value))
  }

  /** The waits registered in the slots, as a multiset. */
  function Waits(e: seq<Option<Entry>>): multiset<Entry> {
    if e == [] then multiset{}
    else Waits(e[..|e| - 1]) + (if e[|e| - 1].Some? then multiset{e[|e| - 1].value} else multiset{})
  }

  /** A check loses no wait and duplicates none: what is due and what remains is what there was. */
  lemma {:induction false} CheckConserves(e: seq<Option<Entry>>, value: int)
    ensures Waits(e) == Waits(Remaining(e, value)) + multiset(Due(e, value))
    ensures forall x :: x in Due(e, value) ==> x.target == value
    ensures forall x :: x in Waits(Remaining(e, value)) ==> x.target != value
  {
    if e != [] {
      var n := |e| - 1;
      CheckConserves(e[..n], value);
      assert Remaining(e, value)[..n] == Remaining(e[..n], value);
    }
  }

  lemma NoneDue(slots: seq<Slot>, before: seq<Option<Entry>>, value: int)
    requires Entries(slots) == Remaining(before, value)
    ensures forall i :: 0 <= i < |slots| && !slots[i].free ==> slots[i].target != value
  {
    forall i | 0 <= i < |slots| && !slots[i].free ensures slots[i].target != value {
      assert EntryOf(slots[i]) == Kept(before[i], value);
    }
  }

  lemma Settle(slots: array<Slot>, before: seq<Option<Entry>>, value: int)
    requires Entries(slots[..]) == Remaining(before, value)
    ensures forall i :: 0 <= i < slots.Length && !slots[i].free ==> slots[i].target != value
  {
    NoneDue(slots[..], before, value);
  }

  datatype Registration = Full | AlreadyOnTarget(seen: int) | Registered(seen: int)

  class Counter {
    var count: int
    const slots: array<Slot>

    /** Between operations every registered wait is open, and none has its target met. */
    ghost predicate Valid()
      reads this, slots
    {
      && (forall i :: 0 <= i < slots.Length && !slots[i].free ==> !slots[i].inUse)
      && (forall i :: 0 <= i < slots.Length && !slots[i].free ==> slots[i].target != count)
    }

    constructor (width: nat)
      ensures Valid() && count == 0 && slots.Length == width && fresh(slots)
      ensures forall i :: 0 <= i < width ==> Entries(slots[..])[i].None?
    {
      count := 0;
      slots := new Slot[width](_ => Slot(true, true, 0, 0, None));
    }

    /** reset */
    method Reset()
      modifies this, slots
      ensures Valid() && count == 0
      ensures forall i :: 0 <= i < slots.Length ==> Entries(slots[..])[i].None?
    {
      count := 0;
      for i := 0 to slots.Length
        invariant count == 0 && forall k :: 0 <= k < i ==> slots[k].free
      {
        slots[i] := slots[i].(free := true);
      }
    }

    /** counterAddWaitingFiber: takes the lowest free slot unless the count is on target. */
    method AddWaitingFiber(fiber: nat, pin: Option<nat>, target: int) returns (r: Registration)
      requires Valid()
      modifies slots
      ensures Valid()
      ensures r.Full? <==> forall i :: 0 <= i < slots.Length ==> Entries(old(slots[..]))[i].Some?
      ensures !r.Full? ==> r.seen == count && (r.AlreadyOnTarget? <==> count == target)
      ensures !r.Registered? ==> Entries(slots[..]) == Entries(old(slots[..]))
      ensures r.Registered? ==>
        exists i :: FirstVacant(Entries(old(slots[..])), i) && Entries(slots[..]) == Entries(old(slots[..]))[i := Some(Entry(fiber, target, pin))]
    {
      ghost var before := Entries(slots[..]);
      for i := 0 to slots.Length
        invariant Valid() && slots[..] == old(slots[..])
        invariant forall k :: 0 <= k < i ==> before[k].Some?
      {
        if slots[i].free {
          slots[i] := slots[i].(free := false);
          slots[i] := slots[i].(fiber := fiber, target := target, pin := pin);
          slots[i] := slots[i].(inUse := false);
          var seen := count;
          if slots[i].inUse {
            return Registered(seen);
          }
          if slots[i].target == seen {
            slots[i] := slots[i].(inUse := true);
            slots[i] := slots[i].(free := true);
            assert Entries(slots[..]) == before;
            return AlreadyOnTarget(seen);
          }
          assert FirstVacant(before, i);
          assert Entries(slots[..]) == before[i := Some(Entry(fiber, target, pin))];
          return Registered(seen);
        }
      }
      r := Full;
    }

    /** counterCheckWaitingFibers: makes exactly the waits due at the value resumable, in slot order. */
    method CheckWaitingFibers(value: int) returns (woken: seq<Entry>)
      requires forall i :: 0 <= i < slots.Length && !slots[i].free ==> !slots[i].inUse
      modifies slots
      ensures forall i :: 0 <= i < slots.Length && !slots[i].free ==> !slots[i].inUse
      ensures woken == Due(Entries(old(slots[..])), value)
      ensures Entries(slots[..]) == Remaining(Entries(old(slots[..])), value)
    {
      ghost var before := Entries(slots[..]);
      woken := [];
      for i := 0 to slots.Length
        invariant forall k :: 0 <= k < slots.Length && !slots[k].free ==> !slots[k].inUse
        invariant forall k :: 0 <= k < i ==> EntryOf(slots[k]) == Kept(before[k], value)
        invariant forall k :: i <= k < slots.Length ==> EntryOf(slots[k]) == before[k]
        invariant woken == Due(before[..i], value)
      {
        assert before[..i + 1][..i] == before[..i];
        if slots[i].free || slots[i].inUse {
          continue;
        }
        if slots[i].target == value {
          slots[i] := slots[i].(inUse := true);
          woken := woken + [Entry(slots[i].fiber, slots[i].target, slots[i].pin)];
          slots[i] := slots[i].(free := true);
        }
      }
      assert before[..|before|] == before;
    }

    /** counterIncrement */
    method Increment(amount: int) returns (value: int, woken: seq<Entry>)
      requires Valid() && amount != 0
      modifies this`count, slots
      ensures Valid() && value == count == old(count) + amount
      ensures woken == Due(Entries(old(slots[..])), value)
      ensures Waits(Entries(slots[..])) + multiset(woken) == Waits(Entries(old(slots[..])))
    {
      ghost var before := Entries(slots[..]);
      count := count + amount;
      value := count;
      CheckConserves(before, value);
      woken := CheckWaitingFibers(value);
      hide Due, Waits, Entries, Remaining;
      Settle(slots, before, value);
    }
  }

  /** Slot i is the lowest without an entry. */
  ghost predicate FirstVacant(e: seq<Option<Entry>>, i: int) {
    0 <= i < |e| && e[i].None? && forall k :: 0 <= k < i ==> e[k].Some?
  }
}

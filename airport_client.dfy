/**
 * The airport's parking-slot table: a fixed list of slots, each with a
 * `reserved` flag that a reservation flips in place.
 */
module AirportClient {
  import opened Wrappers
  import opened Domain

  /** The six slots the table starts with: three gates with two slots each, none reserved. */
  const InitialSlots: seq<ParkingSlot> := [
    ParkingSlot("SLOT-A1", "GateA", false), ParkingSlot("SLOT-A2", "GateA", false),
    ParkingSlot("SLOT-B1", "GateB", false), ParkingSlot("SLOT-B2", "GateB", false),
    ParkingSlot("SLOT-C1", "GateC", false), ParkingSlot("SLOT-C2", "GateC", false)]

  /** No two slots of the table share an id. */
  ghost predicate DistinctIds(s: seq<ParkingSlot>)
  {
    forall i, j :: 0 <= i < j < |s| ==> s[i].slotId != s[j].slotId
  }

  /** The unreserved slots of a table, in table order. */
  function FreeSlots(s: seq<ParkingSlot>): seq<ParkingSlot>
  {
    if s == [] then []
    else
      var last := s[|s| - 1];
      FreeSlots(s[..|s| - 1]) + (if last.reserved then [] else [last])
  }

  /** The free list holds exactly the unreserved slots of the table. */
  lemma {:induction false} FreeSlotsMembers(s: seq<ParkingSlot>)
    ensures forall x :: x in FreeSlots(s) <==> x in s && !x.reserved
    decreases |s|
  {
    if s != [] {
      var n := |s| - 1;
      FreeSlotsMembers(s[..n]);
      assert s == s[..n] + [s[n]];
    }
  }

  /** Slot `i` is the one a reservation of `id` may take: matching id, not yet reserved. */
  predicate Grantable(s: seq<ParkingSlot>, id: string, i: int)
  {
    0 <= i < |s| && s[i].slotId == id && !s[i].reserved
  }

  /** The first slot, at or after `from`, that a reservation of `id` takes. */
  function FindFrom(s: seq<ParkingSlot>, id: string, from: nat): (r: Option<nat>)
    requires from <= |s|
    ensures r.Some? ==> from <= r.value && Grantable(s, id, r.value)
                        && forall j :: from <= j < r.value ==> !Grantable(s, id, j)
    ensures r.None? ==> forall j :: from <= j < |s| ==> !Grantable(s, id, j)
    decreases |s| - from
  {
    if from == |s| then None
    else if Grantable(s, id, from) then Some(from)
    else FindFrom(s, id, from + 1)
  }

  /** The slot a reservation of `id` takes: the first grantable one, if any. */
  function FindReservable(s: seq<ParkingSlot>, id: string): (r: Option<nat>)
    ensures r.Some? ==> Grantable(s, id, r.value) && forall j :: 0 <= j < r.value ==> !Grantable(s, id, j)
    ensures r.None? <==> forall j :: 0 <= j < |s| ==> !Grantable(s, id, j)
  {
    FindFrom(s, id, 0)
  }

  /** The table after slot `k` is marked reserved. */
  function ReserveAt(s: seq<ParkingSlot>, k: nat): seq<ParkingSlot>
    requires k < |s|
  {
    s[k := s[k].(reserved := true)]
  }

  /** `after` is `before` with possibly more slots reserved, and no slot released or renamed. */
  ghost predicate OnlyMoreReserved(before: seq<ParkingSlot>, after: seq<ParkingSlot>)
  {
    |before| == |after| &&
    forall i :: 0 <= i < |before| ==>
      after[i].slotId == before[i].slotId && after[i].gateId == before[i].gateId &&
      (before[i].reserved ==> after[i].reserved)
  }

  /** The initial table holds six slots with distinct ids. */
  lemma InitialIdsDistinct()
    ensures |InitialSlots| == 6 && DistinctIds(InitialSlots)
  {
    var s := InitialSlots;
    var tags := [['A', '1'], ['A', '2'], ['B', '1'], ['B', '2'], ['C', '1'], ['C', '2']];
    forall i | 0 <= i < 6 ensures |s[i].slotId| == 7 && s[i].slotId[5..] == tags[i] { }
    forall i, j | 0 <= i < j < 6 ensures s[i].slotId != s[j].slotId {
      assert tags[i] != tags[j];
    }
  }

  /** A table with no reserved slot is its own free list. */
  lemma {:induction false} AllFreeIsFreeList(s: seq<ParkingSlot>)
    requires forall i :: 0 <= i < |s| ==> !s[i].reserved
    ensures FreeSlots(s) == s
    decreases |s|
  {
    if s != [] {
      AllFreeIsFreeList(s[..|s| - 1]);
      assert s[..|s| - 1] + [s[|s| - 1]] == s;
    }
  }

  /** Every slot of the initial table is free. */
  lemma InitialAllFree()
    ensures FreeSlots(InitialSlots) == InitialSlots
  {
    AllFreeIsFreeList(InitialSlots);
  }

  /** Reserving a free slot removes exactly that slot from the free list. */
  lemma {:induction false} ReserveShrinksFree(s: seq<ParkingSlot>, k: nat)
    requires k < |s| && !s[k].reserved
    ensures |FreeSlots(ReserveAt(s, k))| == |FreeSlots(s)| - 1
    decreases |s|
  {
    var s' := ReserveAt(s, k);
    var n := |s| - 1;
    assert FreeSlots(s) == FreeSlots(s[..n]) + (if s[n].reserved then [] else [s[n]]);
    assert FreeSlots(s') == FreeSlots(s'[..n]) + (if s'[n].reserved then [] else [s'[n]]);
    if k == n {
      assert s'[..n] == s[..n];
    } else {
      assert s'[..n] == ReserveAt(s[..n], k);
      assert s'[n] == s[n];
      ReserveShrinksFree(s[..n], k);
    }
  }

  /** The free list is a prefix-wise filter: what a table and one more slot leave free. */
  lemma FreeSlotsSnoc(s: seq<ParkingSlot>, x: ParkingSlot)
    ensures FreeSlots(s + [x]) == FreeSlots(s) + (if x.reserved then [] else [x])
  {
    assert (s + [x])[..|s|] == s;
  }

  /**
   * Listing the free slots and then reserving the first of them by id always
   * succeeds when nothing happens in between, and takes that very slot when
   * ids are distinct.
   */
  lemma FirstFreeIsReservable(s: seq<ParkingSlot>)
    requires DistinctIds(s) && FreeSlots(s) != []
    ensures FindReservable(s, FreeSlots(s)[0].slotId).Some?
    ensures s[FindReservable(s, FreeSlots(s)[0].slotId).value] == FreeSlots(s)[0]
  {
    var x := FreeSlots(s)[0];
    FreeSlotsMembers(s);
    assert x in FreeSlots(s);
    var j :| 0 <= j < |s| && s[j] == x;
    assert Grantable(s, x.slotId, j);
  }

  /** Once a slot is granted, a second reservation of the same id is refused. */
  lemma NeverGrantedTwice(s: seq<ParkingSlot>, id: string)
    requires DistinctIds(s) && FindReservable(s, id).Some?
    ensures FindReservable(ReserveAt(s, FindReservable(s, id).value), id).None?
  {
    var k := FindReservable(s, id).value;
    var s' := ReserveAt(s, k);
    forall j | 0 <= j < |s'| ensures !Grantable(s', id, j) { }
  }

  class MockAirportClient {
    const slots: array<ParkingSlot>

    ghost predicate Valid()
      reads slots
    {
      DistinctIds(slots[..])
    }

    /** The table's contents. */
    function Table(): seq<ParkingSlot>
      reads slots
    {
      slots[..]
    }

    /** The table starts with the six sample slots. */
    constructor ()
      ensures Valid() && fresh(slots)
      ensures Table() == InitialSlots
    {
      slots := new ParkingSlot[6](i requires 0 <= i < 6 => InitialSlots[i]);
      new;
      assert slots[..] == InitialSlots;
      InitialIdsDistinct();
    }

    /** Lists the unreserved slots in table order, changing nothing. */
    method GetAvailableSlots() returns (available: seq<ParkingSlot>)
      ensures available == FreeSlots(Table())
    {
      available := [];
      var i := 0;
      while i < slots.Length
        invariant 0 <= i <= slots.Length
        invariant available == FreeSlots(slots[..i])
      {
        FreeSlotsSnoc(slots[..i], slots[i]);
        assert slots[..i + 1] == slots[..i] + [slots[i]];
        if !slots[i].reserved {
          available := available + [slots[i]];
        }
        i := i + 1;
      }
      assert slots[..i] == slots[..];
    }

    /**
     * Reserves the first unreserved slot whose id is `slotId` and returns it;
     * returns null and changes nothing when there is none.
     */
    method ReserveSlot(slotId: string) returns (r: Option<ParkingSlot>)
      requires Valid()
      modifies slots
      ensures Valid()
      ensures OnlyMoreReserved(old(Table()), Table())
      ensures match FindReservable(old(Table()), slotId)
        case None => r.None? && Table() == old(Table())
        case Some(k) => r == Some(old(Table())[k].(reserved := true)) && Table() == ReserveAt(old(Table()), k)
    {
      var i := 0;
      while i < slots.Length
        invariant 0 <= i <= slots.Length
        invariant slots[..] == old(slots[..])
        invariant forall j :: 0 <= j < i ==> !Grantable(slots[..], slotId, j)
      {
        if slots[i].slotId == slotId && !slots[i].reserved {
          assert Grantable(slots[..], slotId, i);
          slots[i] := slots[i].(reserved := true);
          return Some(slots[i]);
        }
        i := i + 1;
      }
      return None;
    }

    /** The airport acknowledges an arrival; the table is not touched. */
    method ConfirmArrival(truckId: string)
      ensures unchanged(slots)
    {
    }
  }
}

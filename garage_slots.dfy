/**
 * The garage's slot table as a value: a sequence of slots, each empty (a null array element)
 * or holding a vehicle. These functions specify what the Garage class's methods do to its
 * array, and the lemmas state what those operations preserve.
 */
module GarageSlots {
  import opened Wrappers
  import opened Vehicles

  type Slots = seq<Option<Vehicle>>

  function EmptySlots(n: nat): (s: Slots)
    ensures |s| == n && forall i :: 0 <= i < n ==> s[i].None?
  {
    seq(n, _ => None)
  }

  // ---------------------------------------------------------------------------------------
  // Plate comparison

  /** Upper-casing of the ASCII letters; every other character is left as it is. */
  function ToUpperAscii(c: char): char
  {
    if 'a' <= c <= 'z' then (c as int - 32) as char else c
  }

  /** `String.Equals(a, b, StringComparison.OrdinalIgnoreCase)`, with case folding limited to ASCII. */
  predicate EqualsIgnoreCase(a: string, b: string)
  {
    |a| == |b| && forall i :: 0 <= i < |a| ==> ToUpperAscii(a[i]) == ToUpperAscii(b[i])
  }

  /** A vehicle answers to a plate when it has one and it equals the plate ignoring case. */
  predicate PlateMatches(v: Vehicle, licensePlate: string)
  {
    v.base.licensePlate.Some? && EqualsIgnoreCase(v.base.licensePlate.value, licensePlate)
  }

  predicate MatchesAt(s: Slots, j: int, licensePlate: string)
    requires 0 <= j < |s|
  {
    s[j].Some? && PlateMatches(s[j].value, licensePlate)
  }

  // ---------------------------------------------------------------------------------------
  // Occupancy

  function Weight(x: Option<Vehicle>): nat
  {
    if x.Some? then 1 else 0
  }

  /** The number of non-empty slots. */
  function CountOccupied(s: Slots): nat
  {
    if |s| == 0 then 0 else CountOccupied(s[..|s| - 1]) + Weight(s[|s| - 1])
  }

  /** The vehicles in the non-empty slots, in slot order. */
  function Occupants(s: Slots): seq<Vehicle>
  {
    if |s| == 0 then [] else Occupants(s[..|s| - 1]) + OccupantOf(s[|s| - 1])
  }

  /** The vehicle a single slot contributes to the occupants. */
  function OccupantOf(x: Option<Vehicle>): seq<Vehicle>
  {
    if x.Some? then [x.value] else []
  }

  lemma {:induction false} OccupantsCount(s: Slots)
    ensures |Occupants(s)| == CountOccupied(s) <= |s|
  {
    if |s| > 0 {
      OccupantsCount(s[..|s| - 1]);
    }
  }

  /** The occupants are exactly the vehicles held in some slot. */
  lemma {:induction false} OccupantsMembership(s: Slots, v: Vehicle)
    ensures v in Occupants(s) <==> exists i :: 0 <= i < |s| && s[i] == Some(v)
  {
    if |s| > 0 {
      var init := s[..|s| - 1];
      OccupantsMembership(init, v);
      if exists i :: 0 <= i < |init| && init[i] == Some(v) {
        var i :| 0 <= i < |init| && init[i] == Some(v);
        assert s[i] == Some(v);
      }
      if exists i :: 0 <= i < |s| && s[i] == Some(v) {
        var i :| 0 <= i < |s| && s[i] == Some(v);
        if i < |s| - 1 {
          assert init[i] == Some(v);
        }
      }
    }
  }

  /** Writing one slot changes the count by what leaves and what enters that slot. */
  lemma {:induction false} CountAfterUpdate(s: Slots, i: int, x: Option<Vehicle>)
    requires 0 <= i < |s|
    ensures CountOccupied(s[i := x]) == CountOccupied(s) - Weight(s[i]) + Weight(x)
  {
    var n := |s|;
    if i == n - 1 {
      assert s[i := x][..n - 1] == s[..n - 1];
    } else {
      assert s[i := x][..n - 1] == s[..n - 1][i := x];
      CountAfterUpdate(s[..n - 1], i, x);
    }
  }

  /** Occupants of a concatenation are the concatenated occupants. */
  lemma {:induction false} OccupantsAppend(a: Slots, b: Slots)
    ensures Occupants(a + b) == Occupants(a) + Occupants(b)
    decreases |b|
  {
    if |b| > 0 {
      var ab := a + b;
      assert ab[..|ab| - 1] == a + b[..|b| - 1];
      assert ab[|ab| - 1] == b[|b| - 1];
      OccupantsAppend(a, b[..|b| - 1]);
    } else {
      assert a + b == a;
    }
  }

  /** The occupants split around any slot: those before it, its own, those after it. */
  lemma {:induction false} OccupantsSplit(s: Slots, i: int)
    requires 0 <= i < |s|
    ensures Occupants(s) == Occupants(s[..i]) + OccupantOf(s[i]) + Occupants(s[i + 1..])
  {
    var front, back := s[..i] + [s[i]], s[i + 1..];
    assert s == front + back;
    OccupantsAppend(front, back);
    OccupantsAppend(s[..i], [s[i]]);
    assert Occupants([s[i]]) == OccupantOf(s[i]) by {
      assert [s[i]][..0] == [];
    }
  }

  /** Writing one slot replaces that slot's occupant in place and keeps the others in order. */
  lemma OccupantsAfterUpdate(s: Slots, i: int, x: Option<Vehicle>)
    requires 0 <= i < |s|
    ensures Occupants(s[i := x]) == Occupants(s[..i]) + OccupantOf(x) + Occupants(s[i + 1..])
  {
    var t := s[i := x];
    OccupantsSplit(t, i);
    assert t[..i] == s[..i] && t[i + 1..] == s[i + 1..];
  }

  /** Appending empty slots (growing the array) keeps the count. */
  lemma {:induction false} CountWithEmptyTail(s: Slots, n: nat)
    ensures CountOccupied(s + EmptySlots(n)) == CountOccupied(s)
  {
    if n > 0 {
      var t := s + EmptySlots(n);
      assert t[..|t| - 1] == s + EmptySlots(n - 1);
      assert t[|t| - 1].None?;
      assert CountOccupied(t) == CountOccupied(t[..|t| - 1]) + Weight(t[|t| - 1]);
      CountWithEmptyTail(s, n - 1);
    } else {
      assert s + EmptySlots(n) == s;
    }
  }

  lemma {:induction false} EmptySlotsCount(n: nat)
    ensures CountOccupied(EmptySlots(n)) == 0
  {
    CountWithEmptyTail([], n);
    assert [] + EmptySlots(n) == EmptySlots(n);
  }

  /** Fewer occupants than slots means some slot is empty. */
  lemma {:induction false} HasEmptySlot(s: Slots)
    requires CountOccupied(s) < |s|
    ensures exists j :: 0 <= j < |s| && s[j].None?
  {
    var n := |s|;
    if s[n - 1].Some? {
      HasEmptySlot(s[..n - 1]);
      var j :| 0 <= j < n - 1 && s[..n - 1][j].None?;
      assert s[j].None?;
    }
  }

  /** As many occupants as slots means no slot is empty. */
  lemma {:induction false} FullHasNoEmptySlot(s: Slots)
    requires CountOccupied(s) == |s|
    ensures forall j :: 0 <= j < |s| ==> s[j].Some?
  {
    var n := |s|;
    if n > 0 {
      OccupantsCount(s[..n - 1]);
      FullHasNoEmptySlot(s[..n - 1]);
      assert forall j :: 0 <= j < n - 1 ==> s[j] == s[..n - 1][j];
    }
  }

  // ---------------------------------------------------------------------------------------
  // Scans

  /** `Array.IndexOf(slots, null)` from index `from` on: the first empty slot, or -1. */
  function FirstEmptyFrom(s: Slots, from: nat): (r: int)
    requires from <= |s|
    ensures r == -1 || from <= r < |s|
    ensures r >= 0 ==> s[r].None? && forall j :: from <= j < r ==> s[j].Some?
    ensures r == -1 <==> forall j :: from <= j < |s| ==> s[j].Some?
    decreases |s| - from
  {
    if from == |s| then -1
    else if s[from].None? then from
    else FirstEmptyFrom(s, from + 1)
  }

  /**
   * The first non-empty slot at or after `from` whose vehicle answers to the plate; empty
   * slots are skipped (ShowVehicle's `Where(vehicle => vehicle != null)`).
   */
  function FirstMatchFrom(s: Slots, licensePlate: string, from: nat): (r: Option<nat>)
    requires from <= |s|
    ensures r.Some? ==> from <= r.value < |s| && MatchesAt(s, r.value, licensePlate)
    ensures r.Some? ==> forall j :: from <= j < r.value ==> !MatchesAt(s, j, licensePlate)
    ensures r.None? <==> forall j :: from <= j < |s| ==> !MatchesAt(s, j, licensePlate)
    decreases |s| - from
  {
    if from == |s| then None
    else if MatchesAt(s, from, licensePlate) then Some(from)
    else FirstMatchFrom(s, licensePlate, from + 1)
  }

  datatype FindIndexResult = FoundAt(index: nat) | NoMatch | DereferencedEmpty

  /**
   * `Array.FindIndex` with RemoveVehicle's predicate, which reads `vehicle.LicensePlate` on
   * every slot it reaches: an empty slot reached before a match is a null dereference.
   */
  function FindIndexAsWritten(s: Slots, licensePlate: string, from: nat): (r: FindIndexResult)
    requires from <= |s|
    ensures r.FoundAt? ==> from <= r.index < |s| && MatchesAt(s, r.index, licensePlate)
    ensures r.FoundAt? || r.NoMatch? ==>
              forall j :: from <= j < (if r.FoundAt? then r.index else |s|) ==> s[j].Some? && !MatchesAt(s, j, licensePlate)
    ensures r.DereferencedEmpty? ==>
              exists k :: from <= k < |s| && s[k].None? && forall j :: from <= j < k ==> !MatchesAt(s, j, licensePlate)
    decreases |s| - from
  {
    if from == |s| then NoMatch
    else if s[from].None? then DereferencedEmpty
    else if PlateMatches(s[from].value, licensePlate) then FoundAt(from)
    else FindIndexAsWritten(s, licensePlate, from + 1)
  }

  // ---------------------------------------------------------------------------------------
  // AddVehicle on the slot table

  /**
   * The slot AddVehicle writes: slot `usedSpaces` when it is empty, otherwise the lowest empty
   * slot (which exists, since fewer slots are occupied than there are slots).
   */
  function InsertIndex(s: Slots, usedSpaces: nat): (i: nat)
    requires CountOccupied(s) == usedSpaces < |s|
    ensures i < |s| && s[i].None?
    ensures s[usedSpaces].None? ==> i == usedSpaces
    ensures s[usedSpaces].Some? ==> forall j :: 0 <= j < i ==> s[j].Some?
  {
    if s[usedSpaces].None? then usedSpaces
    else
      HasEmptySlot(s);
      FirstEmptyFrom(s, 0) as nat
  }

  /** The slot table after AddVehicle. */
  function AddedSlots(s: Slots, usedSpaces: nat, v: Vehicle): Slots
    requires CountOccupied(s) == usedSpaces < |s|
  {
    s[InsertIndex(s, usedSpaces) := Some(v)]
  }

  /** AddVehicle keeps the number of slots and occupies one more. */
  lemma AddedSlotsCount(s: Slots, usedSpaces: nat, v: Vehicle)
    requires CountOccupied(s) == usedSpaces < |s|
    ensures |AddedSlots(s, usedSpaces, v)| == |s|
    ensures CountOccupied(AddedSlots(s, usedSpaces, v)) == usedSpaces + 1
  {
    CountAfterUpdate(s, InsertIndex(s, usedSpaces), Some(v));
  }

  /**
   * AddVehicle puts the vehicle in the one slot InsertIndex picks, which was empty, and keeps
   * every other slot.
   */
  lemma AddedSlotsSpec(s: Slots, usedSpaces: nat, v: Vehicle)
    requires CountOccupied(s) == usedSpaces < |s|
    ensures var t, i := AddedSlots(s, usedSpaces, v), InsertIndex(s, usedSpaces);
      && s[i].None? && t[i] == Some(v)
      && forall j :: 0 <= j < |s| && j != i ==> t[j] == s[j]
  {
  }

  /**
   * The vehicle enters the enumeration at the position of the slot it was put in, and the
   * order of the vehicles already parked is kept.
   */
  lemma AddedSlotsOrder(s: Slots, usedSpaces: nat, v: Vehicle)
    requires CountOccupied(s) == usedSpaces < |s|
    ensures var t, i := AddedSlots(s, usedSpaces, v), InsertIndex(s, usedSpaces);
      && Occupants(s) == Occupants(s[..i]) + Occupants(s[i + 1..])
      && Occupants(t) == Occupants(s[..i]) + [v] + Occupants(s[i + 1..])
  {
    var i := InsertIndex(s, usedSpaces);
    var front, back := Occupants(s[..i]), Occupants(s[i + 1..]);
    OccupantsSplit(s, i);
    assert OccupantOf(s[i]) == [];
    assert Occupants(s) == front + [] + back;
    assert front + [] == front;
    OccupantsAfterUpdate(s, i, Some(v));
    assert OccupantOf(Some(v)) == [v];
    assert AddedSlots(s, usedSpaces, v) == s[i := Some(v)];
  }

  /** Repeated AddVehicle calls, in order. */
  function AddedAll(s: Slots, usedSpaces: nat, vs: seq<Vehicle>): (t: Slots)
    requires CountOccupied(s) == usedSpaces && usedSpaces + |vs| <= |s|
    ensures |t| == |s| && CountOccupied(t) == usedSpaces + |vs|
  {
    if vs == [] then s
    else
      var t := AddedAll(s, usedSpaces, vs[..|vs| - 1]);
      AddedSlotsCount(t, usedSpaces + |vs| - 1, vs[|vs| - 1]);
      AddedSlots(t, usedSpaces + |vs| - 1, vs[|vs| - 1])
  }

  /** Adding the next vehicle of a collection after its first k is one more AddVehicle step. */
  lemma AddedAllStep(s: Slots, usedSpaces: nat, vs: seq<Vehicle>, k: nat)
    requires CountOccupied(s) == usedSpaces && k < |vs| && usedSpaces + k < |s|
    ensures AddedAll(s, usedSpaces, vs[..k + 1]) == AddedSlots(AddedAll(s, usedSpaces, vs[..k]), usedSpaces + k, vs[k])
  {
    assert vs[..k + 1][..k] == vs[..k];
  }

  /** One add puts exactly one more vehicle among the occupants. */
  lemma AddedSlotsOccupants(s: Slots, usedSpaces: nat, v: Vehicle)
    requires CountOccupied(s) == usedSpaces < |s|
    ensures multiset(Occupants(AddedSlots(s, usedSpaces, v))) == multiset(Occupants(s)) + multiset{v}
  {
    AddedSlotsOrder(s, usedSpaces, v);
  }

  // ---------------------------------------------------------------------------------------
  // Properties relating the operations

  /**
   * Round trip: after adding a vehicle whose plate no parked vehicle answers to, looking the
   * plate up finds the slot the vehicle was put in.
   */
  lemma AddThenFind(s: Slots, usedSpaces: nat, v: Vehicle, licensePlate: string)
    requires CountOccupied(s) == usedSpaces < |s|
    requires PlateMatches(v, licensePlate)
    requires forall j :: 0 <= j < |s| ==> !MatchesAt(s, j, licensePlate)
    ensures FirstMatchFrom(AddedSlots(s, usedSpaces, v), licensePlate, 0) == Some(InsertIndex(s, usedSpaces))
  {
    var t := AddedSlots(s, usedSpaces, v);
    var i := InsertIndex(s, usedSpaces);
    assert MatchesAt(t, i, licensePlate);
    var r := FirstMatchFrom(t, licensePlate, 0);
    if r != Some(i) {
      assert r.Some? && r.value < i;
      assert t[r.value] == s[r.value];
      assert MatchesAt(s, r.value, licensePlate);
    }
  }

  /**
   * Round trip: removing the first vehicle answering to a fresh plate right after adding it
   * gives that vehicle back and restores the slot table exactly.
   */
  lemma AddThenRemoveRestores(s: Slots, usedSpaces: nat, v: Vehicle, licensePlate: string)
    requires CountOccupied(s) == usedSpaces < |s|
    requires PlateMatches(v, licensePlate)
    requires forall j :: 0 <= j < |s| ==> !MatchesAt(s, j, licensePlate)
    ensures var t := AddedSlots(s, usedSpaces, v);
            var m := FirstMatchFrom(t, licensePlate, 0);
            m.Some? && t[m.value] == Some(v) && t[m.value := None] == s && CountOccupied(t[m.value := None]) == usedSpaces
  {
    AddThenFind(s, usedSpaces, v, licensePlate);
    var i := InsertIndex(s, usedSpaces);
    assert AddedSlots(s, usedSpaces, v)[i := None] == s;
  }

  /**
   * RemoveVehicle's search when the first slot answering to the plate is slot i: it finds i
   * when the slots before i are all occupied, and dereferences an empty one otherwise.
   */
  lemma {:induction false} FindIndexAsWrittenBeforeMatch(t: Slots, licensePlate: string, from: nat, i: nat)
    requires from <= i < |t| && MatchesAt(t, i, licensePlate)
    requires forall j :: from <= j < i ==> !MatchesAt(t, j, licensePlate)
    ensures FindIndexAsWritten(t, licensePlate, from) ==
              if forall j :: from <= j < i ==> t[j].Some? then FoundAt(i) else DereferencedEmpty
    decreases i - from
  {
    if from < i && t[from].Some? {
      FindIndexAsWrittenBeforeMatch(t, licensePlate, from + 1, i);
    }
  }

  /**
   * Round trip as written: after adding a vehicle under a fresh plate, RemoveVehicle's search
   * finds it only when the slot it was put in was the first empty slot of the table; otherwise
   * it dereferences an earlier empty slot, although the null-skipping search finds the vehicle.
   */
  lemma AddThenRemoveAsWritten(s: Slots, usedSpaces: nat, v: Vehicle, licensePlate: string)
    requires CountOccupied(s) == usedSpaces < |s|
    requires PlateMatches(v, licensePlate)
    requires forall j :: 0 <= j < |s| ==> !MatchesAt(s, j, licensePlate)
    ensures var i := InsertIndex(s, usedSpaces);
            FindIndexAsWritten(AddedSlots(s, usedSpaces, v), licensePlate, 0) ==
              if FirstEmptyFrom(s, 0) == i then FoundAt(i) else DereferencedEmpty
  {
    var t, i := AddedSlots(s, usedSpaces, v), InsertIndex(s, usedSpaces);
    var k := FirstEmptyFrom(s, 0);
    AddedSlotsSpec(s, usedSpaces, v);
    assert MatchesAt(t, i, licensePlate);
    forall j | 0 <= j < i
      ensures t[j] == s[j] && !MatchesAt(t, j, licensePlate)
    {
      assert !MatchesAt(s, j, licensePlate);
    }
    FindIndexAsWrittenBeforeMatch(t, licensePlate, 0, i);
    if k == i {
      assert forall j :: 0 <= j < i ==> t[j].Some?;
    } else {
      assert 0 <= k < i && t[k].None?;
    }
  }

  /**
   * The round trip failing as written: with the table [_, b, _, d] (four vehicles added, the
   * third and then the first removed), the next vehicle goes into slot 2 and removing it by
   * its plate dereferences the empty slot 0.
   */
  lemma AddThenRemoveAsWrittenFails(b: Vehicle, d: Vehicle, e: Vehicle)
    requires b.base.licensePlate == Some("abc112") && d.base.licensePlate == Some("abc114")
    requires e.base.licensePlate == Some("abc115")
    ensures var s := [None, Some(b), None, Some(d)];
            && CountOccupied(s) == 2
            && InsertIndex(s, 2) == 2
            && FindIndexAsWritten(AddedSlots(s, 2, e), "abc115", 0) == DereferencedEmpty
            && FirstMatchFrom(AddedSlots(s, 2, e), "abc115", 0) == Some(2)
  {
    var s := [None, Some(b), None, Some(d)];
    var e4 := EmptySlots(4);
    EmptySlotsCount(4);
    CountAfterUpdate(e4, 1, Some(b));
    CountAfterUpdate(e4[1 := Some(b)], 3, Some(d));
    assert s == e4[1 := Some(b)][3 := Some(d)];
    assert !EqualsIgnoreCase("abc112", "abc115") by { assert ToUpperAscii("abc112"[5]) != ToUpperAscii("abc115"[5]); }
    assert !EqualsIgnoreCase("abc114", "abc115") by { assert ToUpperAscii("abc114"[5]) != ToUpperAscii("abc115"[5]); }
    AddThenFind(s, 2, e, "abc115");
    AddThenRemoveAsWritten(s, 2, e, "abc115");
  }

  /**
   * Slot reuse: in a full table, emptying slot i and then adding puts the new vehicle back
   * into slot i.
   */
  lemma RemoveThenAddReusesSlot(s: Slots, i: nat)
    requires CountOccupied(s) == |s| && i < |s|
    ensures CountOccupied(s[i := None]) == |s| - 1
    ensures InsertIndex(s[i := None], |s| - 1) == i
  {
    FullHasNoEmptySlot(s);
    CountAfterUpdate(s, i, None);
  }

  /** When no slot is empty, RemoveVehicle's search finds exactly what the null-skipping search finds. */
  lemma {:induction false} FindIndexAgreesWhenFull(s: Slots, licensePlate: string, from: nat)
    requires from <= |s|
    requires forall j :: 0 <= j < |s| ==> s[j].Some?
    ensures FindIndexAsWritten(s, licensePlate, from) ==
              match FirstMatchFrom(s, licensePlate, from)
              case Some(i) => FoundAt(i)
              case None => NoMatch
    decreases |s| - from
  {
    if from < |s| && !MatchesAt(s, from, licensePlate) {
      FindIndexAgreesWhenFull(s, licensePlate, from + 1);
    }
  }

  /**
   * RemoveVehicle as written: after the vehicle in slot 0 has been removed, removing the vehicle
   * in slot 1 dereferences the empty slot 0, although the null-skipping search finds it.
   */
  lemma RemoveAsWrittenFailsAfterGap(v: Vehicle)
    requires v.base.licensePlate == Some("abc112")
    ensures FindIndexAsWritten([None, Some(v), None, None], "abc112", 0) == DereferencedEmpty
    ensures FirstMatchFrom([None, Some(v), None, None], "abc112", 0) == Some(1)
  {
    assert MatchesAt([None, Some(v), None, None], 1, "abc112");
  }

  /**
   * RemoveVehicle as written: in a garage that is not full, a plate nobody answers to reaches
   * an empty slot, so the documented null result is never returned.
   */
  lemma RemoveAsWrittenFailsOnMissingPlate(s: Slots, licensePlate: string)
    requires CountOccupied(s) < |s|
    requires forall j :: 0 <= j < |s| ==> !MatchesAt(s, j, licensePlate)
    ensures FindIndexAsWritten(s, licensePlate, 0) == DereferencedEmpty
    ensures FirstMatchFrom(s, licensePlate, 0) == None
  {
    HasEmptySlot(s);
  }
}

/**
 Attendance sessions under the two unique constraints of revision 0031, with SQL's rule that a NULL is
 equal to nothing.
 */
module Attendance {

  import opened Wrappers

  type Id = nat

  /** A class meeting; the period may be missing. */
  datatype Slot = Slot(course: int, section: int, date: int, period: Option<int>)

  type Table = map<Id, Slot>

  predicate SameDay(a: Slot, b: Slot) {
    a.course == b.course && a.section == b.section && a.date == b.date
  }

  /** The plain constraint on (course, section, date, period): a row without a period never conflicts. */
  predicate PlainConflict(a: Slot, b: Slot) {
    SameDay(a, b) && a.period.Some? && b.period.Some? && a.period.value == b.period.value
  }

  /** The partial index on (course, section, date): it holds the rows without a period only. */
  predicate PartialConflict(a: Slot, b: Slot) {
    a.period.None? && b.period.None? && SameDay(a, b)
  }

  ghost predicate PlainUnique(t: Table) {
    forall i, j | i in t && j in t && i != j :: !PlainConflict(t[i], t[j])
  }

  ghost predicate PartialUnique(t: Table) {
    forall i, j | i in t && j in t && i != j :: !PartialConflict(t[i], t[j])
  }

  /** What is wanted: no slot twice, a missing period counting as a value like any other. */
  ghost predicate SlotsUnique(t: Table) {
    forall i, j | i in t && j in t && i != j :: t[i] != t[j]
  }

  lemma TogetherUnique(t: Table)
    ensures PlainUnique(t) && PartialUnique(t) <==> SlotsUnique(t)
  {
    forall i, j | i in t && j in t && i != j
      ensures t[i] == t[j] <==> PlainConflict(t[i], t[j]) || PartialConflict(t[i], t[j])
    {
    }
    if PlainUnique(t) && PartialUnique(t) {
      forall i, j | i in t && j in t && i != j
        ensures t[i] != t[j]
      {
        assert !PlainConflict(t[i], t[j]) && !PartialConflict(t[i], t[j]);
      }
    }
  }

  /** Neither constraint would do alone. */
  lemma NeitherAlone(a: Slot, b: Slot)
    requires a.period.None? && b.period.Some?
    ensures PlainUnique(map[0 := a, 1 := a]) && !SlotsUnique(map[0 := a, 1 := a])
    ensures PartialUnique(map[0 := b, 1 := b]) && !SlotsUnique(map[0 := b, 1 := b])
  {
    var t, u := map[0 := a, 1 := a], map[0 := b, 1 := b];
    assert 0 in t && 1 in t && t[0] == t[1];
    assert 0 in u && 1 in u && u[0] == u[1];
  }

  // ---------------------------------------------------------------------------------------------
  // Statements
  // ---------------------------------------------------------------------------------------------

  predicate Conflicts(a: Slot, b: Slot) {
    PlainConflict(a, b) || PartialConflict(a, b)
  }

  /** Another row has the slot already, as one of the two indexes sees it. */
  predicate Taken(t: Table, id: Id, s: Slot) {
    exists i | i in t :: i != id && Conflicts(t[i], s)
  }

  /** A row change as the engine makes it: each index is looked up before the row is stored. */
  function Stored(t: Table, id: Id, s: Slot): Option<Table> {
    if Taken(t, id, s) then None else Some(t[id := s])
  }

  /** The new slots of an UPDATE, stored row by row in the order the engine visits them. */
  function AllStored(t: Table, ids: seq<Id>, slots: seq<Slot>, n: nat): Option<Table>
    requires n <= |ids| == |slots|
  {
    if n == 0 then Some(t)
    else
      match AllStored(t, ids, slots, n - 1)
      case Some(before) => Stored(before, ids[n - 1], slots[n - 1])
      case None => None
  }

  predicate IsLastFor(ids: seq<Id>, j: nat, n: nat)
    requires j < n <= |ids|
  {
    forall k | j < k < n :: ids[k] != ids[j]
  }

  /** Each of the first n rows holds the last slot it was given, and every other row what it held. */
  ghost predicate HoldsNewSlots(t: Table, u: Table, ids: seq<Id>, slots: seq<Slot>, n: nat)
    requires n <= |ids| == |slots|
  {
    && u.Keys == t.Keys
    && (forall id | id in u && (forall k | 0 <= k < n :: ids[k] != id) :: u[id] == t[id])
    && (forall j: nat | j < n && IsLastFor(ids, j, n) :: ids[j] in u && u[ids[j]] == slots[j])
  }

  lemma {:induction false} AllStoredHold(t: Table, ids: seq<Id>, slots: seq<Slot>, n: nat)
    requires n <= |ids| == |slots| && (forall i | 0 <= i < n :: ids[i] in t) && AllStored(t, ids, slots, n).Some?
    ensures HoldsNewSlots(t, AllStored(t, ids, slots, n).value, ids, slots, n)
  {
    if n > 0 {
      AllStoredHold(t, ids, slots, n - 1);
      forall j: nat | j < n - 1 && IsLastFor(ids, j, n)
        ensures IsLastFor(ids, j, n - 1) && ids[n - 1] != ids[j]
      {
      }
    }
  }

  class Sessions {
    var rows: Table

    ghost predicate Valid()
      reads this
    {
      SlotsUnique(rows)
    }

    constructor ()
      ensures rows == map[] && Valid()
    {
      rows := map[];
    }

    /** Succeeds exactly if no row has the same slot. */
    method Insert(id: Id, s: Slot) returns (ok: bool)
      requires Valid() && id !in rows
      modifies this
      ensures Valid()
      ensures ok <==> forall i | i in old(rows) :: old(rows)[i] != s
      ensures rows == if ok then old(rows)[id := s] else old(rows)
    {
      SlotTaken(rows, id, s);
      if Taken(rows, id, s) {
        return false;
      }
      rows := rows[id := s];
      ok := true;
    }

    /** An UPDATE of several rows; the first conflict undoes it. */
    method Update(ids: seq<Id>, slots: seq<Slot>) returns (ok: bool)
      requires Valid() && |ids| == |slots| && forall i | 0 <= i < |ids| :: ids[i] in rows
      modifies this
      ensures Valid()
      ensures ok == AllStored(old(rows), ids, slots, |ids|).Some?
      ensures rows == if ok then AllStored(old(rows), ids, slots, |ids|).value else old(rows)
      ensures ok ==> HoldsNewSlots(old(rows), rows, ids, slots, |ids|)
    {
      var saved, i := rows, 0;
      while i < |ids|
        invariant 0 <= i <= |ids| && Valid()
        invariant AllStored(saved, ids, slots, i) == Some(rows)
      {
        if Taken(rows, ids[i], slots[i]) {
          NoneStays(saved, ids, slots, i + 1, |ids|);
          rows := saved;
          return false;
        }
        StoredUnique(rows, ids[i], slots[i]);
        rows := rows[ids[i] := slots[i]];
        i := i + 1;
      }
      AllStoredHold(saved, ids, slots, |ids|);
      ok := true;
    }
  }

  lemma SlotTaken(t: Table, id: Id, s: Slot)
    requires id !in t
    ensures Taken(t, id, s) <==> exists i | i in t :: t[i] == s
    ensures SlotsUnique(t) && !Taken(t, id, s) ==> SlotsUnique(t[id := s])
  {
    forall i | i in t
      ensures Conflicts(t[i], s) <==> t[i] == s
    {
    }
    if i :| i in t && t[i] == s {
      assert i != id && Conflicts(t[i], s);
    }
  }

  lemma StoredUnique(t: Table, id: Id, s: Slot)
    requires SlotsUnique(t) && !Taken(t, id, s)
    ensures SlotsUnique(t[id := s])
  {
    var u := t[id := s];
    forall i, j | i in u && j in u && i != j
      ensures u[i] != u[j]
    {
      if i == id {
        assert !Conflicts(t[j], s);
      } else if j == id {
        assert !Conflicts(t[i], s);
      }
    }
  }

  lemma {:induction false} NoneStays(t: Table, ids: seq<Id>, slots: seq<Slot>, m: nat, n: nat)
    requires m <= n <= |ids| == |slots| && AllStored(t, ids, slots, m).None?
    ensures AllStored(t, ids, slots, n).None?
    decreases n
  {
    if m < n { NoneStays(t, ids, slots, m, n - 1); }
  }

  /** The order of the rows matters: moving two meetings up by one period succeeds from the later one on
      and fails from the earlier one on, although both leave the slots unique. */
  lemma OrderMatters(s: Slot, p: int)
    requires s.period == Some(p)
    ensures var next, last := s.(period := Some(p + 1)), s.(period := Some(p + 2));
            var t := map[0 := s, 1 := next];
            AllStored(t, [1, 0], [last, next], 2).Some? && AllStored(t, [0, 1], [next, last], 2).None?
  {
    var next, last := s.(period := Some(p + 1)), s.(period := Some(p + 2));
    var t := map[0 := s, 1 := next];
    assert AllStored(t, [0, 1], [next, last], 1) == Stored(t, 0, next);
    assert 1 in t && Conflicts(t[1], next);
    assert AllStored(t, [1, 0], [last, next], 1) == Stored(t, 1, last);
    assert !Taken(t, 1, last);
    assert !Taken(t[1 := last], 0, next);
  }
}

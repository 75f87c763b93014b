/** The store of GymContext: the workout log (most recent first), the personal-records table and the
    display unit, with the operations that change them. */
module Gym {
  import opened Units
  import opened Workouts
  import opened Records
  import opened Queries

  /** The workout addWorkout stores: the draft's exercises normalised to pounds, stamped. */
  function Stamp(d: Draft, u: Unit, id: int, date: int): (w: Workout)
    ensures w.id == id && w.date == date && w.notes == d.notes
    ensures w.exercises == Normalize(d.exercises, u)
  {
    Workout(id, date, Normalize(d.exercises, u), d.notes)
  }

  class Store {
    var workouts: seq<Workout>
    var records: Table
    var unit: Unit

    /** Every logged exercise has at least one set. */
    ghost predicate Valid()
      reads this
    {
      AllWellFormed(workouts)
    }

    /** The state as loaded at start-up (empty log, empty table and pounds when nothing was saved). */
    constructor (saved: seq<Workout>, savedRecords: Table, savedUnit: Unit)
      requires AllWellFormed(saved)
      ensures Valid()
      ensures workouts == saved && records == savedRecords && unit == savedUnit
    {
      workouts := saved;
      records := savedRecords;
      unit := savedUnit;
    }

    method ToggleUnit()
      modifies this
      ensures unit == Toggled(old(unit))
      ensures workouts == old(workouts) && records == old(records)
    {
      unit := Toggled(unit);
    }

    /** addWorkout: normalise to pounds, stamp, prepend, then run the record ratchet, comparing
        each exercise with the table as it was before the call. */
    method AddWorkout(d: Draft, id: int, date: int)
      requires Valid()
      requires WellFormed(d.exercises)
      modifies this
      ensures Valid()
      ensures workouts == [Stamp(d, old(unit), id, date)] + old(workouts)
      ensures records == Ratchet(old(records), old(records), workouts[0].exercises, date)
      ensures unit == old(unit)
      ensures records.Keys == old(records).Keys + Names(d.exercises)
      ensures forall n :: n in old(records) ==> n in records && records[n].weight >= old(records)[n].weight
    {
      var w := Stamp(d, unit, id, date);
      workouts := [w] + workouts;
      var before := records;
      var i := 0;
      while i < |w.exercises|
        invariant 0 <= i <= |w.exercises|
        invariant workouts == [w] + old(workouts) && unit == old(unit)
        invariant Ratchet(before, records, w.exercises[i..], date) == Ratchet(before, before, w.exercises, date)
      {
        var exercise := w.exercises[i];
        var maxWeight := MaxWeight(exercise.sets);
        if exercise.name !in before || maxWeight > before[exercise.name].weight {
          records := records[exercise.name := Record(maxWeight, date, RepsAtMax(exercise.sets))];
        }
        assert w.exercises[i..][1..] == w.exercises[i + 1..];
        i := i + 1;
      }
      assert w.exercises[i..] == [];
      RatchetKeys(before, before, w.exercises, date);
      RatchetMonotone(before, before, w.exercises, date);
    }

    /** deleteWorkout: drops the workouts with that id; the records table is left as it is. */
    method DeleteWorkout(id: int)
      requires Valid()
      modifies this
      ensures Valid()
      ensures workouts == RemoveId(old(workouts), id)
      ensures records == old(records) && unit == old(unit)
    {
      workouts := RemoveId(workouts, id);
    }

    /** clearAllData: empties the log and the table; the unit stays. */
    method ClearAllData()
      modifies this
      ensures Valid()
      ensures workouts == [] && records == map[] && unit == old(unit)
    {
      workouts := [];
      records := map[];
    }
  }
}

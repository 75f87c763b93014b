/** The workout form of WorkoutLogger: a current exercise being edited (a name and its sets), the
    exercises already added to the workout, and the workout's notes. */
module Logger {
  import opened Seqs
  import opened Workouts
  import opened Records
  import Gym

  /** A form field holds what `parseFloat(value) || value` left there: a number or the raw text. */
  datatype Field = Num(value: real) | Text(raw: string)

  /** The `field` argument of updateSet. */
  datatype Which = Reps | Weight

  datatype FormSet = FormSet(reps: Field, weight: Field)

  datatype FormExercise = FormExercise(name: string, sets: seq<FormSet>)

  /** `{ reps: '', weight: '' }` */
  const EmptySet: FormSet := FormSet(Text(""), Text(""))

  /** `{ name: '', sets: [{ reps: '', weight: '' }] }` */
  const Blank: FormExercise := FormExercise("", [EmptySet])

  /** JavaScript truthiness of a field: a non-zero number or a non-empty string. */
  predicate Truthy(f: Field)
  {
    match f
    case Num(v) => v != 0.0
    case Text(t) => t != ""
  }

  /** `parseFloat(value) || value`, where `parsed` is what parseFloat returned (None for NaN): a
      number is kept only when it is non-zero, otherwise the raw text is kept. */
  function Entered(raw: string, parsed: Option<real>): (f: Field)
    ensures f.Num? ==> f.value != 0.0 && parsed == Some(f.value)
    ensures f.Text? ==> f.raw == raw && (parsed.None? || parsed.value == 0.0)
    ensures Truthy(f) <==> f.Num? || raw != ""
  {
    if parsed.Some? && parsed.value != 0.0 then Num(parsed.value) else Text(raw)
  }

  function SetField(s: FormSet, which: Which, f: Field): FormSet
  {
    if which == Reps then s.(reps := f) else s.(weight := f)
  }

  /** The sets after updateSet(index, which, ...): only `which` of set `index` becomes `f`. */
  function UpdateSets(sets: seq<FormSet>, index: int, which: Which, f: Field): (r: seq<FormSet>)
    ensures |r| == |sets|
    ensures forall i :: 0 <= i < |sets| && i != index ==> r[i] == sets[i]
    ensures 0 <= index < |sets| && which == Reps ==> r[index].reps == f && r[index].weight == sets[index].weight
    ensures 0 <= index < |sets| && which == Weight ==> r[index].weight == f && r[index].reps == sets[index].reps
  {
    seq(|sets|, i requires 0 <= i < |sets| => if i == index then SetField(sets[i], which, f) else sets[i])
  }

  /** The validity test `s.reps && s.weight` as written: both fields truthy. */
  predicate IsValidSetAsWritten(s: FormSet)
  {
    Truthy(s.reps) && Truthy(s.weight)
  }

  /** The validity test as intended: both fields hold a non-zero number. */
  predicate IsValidSet(s: FormSet)
  {
    s.reps.Num? && s.reps.value != 0.0 && s.weight.Num? && s.weight.value != 0.0
  }

  /** `sets.filter(s => s.reps && s.weight)` as written. */
  function ValidSetsAsWritten(sets: seq<FormSet>): (r: seq<FormSet>)
    ensures forall i :: 0 <= i < |r| ==> IsValidSetAsWritten(r[i]) && r[i] in sets
    ensures forall i :: 0 <= i < |sets| && IsValidSetAsWritten(sets[i]) ==> sets[i] in r
    ensures |r| == |Kept(sets, IsValidSetAsWritten)|
    ensures forall i :: 0 <= i < |r| ==> r[i] == sets[Kept(sets, IsValidSetAsWritten)[i]]
  {
    FilterIsSublist(sets, IsValidSetAsWritten);
    Filter(sets, IsValidSetAsWritten)
  }

  /** The valid sets of the current exercise, in their original order. */
  function ValidSets(sets: seq<FormSet>): (r: seq<FormSet>)
    ensures forall i :: 0 <= i < |r| ==> IsValidSet(r[i]) && r[i] in sets
    ensures forall i :: 0 <= i < |sets| && IsValidSet(sets[i]) ==> sets[i] in r
    ensures r == [] <==> forall i :: 0 <= i < |sets| ==> !IsValidSet(sets[i])
    ensures |r| == |Kept(sets, IsValidSet)|
    ensures forall i :: 0 <= i < |r| ==> r[i] == sets[Kept(sets, IsValidSet)[i]]
  {
    FilterIsSublist(sets, IsValidSet);
    var r := Filter(sets, IsValidSet);
    assert r != [] ==> r[0] in sets;
    r
  }

  /** Every set the intended test accepts is also accepted as written. */
  lemma ValidSetIsValidAsWritten(s: FormSet)
    requires IsValidSet(s)
    ensures IsValidSetAsWritten(s)
  {
  }

  /** Typing 0 as the weight leaves the text "0" in the field (parseFloat gives 0, which is falsy),
      and the text "0" is truthy: the set passes the test as written although its weight is 0. */
  lemma ZeroWeightAcceptedAsWritten()
    ensures var sets := UpdateSets(UpdateSets([EmptySet], 0, Reps, Entered("5", Some(5.0))),
                                   0, Weight, Entered("0", Some(0.0)));
            && sets == [FormSet(Num(5.0), Text("0"))]
            && ValidSetsAsWritten(sets) == sets
            && ValidSets(sets) == []
  {
    var sets := UpdateSets(UpdateSets([EmptySet], 0, Reps, Entered("5", Some(5.0))),
                           0, Weight, Entered("0", Some(0.0)));
    assert sets == [FormSet(Num(5.0), Text("0"))];
    assert IsValidSetAsWritten(sets[0]);
    FilterKeepsAll(sets, IsValidSetAsWritten);
    FilterKeepsNone(sets, IsValidSet);
  }

  /** An exercise that may sit in the workout being built: named, with sets, all of them valid. */
  predicate Ready(e: FormExercise)
  {
    e.name != "" && |e.sets| > 0 && forall j :: 0 <= j < |e.sets| ==> IsValidSet(e.sets[j])
  }

  function ToSetEntry(s: FormSet): SetEntry
    requires IsValidSet(s)
  {
    SetEntry(s.reps.value, s.weight.value)
  }

  function ToExercise(e: FormExercise): (r: Exercise)
    requires Ready(e)
    ensures r.name == e.name && |r.sets| == |e.sets| > 0
    ensures forall j :: 0 <= j < |r.sets| ==>
              Num(r.sets[j].reps) == e.sets[j].reps && r.sets[j].reps != 0.0
              && Num(r.sets[j].weight) == e.sets[j].weight && r.sets[j].weight != 0.0
  {
    Exercise(e.name, seq(|e.sets|, j requires 0 <= j < |e.sets| => ToSetEntry(e.sets[j])))
  }

  /** The `exercises` handed to addWorkout: same names and sets, every set non-empty and non-zero. */
  function ToExercises(exs: seq<FormExercise>): (r: seq<Exercise>)
    requires forall i :: 0 <= i < |exs| ==> Ready(exs[i])
    ensures |r| == |exs| && WellFormed(r)
    ensures forall i :: 0 <= i < |exs| ==> r[i].name == exs[i].name && |r[i].sets| == |exs[i].sets|
    ensures forall i, j :: 0 <= i < |r| && 0 <= j < |r[i].sets| ==>
              Num(r[i].sets[j].reps) == exs[i].sets[j].reps && r[i].sets[j].reps != 0.0
              && Num(r[i].sets[j].weight) == exs[i].sets[j].weight && r[i].sets[j].weight != 0.0
  {
    seq(|exs|, i requires 0 <= i < |exs| => ToExercise(exs[i]))
  }

  class WorkoutLogger {
    var current: FormExercise
    var exercises: seq<FormExercise>
    var notes: string

    /** The exercises added so far are all ready to be stored. */
    ghost predicate Valid()
      reads this
    {
      forall i :: 0 <= i < |exercises| ==> Ready(exercises[i])
    }

    constructor ()
      ensures Valid()
      ensures current == Blank && exercises == [] && notes == ""
    {
      current := Blank;
      exercises := [];
      notes := "";
    }

    /** The name input of the current exercise. */
    method SetName(name: string)
      requires Valid()
      modifies this
      ensures Valid()
      ensures current == old(current).(name := name)
      ensures exercises == old(exercises) && notes == old(notes)
    {
      current := current.(name := name);
    }

    /** The notes text area. */
    method SetNotes(text: string)
      requires Valid()
      modifies this
      ensures Valid()
      ensures notes == text
      ensures current == old(current) && exercises == old(exercises)
    {
      notes := text;
    }

    /** addSet: one more empty set at the end; the name and the existing sets stay. */
    method AddSet()
      requires Valid()
      modifies this
      ensures Valid()
      ensures current == FormExercise(old(current).name, old(current).sets + [EmptySet])
      ensures exercises == old(exercises) && notes == old(notes)
    {
      current := current.(sets := current.sets + [EmptySet]);
    }

    /** updateSet(index, field, value), with parseFloat's result passed in as `parsed`. */
    method UpdateSet(index: int, which: Which, raw: string, parsed: Option<real>)
      requires Valid()
      modifies this
      ensures Valid()
      ensures current == FormExercise(old(current).name, UpdateSets(old(current).sets, index, which, Entered(raw, parsed)))
      ensures exercises == old(exercises) && notes == old(notes)
    {
      current := current.(sets := UpdateSets(current.sets, index, which, Entered(raw, parsed)));
    }

    /** removeSet(index): the set at `index` goes; an index out of range changes nothing. */
    method RemoveSet(index: int)
      requires Valid()
      modifies this
      ensures Valid()
      ensures current == FormExercise(old(current).name, RemoveAt(old(current).sets, index))
      ensures exercises == old(exercises) && notes == old(notes)
    {
      current := current.(sets := RemoveAt(current.sets, index));
    }

    /** addExerciseToWorkout: with a name and a valid set, the exercise (valid sets only) joins the
        workout and the form is reset; otherwise nothing happens. */
    method AddExerciseToWorkout()
      requires Valid()
      modifies this
      ensures Valid()
      ensures notes == old(notes)
      ensures old(current).name != "" && (exists j :: 0 <= j < |old(current).sets| && IsValidSet(old(current).sets[j])) ==>
                exercises == old(exercises) + [FormExercise(old(current).name, ValidSets(old(current).sets))]
                && current == Blank
      ensures !(old(current).name != "" && (exists j :: 0 <= j < |old(current).sets| && IsValidSet(old(current).sets[j]))) ==>
                exercises == old(exercises) && current == old(current)
    {
      if current.name != "" && exists j | 0 <= j < |current.sets| :: IsValidSet(current.sets[j]) {
        var validSets := ValidSets(current.sets);
        exercises := exercises + [FormExercise(current.name, validSets)];
        current := Blank;
      }
    }

    /** removeExercise(index): the exercise at `index` leaves the workout; out of range, nothing changes. */
    method RemoveExercise(index: int)
      requires Valid()
      modifies this
      ensures Valid()
      ensures exercises == RemoveAt(old(exercises), index)
      ensures current == old(current) && notes == old(notes)
    {
      exercises := RemoveAt(exercises, index);
    }

    /** saveWorkout: with at least one exercise, hands `{ exercises, notes }` to the store's
        addWorkout once and resets the form; with none, nothing happens. */
    method SaveWorkout(store: Gym.Store, id: int, date: int)
      requires Valid() && store.Valid()
      modifies this, store
      ensures Valid() && store.Valid()
      ensures old(exercises) == [] ==>
                && exercises == old(exercises) && notes == old(notes) && current == old(current)
                && store.workouts == old(store.workouts) && store.records == old(store.records)
                && store.unit == old(store.unit)
      ensures old(exercises) != [] ==>
                var added := Gym.Stamp(Draft(ToExercises(old(exercises)), old(notes)), old(store.unit), id, date);
                && store.workouts == [added] + old(store.workouts)
                && store.records == Ratchet(old(store.records), old(store.records), added.exercises, date)
                && store.unit == old(store.unit)
                && exercises == [] && notes == "" && current == Blank
    {
      if |exercises| > 0 {
        store.AddWorkout(Draft(ToExercises(exercises), notes), id, date);
        exercises := [];
        notes := "";
        current := Blank;
      }
    }
  }
}

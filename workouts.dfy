/** The workout log entities of the store (GymContext) and the folds over a set list. */
module Workouts {
  import opened Seqs
  import opened Units

  /** One stored set: weights are pounds; reps come from parseFloat and need not be whole. */
  datatype SetEntry = SetEntry(reps: real, weight: real)

  datatype Exercise = Exercise(name: string, sets: seq<SetEntry>)

  /** What the logger hands to addWorkout: `{ exercises, notes }`. */
  datatype Draft = Draft(exercises: seq<Exercise>, notes: string)

  /** A stored workout: the draft, normalised to pounds, stamped with an id and a date. */
  datatype Workout = Workout(id: int, date: int, exercises: seq<Exercise>, notes: string)

  /** Every exercise has at least one set (Math.max of no sets would be -Infinity). */
  predicate WellFormed(exs: seq<Exercise>)
  {
    forall i :: 0 <= i < |exs| ==> |exs[i].sets| > 0
  }

  predicate AllWellFormed(ws: seq<Workout>)
  {
    forall i :: 0 <= i < |ws| ==> WellFormed(ws[i].exercises)
  }

  /** The exercise names that occur in a list of exercises. */
  function Names(exs: seq<Exercise>): set<string>
  {
    set i | 0 <= i < |exs| :: exs[i].name
  }

  lemma NamesCons(exs: seq<Exercise>)
    requires exs != []
    ensures Names(exs) == {exs[0].name} + Names(exs[1..])
  {
  }

  /** `Math.max(...sets.map(set => set.weight))`: the heaviest set weight. */
  function MaxWeight(sets: seq<SetEntry>): (m: real)
    requires |sets| > 0
    ensures forall i :: 0 <= i < |sets| ==> sets[i].weight <= m
    ensures exists i :: 0 <= i < |sets| && sets[i].weight == m
    decreases |sets|
  {
    if |sets| == 1 then sets[0].weight
    else
      var rest := MaxWeight(sets[1..]);
      if sets[0].weight >= rest then sets[0].weight else rest
  }

  /** `sets.find(set => set.weight === w)`: the first set of weight `w`, if any. */
  function FindAtWeight(sets: seq<SetEntry>, w: real): (r: Option<nat>)
    ensures r.None? ==> forall i :: 0 <= i < |sets| ==> sets[i].weight != w
    ensures r.Some? ==> r.value < |sets| && sets[r.value].weight == w
    ensures r.Some? ==> forall i :: 0 <= i < r.value ==> sets[i].weight != w
    decreases |sets|
  {
    if sets == [] then None
    else if sets[0].weight == w then Some(0)
    else match FindAtWeight(sets[1..], w)
      case None => None
      case Some(k) => Some(k + 1)
  }

  /** The reps of a new record: those of the first set reaching the maximum, `|| 0` when none is
      found. With numeric reps `x || 0` equals `x`, so only a missing set yields the default. */
  function RepsAtMax(sets: seq<SetEntry>): (r: real)
    requires |sets| > 0
    ensures exists i :: 0 <= i < |sets| && sets[i].weight == MaxWeight(sets) && r == sets[i].reps
                        && forall j :: 0 <= j < i ==> sets[j].weight < MaxWeight(sets)
  {
    match FindAtWeight(sets, MaxWeight(sets))
    case None => assert false; 0.0
    case Some(i) => sets[i].reps
  }

  /** `sets.reduce((sum, s) => sum + s.weight * s.reps, 0)`. */
  function SetsVolume(sets: seq<SetEntry>): real
    decreases |sets|
  {
    if sets == [] then 0.0 else sets[0].weight * sets[0].reps + SetsVolume(sets[1..])
  }

  lemma {:induction false} SetsVolumeAppend(a: seq<SetEntry>, b: seq<SetEntry>)
    ensures SetsVolume(a + b) == SetsVolume(a) + SetsVolume(b)
    decreases |a|
  {
    if a == [] {
      assert a + b == b;
    } else {
      assert (a + b)[0] == a[0];
      assert (a + b)[1..] == a[1..] + b;
      SetsVolumeAppend(a[1..], b);
    }
  }

  /** The set normalisation of addWorkout: the weight converted to pounds, the reps kept. */
  function NormalizeSet(s: SetEntry, u: Unit): SetEntry
  {
    s.(weight := ToPounds(s.weight, u))
  }

  function NormalizeExercise(e: Exercise, u: Unit): Exercise
  {
    e.(sets := seq(|e.sets|, j requires 0 <= j < |e.sets| => NormalizeSet(e.sets[j], u)))
  }

  /** The exercise normalisation of addWorkout: every weight converted from the active unit to pounds. */
  function Normalize(exs: seq<Exercise>, u: Unit): (r: seq<Exercise>)
    ensures |r| == |exs|
    ensures forall i :: 0 <= i < |exs| ==> r[i].name == exs[i].name && |r[i].sets| == |exs[i].sets|
    ensures forall i, j :: 0 <= i < |exs| && 0 <= j < |exs[i].sets| ==>
              r[i].sets[j].reps == exs[i].sets[j].reps
              && Displayed(r[i].sets[j].weight, u) == exs[i].sets[j].weight
    ensures WellFormed(exs) ==> WellFormed(r)
    ensures Names(r) == Names(exs)
  {
    var r := seq(|exs|, i requires 0 <= i < |exs| => NormalizeExercise(exs[i], u));
    assert forall n :: n in Names(r) ==> n in Names(exs) by {
      forall n | n in Names(r) ensures n in Names(exs) {
        var i :| 0 <= i < |r| && r[i].name == n;
        assert exs[i].name == n;
      }
    }
    assert forall n :: n in Names(exs) ==> n in Names(r) by {
      forall n | n in Names(exs) ensures n in Names(r) {
        var i :| 0 <= i < |exs| && exs[i].name == n;
        assert r[i].name == n;
      }
    }
    r
  }

  /** In pounds mode normalisation changes nothing. */
  lemma {:induction false} NormalizeLbs(exs: seq<Exercise>)
    ensures Normalize(exs, Lbs) == exs
  {
    var r := Normalize(exs, Lbs);
    forall i | 0 <= i < |exs| ensures r[i] == exs[i] {
      assert r[i].sets == exs[i].sets;
    }
  }
}

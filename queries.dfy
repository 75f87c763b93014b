/** The read-side queries of the store (GymContext): deletion filter, weekly summary, exercise history. */
module Queries {
  import opened Seqs
  import opened Workouts

  /** The deleteWorkout callback: keep the workouts whose id differs from `id`. */
  function OtherId(id: int): Workout -> bool
  {
    (w: Workout) => w.id != id
  }

  /** The workouts deleteWorkout keeps: no workout with that id survives, every workout with
      another id does, and the survivors are the sublist at the positions of those workouts. */
  function RemoveId(ws: seq<Workout>, id: int): (r: seq<Workout>)
    ensures forall i :: 0 <= i < |r| ==> r[i].id != id
    ensures forall i :: 0 <= i < |ws| && ws[i].id != id ==> ws[i] in r
    ensures |r| == |Kept(ws, OtherId(id))| <= |ws|
    ensures forall i :: 0 <= i < |r| ==> r[i] == ws[Kept(ws, OtherId(id))[i]]
  {
    var r := Filter(ws, OtherId(id));
    FilterIsSublist(ws, OtherId(id));
    assert forall i :: 0 <= i < |ws| && ws[i].id != id ==> OtherId(id)(ws[i]);
    r
  }

  /** Deleting from a concatenation deletes from each part: the survivors stay in order. */
  lemma RemoveIdAppend(a: seq<Workout>, b: seq<Workout>, id: int)
    ensures RemoveId(a + b, id) == RemoveId(a, id) + RemoveId(b, id)
  {
    FilterAppend(a, b, OtherId(id));
  }

  /** Deleting an id no workout has changes nothing. */
  lemma RemoveAbsentId(ws: seq<Workout>, id: int)
    requires forall i :: 0 <= i < |ws| ==> ws[i].id != id
    ensures RemoveId(ws, id) == ws
  {
    FilterKeepsAll(ws, OtherId(id));
  }

  /** `isWithinInterval(date, { start, end })`: the closed interval. */
  predicate InWeek(w: Workout, weekStart: int, weekEnd: int)
  {
    weekStart <= w.date <= weekEnd
  }

  /** Every exercise of every workout, in order. */
  function AllExercises(ws: seq<Workout>): seq<Exercise>
    decreases |ws|
  {
    if ws == [] then [] else ws[0].exercises + AllExercises(ws[1..])
  }

  /** Every set of every exercise, in order. */
  function AllSets(exs: seq<Exercise>): seq<SetEntry>
    decreases |exs|
  {
    if exs == [] then [] else exs[0].sets + AllSets(exs[1..])
  }

  /** `reduce((sum, w) => sum + w.exercises.length, 0)`: the number of exercises of all workouts. */
  function ExerciseCount(ws: seq<Workout>): (r: nat)
    ensures r == |AllExercises(ws)|
    decreases |ws|
  {
    if ws == [] then 0 else |ws[0].exercises| + ExerciseCount(ws[1..])
  }

  /** `exercises.reduce((sum, e) => sum + e.sets.length, 0)`: the number of sets of all exercises. */
  function SetCountOf(exs: seq<Exercise>): (r: nat)
    ensures r == |AllSets(exs)|
    decreases |exs|
  {
    if exs == [] then 0 else |exs[0].sets| + SetCountOf(exs[1..])
  }

  /** The per-workout set counts summed: the number of sets of all exercises of all workouts. */
  function SetCount(ws: seq<Workout>): (r: nat)
    ensures r == |AllSets(AllExercises(ws))|
    decreases |ws|
  {
    if ws == [] then 0
    else
      SetCountOfAppend(ws[0].exercises, AllExercises(ws[1..]));
      SetCountOf(ws[0].exercises) + SetCount(ws[1..])
  }

  /** `exercises.reduce((sum, e) => sum + e.sets.reduce(weight * reps), 0)`: the volume of the
      flat list of sets. */
  function VolumeOf(exs: seq<Exercise>): (r: real)
    ensures r == SetsVolume(AllSets(exs))
    decreases |exs|
  {
    if exs == [] then 0.0
    else
      SetsVolumeAppend(exs[0].sets, AllSets(exs[1..]));
      SetsVolume(exs[0].sets) + VolumeOf(exs[1..])
  }

  /** The per-workout volumes summed: the volume of every set of every workout. */
  function Volume(ws: seq<Workout>): (r: real)
    ensures r == SetsVolume(AllSets(AllExercises(ws)))
    decreases |ws|
  {
    if ws == [] then 0.0
    else
      SetCountOfAppend(ws[0].exercises, AllExercises(ws[1..]));
      SetsVolumeAppend(AllSets(ws[0].exercises), AllSets(AllExercises(ws[1..])));
      VolumeOf(ws[0].exercises) + Volume(ws[1..])
  }

  datatype Summary = Summary(totalWorkouts: nat, totalExercises: nat, totalSets: nat,
                             totalVolume: real, workouts: seq<Workout>)

  /** The getWeeklySummary filter callback: `isWithinInterval` on the closed week. */
  function InWeekTest(weekStart: int, weekEnd: int): Workout -> bool
  {
    (w: Workout) => InWeek(w, weekStart, weekEnd)
  }

  /** getWeeklySummary for the week [weekStart, weekEnd]: the week's workouts are the log's
      workouts dated inside the week, each once and in log order; totalWorkouts is their number,
      and the other totals count exercises and sets and sum weight * reps over all their sets. */
  function WeeklySummary(ws: seq<Workout>, weekStart: int, weekEnd: int): (r: Summary)
    ensures forall i :: 0 <= i < |r.workouts| ==> r.workouts[i] in ws && weekStart <= r.workouts[i].date <= weekEnd
    ensures forall i :: 0 <= i < |ws| && weekStart <= ws[i].date <= weekEnd ==> ws[i] in r.workouts
    ensures r.totalWorkouts == |r.workouts| == |Kept(ws, InWeekTest(weekStart, weekEnd))| <= |ws|
    ensures forall i :: 0 <= i < |r.workouts| ==> r.workouts[i] == ws[Kept(ws, InWeekTest(weekStart, weekEnd))[i]]
    ensures r.totalExercises == |AllExercises(r.workouts)|
    ensures r.totalSets == |AllSets(AllExercises(r.workouts))|
    ensures r.totalVolume == SetsVolume(AllSets(AllExercises(r.workouts)))
  {
    var keep := InWeekTest(weekStart, weekEnd);
    var week := Filter(ws, keep);
    FilterIsSublist(ws, keep);
    assert forall i :: 0 <= i < |ws| && weekStart <= ws[i].date <= weekEnd ==> keep(ws[i]);
    Summary(|week|, ExerciseCount(week), SetCount(week), Volume(week), week)
  }

  lemma {:induction false} SetCountOfAppend(a: seq<Exercise>, b: seq<Exercise>)
    ensures SetCountOf(a + b) == SetCountOf(a) + SetCountOf(b)
    ensures VolumeOf(a + b) == VolumeOf(a) + VolumeOf(b)
    ensures AllSets(a + b) == AllSets(a) + AllSets(b)
    decreases |a|
  {
    if a == [] {
      assert a + b == b;
    } else {
      assert (a + b)[0] == a[0];
      assert (a + b)[1..] == a[1..] + b;
      SetCountOfAppend(a[1..], b);
    }
  }

  lemma {:induction false} FoldsAppend(a: seq<Workout>, b: seq<Workout>)
    ensures ExerciseCount(a + b) == ExerciseCount(a) + ExerciseCount(b)
    ensures SetCount(a + b) == SetCount(a) + SetCount(b)
    ensures Volume(a + b) == Volume(a) + Volume(b)
    decreases |a|
  {
    if a == [] {
      assert a + b == b;
    } else {
      assert (a + b)[0] == a[0];
      assert (a + b)[1..] == a[1..] + b;
      FoldsAppend(a[1..], b);
    }
  }

  /** The summary of a concatenated log is the sum of the summaries of its parts; in particular a
      new workout inside the week adds one workout, its exercises, its sets and its volume. */
  lemma SummaryAppend(a: seq<Workout>, b: seq<Workout>, weekStart: int, weekEnd: int)
    ensures var ra := WeeklySummary(a, weekStart, weekEnd);
            var rb := WeeklySummary(b, weekStart, weekEnd);
            var r := WeeklySummary(a + b, weekStart, weekEnd);
            && r.workouts == ra.workouts + rb.workouts
            && r.totalWorkouts == ra.totalWorkouts + rb.totalWorkouts
            && r.totalExercises == ra.totalExercises + rb.totalExercises
            && r.totalSets == ra.totalSets + rb.totalSets
            && r.totalVolume == ra.totalVolume + rb.totalVolume
  {
    var keep := InWeekTest(weekStart, weekEnd);
    FilterAppend(a, b, keep);
    FoldsAppend(Filter(a, keep), Filter(b, keep));
  }

  // ---- exercise history ----

  /** An entry of getExerciseHistory: the workout's date merged with the matching exercise. */
  datatype HistoryEntry = HistoryEntry(date: int, name: string, sets: seq<SetEntry>)

  /** `exercises.find(e => e.name === name)`. */
  function FindNamed(exs: seq<Exercise>, name: string): (r: Option<nat>)
    ensures r.None? ==> forall i :: 0 <= i < |exs| ==> exs[i].name != name
    ensures r.Some? ==> r.value < |exs| && exs[r.value].name == name
    ensures r.Some? ==> forall i :: 0 <= i < r.value ==> exs[i].name != name
    decreases |exs|
  {
    if exs == [] then None
    else if exs[0].name == name then Some(0)
    else match FindNamed(exs[1..], name)
      case None => None
      case Some(k) => Some(k + 1)
  }

  /** The filter-then-map part of getExerciseHistory, in log order (most recent first). */
  function Matches(ws: seq<Workout>, name: string): (r: seq<HistoryEntry>)
    ensures forall i :: 0 <= i < |r| ==> r[i].name == name
    decreases |ws|
  {
    if ws == [] then []
    else
      var here := match FindNamed(ws[0].exercises, name)
                  case None => []
                  case Some(k) => [HistoryEntry(ws[0].date, name, ws[0].exercises[k].sets)];
      here + Matches(ws[1..], name)
  }

  predicate Mentions(w: Workout, name: string)
  {
    exists i :: 0 <= i < |w.exercises| && w.exercises[i].name == name
  }

  /** The workouts of the log that mention `name`, in log order. */
  function Mentioning(ws: seq<Workout>, name: string): seq<Workout>
  {
    Filter(ws, (w: Workout) => Mentions(w, name))
  }

  /** One entry per workout mentioning the name: its date, and the sets of its first exercise of
      that name. */
  lemma {:induction false} MatchesPerWorkout(ws: seq<Workout>, name: string)
    ensures var m := Matches(ws, name);
            var src := Mentioning(ws, name);
            && |m| == |src|
            && forall i :: 0 <= i < |m| ==>
                 && m[i].date == src[i].date
                 && FindNamed(src[i].exercises, name).Some?
                 && m[i].sets == src[i].exercises[FindNamed(src[i].exercises, name).value].sets
    decreases |ws|
  {
    if ws != [] {
      MatchesPerWorkout(ws[1..], name);
      var keep := (w: Workout) => Mentions(w, name);
      assert Mentioning(ws, name) == (if keep(ws[0]) then [ws[0]] else []) + Mentioning(ws[1..], name);
    }
  }

  predicate SortedByDate(s: seq<HistoryEntry>)
  {
    forall i, j :: 0 <= i < j < |s| ==> s[i].date <= s[j].date
  }

  /** Places `e` before the first entry that is not older, so it precedes entries of equal date. */
  function Insert(e: HistoryEntry, s: seq<HistoryEntry>): (r: seq<HistoryEntry>)
    ensures |r| == |s| + 1
    ensures forall x :: x in r <==> x == e || x in s
    decreases |s|
  {
    if s == [] || e.date <= s[0].date then [e] + s
    else [s[0]] + Insert(e, s[1..])
  }

  lemma {:induction false} InsertMultiset(e: HistoryEntry, s: seq<HistoryEntry>)
    ensures multiset(Insert(e, s)) == multiset([e] + s)
    decreases |s|
  {
    if !(s == [] || e.date <= s[0].date) {
      InsertMultiset(e, s[1..]);
      assert s == [s[0]] + s[1..];
    }
  }

  lemma {:induction false} InsertSorted(e: HistoryEntry, s: seq<HistoryEntry>)
    requires SortedByDate(s)
    ensures SortedByDate(Insert(e, s))
    decreases |s|
  {
    var r := Insert(e, s);
    if s == [] || e.date <= s[0].date {
      forall i, j | 0 <= i < j < |r| ensures r[i].date <= r[j].date {
        if i > 0 {
          assert r[i] == s[i - 1] && r[j] == s[j - 1];
        } else {
          assert r[j] == s[j - 1];
        }
      }
    } else {
      var rest := Insert(e, s[1..]);
      InsertSorted(e, s[1..]);
      assert r == [s[0]] + rest;
      forall i, j | 0 <= i < j < |r| ensures r[i].date <= r[j].date {
        if i > 0 {
          assert r[i] == rest[i - 1] && r[j] == rest[j - 1];
        } else {
          assert r[j] == rest[j - 1];
          assert rest[j - 1] in rest;
          if rest[j - 1] != e {
            assert rest[j - 1] in s[1..];
          }
        }
      }
    }
  }

  /** The stable ascending date sort of `Array.prototype.sort` with comparator `a.date - b.date`. */
  function SortByDate(s: seq<HistoryEntry>): (r: seq<HistoryEntry>)
    ensures multiset(r) == multiset(s)
    ensures SortedByDate(r)
    decreases |s|
  {
    if s == [] then []
    else
      var rest := SortByDate(s[1..]);
      InsertMultiset(s[0], rest);
      InsertSorted(s[0], rest);
      assert s == [s[0]] + s[1..];
      Insert(s[0], rest)
  }

  /** The entries of one date, in order. */
  function OnDate(s: seq<HistoryEntry>, d: int): seq<HistoryEntry>
    decreases |s|
  {
    if s == [] then []
    else (if s[0].date == d then [s[0]] else []) + OnDate(s[1..], d)
  }

  lemma {:induction false} InsertStable(e: HistoryEntry, s: seq<HistoryEntry>, d: int)
    ensures OnDate(Insert(e, s), d) == OnDate([e] + s, d)
    decreases |s|
  {
    assert ([e] + s)[1..] == s;
    if !(s == [] || e.date <= s[0].date) {
      var rest := Insert(e, s[1..]);
      InsertStable(e, s[1..], d);
      assert ([s[0]] + rest)[1..] == rest;
      assert ([e] + s[1..])[1..] == s[1..];
    }
  }

  /** The sort is stable: the entries of any one date keep their relative order. */
  lemma {:induction false} SortStable(s: seq<HistoryEntry>, d: int)
    ensures OnDate(SortByDate(s), d) == OnDate(s, d)
    decreases |s|
  {
    if s != [] {
      var rest := SortByDate(s[1..]);
      SortStable(s[1..], d);
      InsertStable(s[0], rest, d);
      assert ([s[0]] + rest)[1..] == rest;
    }
  }

  /** getExerciseHistory: the matching entries sorted oldest first. */
  function History(ws: seq<Workout>, name: string): (r: seq<HistoryEntry>)
    ensures SortedByDate(r)
    ensures multiset(r) == multiset(Matches(ws, name))
    ensures |r| == |Mentioning(ws, name)|
    ensures forall i :: 0 <= i < |r| ==> r[i].name == name
  {
    var m := Matches(ws, name);
    MatchesPerWorkout(ws, name);
    var r := SortByDate(m);
    assert |r| == |multiset(r)| == |multiset(m)| == |m|;
    forall i | 0 <= i < |r| ensures r[i].name == name {
      assert r[i] in multiset(m);
    }
    r
  }

  /** A name that no workout mentions has an empty history. */
  lemma {:induction false} UnknownNameHistory(ws: seq<Workout>, name: string)
    requires forall i :: 0 <= i < |ws| ==> !Mentions(ws[i], name)
    ensures History(ws, name) == []
  {
    FilterKeepsNone(ws, (w: Workout) => Mentions(w, name));
  }

  /** Every history entry comes from a logged workout: it carries that workout's date and the sets
      of an exercise of that name, so a well-formed log gives entries with at least one set. */
  lemma {:induction false} HistoryFromLog(ws: seq<Workout>, name: string)
    ensures AllWellFormed(ws) ==> forall e :: e in History(ws, name) ==>
              |e.sets| > 0 && exists i :: 0 <= i < |ws| && ws[i].date == e.date
  {
    if AllWellFormed(ws) {
      forall e | e in History(ws, name)
        ensures |e.sets| > 0 && exists i :: 0 <= i < |ws| && ws[i].date == e.date
      {
        assert e in multiset(Matches(ws, name));
        MatchesFromLog(ws, name, e);
      }
    }
  }

  lemma {:induction false} MatchesFromLog(ws: seq<Workout>, name: string, e: HistoryEntry)
    requires AllWellFormed(ws)
    requires e in Matches(ws, name)
    ensures |e.sets| > 0 && exists i :: 0 <= i < |ws| && ws[i].date == e.date
    decreases |ws|
  {
    var m := Matches(ws, name);
    match FindNamed(ws[0].exercises, name)
    case None =>
      assert m == Matches(ws[1..], name);
      MatchesFromLog(ws[1..], name, e);
      var i :| 0 <= i < |ws[1..]| && ws[1..][i].date == e.date;
      assert ws[i + 1].date == e.date;
    case Some(k) =>
      if e == HistoryEntry(ws[0].date, name, ws[0].exercises[k].sets) {
        assert WellFormed(ws[0].exercises);
      } else {
        assert e in Matches(ws[1..], name);
        MatchesFromLog(ws[1..], name, e);
        var i :| 0 <= i < |ws[1..]| && ws[1..][i].date == e.date;
        assert ws[i + 1].date == e.date;
      }
  }
}

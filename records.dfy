/** The personal-record ratchet that addWorkout runs over a new workout's exercises (GymContext). */
module Records {
  import opened Seqs
  import opened Workouts

  datatype Record = Record(weight: real, date: int, reps: real)

  /** The personal-records table, keyed by exercise name. */
  type Table = map<string, Record>

  /** The guard of the ratchet: no record yet, or the exercise's heaviest set is strictly heavier.
      It reads the table as it was before addWorkout started. */
  predicate Beats(before: Table, e: Exercise)
    requires |e.sets| > 0
  {
    e.name !in before || MaxWeight(e.sets) > before[e.name].weight
  }

  function NewRecord(e: Exercise, date: int): (r: Record)
    requires |e.sets| > 0
    ensures r.weight == MaxWeight(e.sets) && r.date == date && r.reps == RepsAtMax(e.sets)
  {
    Record(MaxWeight(e.sets), date, RepsAtMax(e.sets))
  }

  /** One write of the forEach: compared against `before`, written on top of the latest table `acc`.
      Only the exercise's own record can change: it is replaced when the exercise beats `before`. */
  function Step(before: Table, acc: Table, e: Exercise, date: int): (r: Table)
    requires |e.sets| > 0
    ensures forall n :: n != e.name ==> (n in r <==> n in acc) && (n in acc ==> r[n] == acc[n])
    ensures Beats(before, e) ==> e.name in r && r[e.name] == NewRecord(e, date)
    ensures !Beats(before, e) ==> r == acc
  {
    if Beats(before, e) then acc[e.name := NewRecord(e, date)] else acc
  }

  /** All writes of the forEach, in exercise order, starting from the latest table `acc`; no record
      is ever removed. */
  function Ratchet(before: Table, acc: Table, exs: seq<Exercise>, date: int): (r: Table)
    requires WellFormed(exs)
    ensures acc.Keys <= r.Keys
    decreases |exs|
  {
    if exs == [] then acc
    else Ratchet(before, Step(before, acc, exs[0], date), exs[1..], date)
  }

  /** Records of names the workout does not mention are untouched. */
  lemma {:induction false} RatchetUntouched(before: Table, acc: Table, exs: seq<Exercise>, date: int, name: string)
    requires WellFormed(exs)
    requires name !in Names(exs)
    ensures var r := Ratchet(before, acc, exs, date);
            (name in r <==> name in acc) && (name in acc ==> r[name] == acc[name])
    decreases |exs|
  {
    if exs != [] {
      NamesCons(exs);
      RatchetUntouched(before, Step(before, acc, exs[0], date), exs[1..], date, name);
    }
  }

  /** After the ratchet every exercise of the workout has a record: the table's names grow by
      exactly the workout's names (what the chart's exercise selector lists). */
  lemma {:induction false} RatchetKeys(before: Table, acc: Table, exs: seq<Exercise>, date: int)
    requires WellFormed(exs)
    requires before.Keys <= acc.Keys
    ensures Ratchet(before, acc, exs, date).Keys == acc.Keys + Names(exs)
    decreases |exs|
  {
    if exs != [] {
      var next := Step(before, acc, exs[0], date);
      assert next.Keys == acc.Keys + {exs[0].name};
      RatchetKeys(before, next, exs[1..], date);
      NamesCons(exs);
    }
  }

  /** No record ever gets lighter: every write is heavier than the record it replaces in `before`,
      even when one workout names the same exercise twice. */
  lemma {:induction false} RatchetMonotone(before: Table, acc: Table, exs: seq<Exercise>, date: int)
    requires WellFormed(exs)
    requires forall n :: n in before ==> n in acc && acc[n].weight >= before[n].weight
    ensures var r := Ratchet(before, acc, exs, date);
            forall n :: n in before ==> n in r && r[n].weight >= before[n].weight
    decreases |exs|
  {
    if exs != [] {
      RatchetMonotone(before, Step(before, acc, exs[0], date), exs[1..], date);
    }
  }

  /** For an exercise named once in the workout (at index k): its record is replaced by the new
      maximum exactly when there is none yet or the maximum is strictly heavier; otherwise it stays. */
  lemma {:induction false} RatchetSingle(before: Table, acc: Table, exs: seq<Exercise>, date: int, k: nat)
    requires WellFormed(exs)
    requires k < |exs|
    requires forall i :: 0 <= i < |exs| && i != k ==> exs[i].name != exs[k].name
    requires before.Keys <= acc.Keys
    ensures var r := Ratchet(before, acc, exs, date);
            var n := exs[k].name;
            n in r && r[n] == (if Beats(before, exs[k]) then NewRecord(exs[k], date) else acc[n])
    decreases |exs|
  {
    var n := exs[k].name;
    var next := Step(before, acc, exs[0], date);
    if k == 0 {
      forall i | 0 <= i < |exs[1..]| ensures exs[1..][i].name != n {
        assert exs[1..][i] == exs[i + 1];
      }
      RatchetUntouched(before, next, exs[1..], date, n);
    } else {
      assert exs[0].name != n;
      assert exs[1..][k - 1] == exs[k];
      RatchetSingle(before, next, exs[1..], date, k - 1);
    }
  }

  /** For any workout, duplicate names included: when no entry named `n` beats the table as it
      was before the call, the record of `n` is left as it is in the latest table (or stays absent). */
  lemma {:induction false} RatchetNoWrite(before: Table, acc: Table, exs: seq<Exercise>, date: int, n: string)
    requires WellFormed(exs)
    requires forall i :: 0 <= i < |exs| && exs[i].name == n ==> !Beats(before, exs[i])
    ensures var r := Ratchet(before, acc, exs, date);
            (n in r <==> n in acc) && (n in acc ==> r[n] == acc[n])
    decreases |exs|
  {
    if exs != [] {
      assert exs[0].name == n ==> !Beats(before, exs[0]);
      forall i | 0 <= i < |exs[1..]| && exs[1..][i].name == n ensures !Beats(before, exs[1..][i]) {
        assert exs[1..][i] == exs[i + 1];
      }
      RatchetNoWrite(before, Step(before, acc, exs[0], date), exs[1..], date, n);
    }
  }

  /** For any workout, duplicate names included: the record of `n` ends up as the one written by
      the LAST entry named `n` that beats the table as it was before the call, whether or not an
      earlier entry was heavier. */
  lemma {:induction false} RatchetLastWrite(before: Table, acc: Table, exs: seq<Exercise>, date: int, k: nat)
    requires WellFormed(exs)
    requires k < |exs| && Beats(before, exs[k])
    requires forall i :: k < i < |exs| && exs[i].name == exs[k].name ==> !Beats(before, exs[i])
    ensures var r := Ratchet(before, acc, exs, date);
            exs[k].name in r && r[exs[k].name] == NewRecord(exs[k], date)
    decreases |exs|
  {
    var next := Step(before, acc, exs[0], date);
    if k == 0 {
      forall i | 0 <= i < |exs[1..]| && exs[1..][i].name == exs[0].name ensures !Beats(before, exs[1..][i]) {
        assert exs[1..][i] == exs[i + 1];
      }
      RatchetNoWrite(before, next, exs[1..], date, exs[0].name);
    } else {
      assert exs[1..][k - 1] == exs[k];
      forall i | k - 1 < i < |exs[1..]| && exs[1..][i].name == exs[k].name ensures !Beats(before, exs[1..][i]) {
        assert exs[1..][i] == exs[i + 1];
      }
      RatchetLastWrite(before, next, exs[1..], date, k - 1);
    }
  }

  /** The heavier of two optional weights. */
  function Heavier(a: Option<real>, b: Option<real>): Option<real>
  {
    match (a, b)
    case (None, _) => b
    case (_, None) => a
    case (Some(x), Some(y)) => Some(if x >= y then x else y)
  }

  /** The heaviest set of any exercise named `n` in a list of logged exercises, if there is one. */
  function Best(exs: seq<Exercise>, n: string): Option<real>
    requires WellFormed(exs)
    decreases |exs|
  {
    if exs == [] then None
    else Heavier(if exs[0].name == n then Some(MaxWeight(exs[0].sets)) else None, Best(exs[1..], n))
  }

  lemma {:induction false} BestAppend(a: seq<Exercise>, b: seq<Exercise>, n: string)
    requires WellFormed(a) && WellFormed(b)
    ensures WellFormed(a + b)
    ensures Best(a + b, n) == Heavier(Best(a, n), Best(b, n))
    decreases |a|
  {
    if a == [] {
      assert a + b == b;
    } else {
      assert (a + b)[0] == a[0];
      assert (a + b)[1..] == a[1..] + b;
      BestAppend(a[1..], b, n);
    }
  }

  /** A name that occurs once, at index k, has the heaviest set of that one exercise as its best. */
  lemma {:induction false} BestSingle(exs: seq<Exercise>, k: nat)
    requires WellFormed(exs)
    requires k < |exs|
    requires forall i :: 0 <= i < |exs| && i != k ==> exs[i].name != exs[k].name
    ensures Best(exs, exs[k].name) == Some(MaxWeight(exs[k].sets))
    decreases |exs|
  {
    if k == 0 {
      forall i | 0 <= i < |exs[1..]| ensures exs[1..][i].name != exs[0].name {
        assert exs[1..][i] == exs[i + 1];
      }
      BestAbsent(exs[1..], exs[0].name);
    } else {
      assert exs[1..][k - 1] == exs[k];
      BestSingle(exs[1..], k - 1);
    }
  }

  lemma {:induction false} BestAbsent(exs: seq<Exercise>, n: string)
    requires WellFormed(exs)
    requires forall i :: 0 <= i < |exs| ==> exs[i].name != n
    ensures Best(exs, n) == None
    decreases |exs|
  {
    if exs != [] {
      BestAbsent(exs[1..], n);
    }
  }

  /** The table holds, for every exercise logged so far, a record whose weight is its heaviest set. */
  ghost predicate Tracks(t: Table, logged: seq<Exercise>)
    requires WellFormed(logged)
  {
    forall n :: (n in t <==> Best(logged, n).Some?) && (n in t ==> t[n].weight == Best(logged, n).value)
  }

  predicate DistinctNames(exs: seq<Exercise>)
  {
    forall i, j :: 0 <= i < j < |exs| ==> exs[i].name != exs[j].name
  }

  /** When a workout names each exercise once, the ratchet keeps the table equal to the heaviest set
      ever logged per exercise, the workout included. */
  lemma {:induction false} RatchetTracksBest(t: Table, logged: seq<Exercise>, exs: seq<Exercise>, date: int)
    requires WellFormed(logged) && WellFormed(exs)
    requires Tracks(t, logged)
    requires DistinctNames(exs)
    ensures WellFormed(logged + exs)
    ensures Tracks(Ratchet(t, t, exs, date), logged + exs)
  {
    var r := Ratchet(t, t, exs, date);
    forall n
      ensures (n in r <==> Best(logged + exs, n).Some?)
      ensures n in r ==> r[n].weight == Best(logged + exs, n).value
    {
      BestAppend(logged, exs, n);
      if n in Names(exs) {
        var k :| 0 <= k < |exs| && exs[k].name == n;
        BestSingle(exs, k);
        RatchetSingle(t, t, exs, date, k);
      } else {
        BestAbsent(exs, n);
        RatchetUntouched(t, t, exs, date, n);
      }
    }
  }

  /** 100 lb x 5 and 105 lb x 3 on the bench set a 105 lb x 3 record; a later workout of
      95 lb x 8 leaves it in place. */
  lemma BenchPressScenario()
    ensures var first := [Exercise("Bench Press", [SetEntry(5.0, 100.0), SetEntry(3.0, 105.0)])];
            var t1 := Ratchet(map[], map[], first, 1);
            var second := [Exercise("Bench Press", [SetEntry(8.0, 95.0)])];
            && t1 == map["Bench Press" := Record(105.0, 1, 3.0)]
            && Ratchet(t1, t1, second, 2) == t1
  {
    var e1 := Exercise("Bench Press", [SetEntry(5.0, 100.0), SetEntry(3.0, 105.0)]);
    var e2 := Exercise("Bench Press", [SetEntry(8.0, 95.0)]);
    assert e1.sets[1..] == [SetEntry(3.0, 105.0)];
    assert MaxWeight(e1.sets) == 105.0;
    assert RepsAtMax(e1.sets) == 3.0;
    assert [e1][0] == e1 && [e1][1..] == [];
    assert Ratchet(map[], Step(map[], map[], e1, 1), [], 1) == Step(map[], map[], e1, 1);
    var t1 := Ratchet(map[], map[], [e1], 1);
    assert t1 == Step(map[], map[], e1, 1);
    assert MaxWeight(e2.sets) == 95.0;
    assert [e2][0] == e2 && [e2][1..] == [];
    assert Ratchet(t1, Step(t1, t1, e2, 2), [], 2) == Step(t1, t1, e2, 2);
    assert Ratchet(t1, t1, [e2], 2) == Step(t1, t1, e2, 2);
  }

  /** The duplicate-name behaviour of the ratchet: both entries of "Bench Press" are compared with
      the old 100 lb record, so the second, lighter entry (110 lb) overwrites the first (120 lb). */
  lemma DuplicateNameKeepsLastWrite()
    ensures var before := map["Bench Press" := Record(100.0, 1, 5.0)];
            var exs := [Exercise("Bench Press", [SetEntry(3.0, 120.0)]),
                        Exercise("Bench Press", [SetEntry(8.0, 110.0)])];
            Ratchet(before, before, exs, 2)["Bench Press"] == Record(110.0, 2, 8.0)
  {
    var before := map["Bench Press" := Record(100.0, 1, 5.0)];
    var e1 := Exercise("Bench Press", [SetEntry(3.0, 120.0)]);
    var e2 := Exercise("Bench Press", [SetEntry(8.0, 110.0)]);
    var exs := [e1, e2];
    assert MaxWeight(e1.sets) == 120.0;
    assert MaxWeight(e2.sets) == 110.0;
    assert RepsAtMax(e2.sets) == 8.0;
    var t1 := Step(before, before, e1, 2);
    assert exs[1..] == [e2];
    assert [e2][0] == e2 && [e2][1..] == [];
    assert Ratchet(t1, Step(t1, t1, e2, 2), [], 2) == Step(t1, t1, e2, 2);
    assert Ratchet(before, before, exs, 2) == Ratchet(before, Step(before, t1, e2, 2), [], 2);
  }
}

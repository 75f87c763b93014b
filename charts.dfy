/** The derived data of ProgressCharts: the exercise selector, one chart point per history entry,
    and the peak and session statistics. */
module Charts {
  import opened Units
  import opened Workouts
  import opened Records
  import opened Queries

  /** `Object.keys(personalRecords)`: the exercises the selector offers. */
  function ExerciseOptions(t: Table): set<string>
  {
    t.Keys
  }

  /** After a workout is added every one of its exercises can be selected, and nothing else is new. */
  lemma OptionsAfterWorkout(t: Table, exs: seq<Exercise>, date: int)
    requires WellFormed(exs)
    ensures ExerciseOptions(Ratchet(t, t, exs, date)) == ExerciseOptions(t) + Names(exs)
  {
    RatchetKeys(t, t, exs, date);
  }

  /** `selectedExercise ? getExerciseHistory(selectedExercise) : []`. */
  function SelectedHistory(ws: seq<Workout>, selected: string): (r: seq<HistoryEntry>)
    ensures selected == "" ==> r == []
    ensures selected != "" ==> r == History(ws, selected)
    ensures selected != "" ==> |r| == |Mentioning(ws, selected)|
    ensures forall i :: 0 <= i < |r| ==> r[i].name == selected
    ensures SortedByDate(r)
    ensures AllWellFormed(ws) ==> forall i :: 0 <= i < |r| ==> |r[i].sets| > 0
  {
    if selected == "" then []
    else
      var h := History(ws, selected);
      HistoryFromLog(ws, selected);
      assert forall i :: 0 <= i < |h| ==> h[i] in h;
      h
  }

  /** A chart point: the date (its 'MMM d' label is not modelled), the heaviest set and the volume,
      both rounded for display. */
  datatype ChartPoint = ChartPoint(date: int, maxWeight: int, totalVolume: int)

  predicate HasSets(h: seq<HistoryEntry>)
  {
    forall i :: 0 <= i < |h| ==> |h[i].sets| > 0
  }

  /** One point of `chartData`: the heaviest set, displayed (no set displays heavier, and one
      displays exactly that), and the volume, displayed within half a unit of its exact value. */
  function PointOf(e: HistoryEntry, u: Unit): (p: ChartPoint)
    requires |e.sets| > 0
    ensures p.date == e.date
    ensures forall j :: 0 <= j < |e.sets| ==> ConvertWeight(e.sets[j].weight, u) <= p.maxWeight
    ensures exists j :: 0 <= j < |e.sets| && p.maxWeight == ConvertWeight(e.sets[j].weight, u)
    ensures Displayed(SetsVolume(e.sets), u) - 0.5 < p.totalVolume as real <= Displayed(SetsVolume(e.sets), u) + 0.5
  {
    var heaviest := MaxWeight(e.sets);
    forall j | 0 <= j < |e.sets| ensures ConvertWeight(e.sets[j].weight, u) <= ConvertWeight(heaviest, u) {
      ConvertWeightMonotone(e.sets[j].weight, heaviest, u);
    }
    ChartPoint(e.date, ConvertWeight(heaviest, u), ConvertWeight(SetsVolume(e.sets), u))
  }

  /** The `chartData` map: one point per history entry, in history order. */
  function ChartData(h: seq<HistoryEntry>, u: Unit): (r: seq<ChartPoint>)
    requires HasSets(h)
    ensures |r| == |h|
    ensures forall i :: 0 <= i < |h| ==> r[i] == PointOf(h[i], u)
  {
    seq(|h|, i requires 0 <= i < |h| => PointOf(h[i], u))
  }

  /** `Math.max(...xs)` over a non-empty list of integers. */
  function MaxOf(xs: seq<int>): (m: int)
    requires |xs| > 0
    ensures forall i :: 0 <= i < |xs| ==> xs[i] <= m
    ensures exists i :: 0 <= i < |xs| && xs[i] == m
    decreases |xs|
  {
    if |xs| == 1 then xs[0]
    else
      var rest := MaxOf(xs[1..]);
      if xs[0] >= rest then xs[0] else rest
  }

  /** The "Peak Weight" statistic: the largest point maximum (shown only when there are points). */
  function PeakWeight(points: seq<ChartPoint>): (m: int)
    requires |points| > 0
    ensures forall i :: 0 <= i < |points| ==> points[i].maxWeight <= m
    ensures exists i :: 0 <= i < |points| && points[i].maxWeight == m
  {
    var xs := seq(|points|, i requires 0 <= i < |points| => points[i].maxWeight);
    assert forall i :: 0 <= i < |points| ==> xs[i] == points[i].maxWeight;
    MaxOf(xs)
  }

  /** The "Max Volume" statistic: the largest point volume. */
  function PeakVolume(points: seq<ChartPoint>): (m: int)
    requires |points| > 0
    ensures forall i :: 0 <= i < |points| ==> points[i].totalVolume <= m
    ensures exists i :: 0 <= i < |points| && points[i].totalVolume == m
  {
    var xs := seq(|points|, i requires 0 <= i < |points| => points[i].totalVolume);
    assert forall i :: 0 <= i < |points| ==> xs[i] == points[i].totalVolume;
    MaxOf(xs)
  }

  /** The peak weight is the heaviest set of the whole history, rounded for display: no set shows
      heavier, and some set shows exactly the peak. */
  lemma PeakIsHeaviestSet(h: seq<HistoryEntry>, u: Unit)
    requires |h| > 0 && HasSets(h)
    ensures var p := PeakWeight(ChartData(h, u));
            && (forall i, j :: 0 <= i < |h| && 0 <= j < |h[i].sets| ==> ConvertWeight(h[i].sets[j].weight, u) <= p)
            && (exists i, j :: 0 <= i < |h| && 0 <= j < |h[i].sets| && ConvertWeight(h[i].sets[j].weight, u) == p)
  {
    var points := ChartData(h, u);
    var p := PeakWeight(points);
    var i :| 0 <= i < |points| && points[i].maxWeight == p;
    assert points[i] == PointOf(h[i], u);
    var j :| 0 <= j < |h[i].sets| && points[i].maxWeight == ConvertWeight(h[i].sets[j].weight, u);
    forall i', j' | 0 <= i' < |h| && 0 <= j' < |h[i'].sets|
      ensures ConvertWeight(h[i'].sets[j'].weight, u) <= p
    {
      assert points[i'] == PointOf(h[i'], u);
    }
  }

  /** The "Sessions" statistic `chartData.length`: the number of workouts that mention the
      selected exercise. */
  lemma SessionCount(ws: seq<Workout>, selected: string, u: Unit)
    requires selected != ""
    requires AllWellFormed(ws)
    ensures |ChartData(SelectedHistory(ws, selected), u)| == |Mentioning(ws, selected)|
  {
  }
}

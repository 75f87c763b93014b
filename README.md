# GymTrack workout store, workout form and progress charts — a Dafny model

GymTrack is a single-user fitness tracker. This project models its logic:

- The store (`GymContext`). It holds three things:
  - the workout log, most recent first;
  - the personal-records table, keyed by exercise name;
  - the display unit, pounds or kilograms.

  It converts weights for display. `addWorkout` normalises kilogram entries to pounds, prepends the new workout and runs the personal-record ratchet. It also deletes workouts by id, clears all data, and answers the weekly-summary and exercise-history queries.
- The workout form (`WorkoutLogger`). It is a small state machine over the exercise being edited, the exercises already added to the workout, and the notes. It hands the finished workout to the store.
- The progress charts (`ProgressCharts`). They list the selectable exercises, build one chart point per history entry (heaviest set and volume, rounded for display), and compute the peak and session statistics.

Weights and reps are exact `real`s. The factor 2.20462 is therefore exact, and `Math.round(x)` is `(x + 0.5).Floor`. Workout ids, dates and the week bounds are `int`s supplied by the caller.

Modules:

- `Seqs`: `Option`, the order-preserving filter, and removal at an index.
- `Units`: the unit, its toggle, rounding and conversion.
- `Workouts`: sets, exercises and workouts, plus the folds over a set list.
- `Records`: the ratchet.
- `Queries`: deletion, the weekly summary, and the exercise history with its stable sort.
- `Gym`: the `Store` class.
- `Logger`: the `WorkoutLogger` class and its form values.
- `Charts`: the chart data and statistics.

Three behaviours of the code are worth knowing before reading the model:

- Sets missing a weight or reps are dropped by the form (`addExerciseToWorkout`), not by the store: `addWorkout` stores whatever it is given. The model does the same.
- Displaying a weight in kilograms and entering the displayed value again lands within 0.5 kg of the stored weight, which is 0.5 × 2.20462 lb, because the rounding happens in kilograms. `Units.DisplayThenEnter` proves that bound.
- Records are not always the maximum over all workouts. `addWorkout` compares every entry of one workout with the table as it was before the call, and the last entry that beats that table writes the record (`Records.RatchetLastWrite`), even if an earlier entry of the same name was heavier (`Records.DuplicateNameKeepsLastWrite`). The maximum property is guaranteed when each workout names an exercise once (`Records.RatchetTracksBest`); with a repeated name it fails only when the last entry that beats the old record is lighter than an earlier one. Records never get lighter (`Records.RatchetMonotone`).

## Model

| member | source | states |
|---|---|---|
| `Units.Toggled` | src/contexts/GymContext.jsx:43-45 | the toggle always changes the unit (pounds to kilograms, kilograms to pounds) |
| `Units.ToggleTwice` | src/contexts/GymContext.jsx:43-45 | toggling twice restores the original unit |
| `Units.Round` | src/contexts/GymContext.jsx:49-51 | Math.round gives the integer r with x - 0.5 < r <= x + 0.5 |
| `Units.RoundUnique` | src/contexts/GymContext.jsx:49-51 | that integer is the only one in the window, so rounding is determined by it |
| `Units.ConvertWeight` | src/contexts/GymContext.jsx:47-52 | the displayed integer is within half a unit of w in pounds mode and of w / 2.20462 in kilograms mode |
| `Units.ToPounds` | src/contexts/GymContext.jsx:62 | a kilogram entry is stored as w × 2.20462 (dividing again gives the entry back); a pound entry is stored unchanged |
| `Units.ConvertWeightMonotone` | src/contexts/GymContext.jsx:47-52 | a heavier stored weight never displays smaller |
| `Units.EnterThenDisplay` | src/contexts/GymContext.jsx:47-62 | entering a weight and displaying it in the same unit gives the entered weight, rounded |
| `Units.DisplayThenEnter` | src/contexts/GymContext.jsx:47-62 | displaying in kilograms and entering the result again lands within 0.5 × 2.20462 lb of the stored weight |
| `Units.FiftyKilograms` | src/contexts/GymContext.jsx:47-62 | 50 kg is stored as 110.231 lb and displays as 50 kg |
| `Workouts.MaxWeight` | src/contexts/GymContext.jsx:77 | the maximum is at least every set weight and equals one of them |
| `Workouts.FindAtWeight` | src/contexts/GymContext.jsx:85 | `find` returns the first index whose weight matches, or none when no set matches |
| `Workouts.RepsAtMax` | src/contexts/GymContext.jsx:85 | a record's reps are those of the first set that reaches the maximum weight |
| `Workouts.SetsVolumeAppend` | src/contexts/GymContext.jsx:113 | the weight × reps volume of two set lists joined is the sum of their volumes |
| `Workouts.Normalize` | src/contexts/GymContext.jsx:56-65 | normalisation keeps the number of exercises, their names, the number of sets and the reps; each stored weight divides back to the entered weight in the active unit (before display rounding) |
| `Workouts.NormalizeLbs` | src/contexts/GymContext.jsx:62 | in pounds mode normalisation changes nothing |
| `Records.NewRecord` | src/contexts/GymContext.jsx:82-86 | a new record carries the exercise's maximum weight, the workout's date, and the reps of the first set reaching that maximum |
| `Records.Step` | src/contexts/GymContext.jsx:76-87 | one pass of the forEach: the exercise's record is replaced by the new record when there is none in the table as it was before the call or its maximum is strictly heavier (`Beats`, :79); otherwise the table is unchanged; no other name's record changes |
| `Records.Ratchet` | src/contexts/GymContext.jsx:75-89 | the whole forEach, each pass writing on top of the previous one; no record is ever removed |
| `Records.RatchetNoWrite` | src/contexts/GymContext.jsx:75-89 | for any workout, duplicate names included: when no entry of a name beats the table as it was before the call, that name's record stays as it was (or stays absent) |
| `Records.RatchetLastWrite` | src/contexts/GymContext.jsx:79-87 | for any workout, duplicate names included: a name's record ends up as the one written by its last entry that beats the table as it was before the call, even when an earlier entry was heavier |
| `Records.RatchetUntouched` | src/contexts/GymContext.jsx:75-89 | records of exercises the workout does not name are unchanged, and no record appears for them |
| `Records.RatchetKeys` | src/contexts/GymContext.jsx:75-89 | after the ratchet the table's names are the old names plus the workout's exercise names |
| `Records.RatchetMonotone` | src/contexts/GymContext.jsx:79 | no record gets lighter, even when one workout names an exercise twice |
| `Records.RatchetSingle` | src/contexts/GymContext.jsx:79-87 | for an exercise named once, the record is replaced by {max, date, reps at max} exactly when there is no record or the max is strictly heavier; otherwise it stays |
| `Records.RatchetTracksBest` | src/contexts/GymContext.jsx:75-89 | if each exercise is named once per workout, a table holding the heaviest set ever logged per exercise keeps holding it after the ratchet |
| `Records.BenchPressScenario` | src/contexts/GymContext.jsx:75-89 | 100×5 and 105×3 set a 105 lb × 3 record; a later 95×8 leaves it in place |
| `Records.DuplicateNameKeepsLastWrite` | src/contexts/GymContext.jsx:79-80 | with a 100 lb record, one workout with 120 lb then 110 lb bench entries leaves a 110 lb record, because both entries are compared with the old table and the later write wins |
| `Queries.RemoveId` | src/contexts/GymContext.jsx:93 | after deletion no workout has that id, every workout with another id is still there, and the survivors are the sublist at exactly the positions of those workouts, in log order |
| `Queries.RemoveIdAppend` | src/contexts/GymContext.jsx:93 | deletion distributes over concatenation, so the surviving workouts keep their order |
| `Queries.RemoveAbsentId` | src/contexts/GymContext.jsx:93 | deleting an id no workout has changes nothing |
| `Queries.WeeklySummary` | src/contexts/GymContext.jsx:96-124 | the summary's workouts are the logged workouts dated in [weekStart, weekEnd] (isWithinInterval, :101-104), each once and in log order; totalWorkouts is their number; totalExercises, totalSets and totalVolume are the number of exercises, the number of sets and the sum of weight × reps over every set of those workouts |
| `Queries.ExerciseCount` | src/contexts/GymContext.jsx:106 | the exercise-count fold equals the length of the flat list of all the workouts' exercises |
| `Queries.SetCountOf` | src/contexts/GymContext.jsx:108-109 | the inner set-count fold over one workout's exercises equals the length of the flat list of their sets |
| `Queries.SetCount` | src/contexts/GymContext.jsx:107-110 | the outer set-count fold equals the length of the flat list of every set of every workout |
| `Queries.VolumeOf` | src/contexts/GymContext.jsx:111-113 | the inner volume fold over one workout's exercises equals the weight × reps volume of the flat list of their sets |
| `Queries.Volume` | src/contexts/GymContext.jsx:110-115 | the outer volume fold equals the weight × reps volume of the flat list of every set of every workout |
| `Queries.SummaryAppend` | src/contexts/GymContext.jsx:101-115 | the summary of a concatenated log is the concatenation of the workouts and the sum of every total |
| `Queries.FindNamed` | src/contexts/GymContext.jsx:131 | `find` returns the first exercise of that exact name, or none when no exercise has it |
| `Queries.Matches` | src/contexts/GymContext.jsx:127-132 | every entry the filter-then-map produces carries the requested name |
| `Queries.MatchesPerWorkout` | src/contexts/GymContext.jsx:127-132 | there is one entry per workout that mentions the name, in log order, with that workout's date and the sets of its first exercise of that name |
| `Queries.SortByDate` | src/contexts/GymContext.jsx:133 | the sort returns a permutation of its input, sorted by ascending date |
| `Queries.SortStable` | src/contexts/GymContext.jsx:133 | the sort is stable: the entries of any date keep their relative order |
| `Queries.History` | src/contexts/GymContext.jsx:126-134 | the history is sorted oldest first, is a permutation of the matching entries, has one entry per workout mentioning the name, and every entry has that name |
| `Queries.UnknownNameHistory` | src/contexts/GymContext.jsx:126-134 | a name no workout mentions has an empty history |
| `Queries.HistoryFromLog` | src/contexts/GymContext.jsx:127-132 | on a well-formed log (every exercise has a set, as the store keeps it), every history entry has the date of a logged workout and at least one set |
| `Gym.Stamp` | src/contexts/GymContext.jsx:67-71 | the stored workout has the given id and date, the draft's notes and the normalised exercises |
| `Gym.Store.constructor` | src/contexts/GymContext.jsx:16-29 | the store starts with the saved log, records and unit |
| `Gym.Store.ToggleUnit` | src/contexts/GymContext.jsx:43-45 | the unit flips; the log and records are unchanged |
| `Gym.Store.AddWorkout` | src/contexts/GymContext.jsx:54-90 | the log grows by the stamped, normalised workout at its head with the old log as its tail; the records are the ratchet of the old table over the new workout; the table gains exactly the workout's names; no record gets lighter; the unit is unchanged |
| `Gym.Store.DeleteWorkout` | src/contexts/GymContext.jsx:92-94 | the log loses exactly the workouts with that id; the records and the unit are unchanged |
| `Gym.Store.ClearAllData` | src/contexts/GymContext.jsx:136-141 | the log and the table are empty; the unit is unchanged |
| `Logger.Entered` | src/components/WorkoutLogger.jsx:30 | `parseFloat(value)` falling back to `value` keeps a number only when it is non-zero and otherwise keeps the raw text; the field is truthy exactly when it is a number or the text is non-empty |
| `Logger.UpdateSets` | src/components/WorkoutLogger.jsx:26-33 | only the named field of set `index` changes; every other set and the other field keep their values |
| `Logger.ValidSetsAsWritten` | src/components/WorkoutLogger.jsx:44 | the filter as written keeps exactly the sets whose reps and weight are truthy (`Truthy`, `IsValidSetAsWritten`), each once and in their original order |
| `Logger.ValidSets` | src/components/WorkoutLogger.jsx:43-44 | the corrected filter keeps exactly the sets with non-zero numeric reps and weight; it is empty exactly when no set is valid; the kept sets are in their original order, each once |
| `Logger.ValidSetIsValidAsWritten` | src/components/WorkoutLogger.jsx:43-44 | every set the corrected test accepts is also accepted as written |
| `Logger.ZeroWeightAcceptedAsWritten` | src/components/WorkoutLogger.jsx:30 | typing 5 reps and weight 0 leaves the text "0" in the field; the test as written accepts the set, the corrected test does not |
| `Logger.ToExercise` | src/components/WorkoutLogger.jsx:45 | a pending exercise is handed over with the same name and sets, and every set has non-zero numbers |
| `Logger.ToExercises` | src/components/WorkoutLogger.jsx:56 | the exercises handed to addWorkout keep names, order and set counts; each has a set; every rep and weight is a non-zero number |
| `Logger.WorkoutLogger.constructor` | src/components/WorkoutLogger.jsx:12-17 | the form starts with no exercises, empty notes, and a blank exercise with one empty set |
| `Logger.WorkoutLogger.SetName` | src/components/WorkoutLogger.jsx:75 | only the current exercise's name changes |
| `Logger.WorkoutLogger.SetNotes` | src/components/WorkoutLogger.jsx:165 | only the notes change |
| `Logger.WorkoutLogger.AddSet` | src/components/WorkoutLogger.jsx:19-24 | one empty set is appended; the name and existing sets are unchanged |
| `Logger.WorkoutLogger.UpdateSet` | src/components/WorkoutLogger.jsx:26-33 | the current sets become the single-field update; the name, exercises and notes are unchanged |
| `Logger.WorkoutLogger.RemoveSet` | src/components/WorkoutLogger.jsx:35-40 | the set at the index is removed and the rest keep their order; an out-of-range index changes nothing |
| `Logger.WorkoutLogger.AddExerciseToWorkout` | src/components/WorkoutLogger.jsx:42-48 | uses the corrected set test `IsValidSet` (non-zero numbers), not the truthiness test written at :43-44 (see Findings): with a name and a valid set, the exercise with only its valid sets is appended and the form is reset; otherwise nothing changes; every pending exercise stays named with only valid sets |
| `Logger.WorkoutLogger.RemoveExercise` | src/components/WorkoutLogger.jsx:50-52 | the exercise at the index is removed and the rest keep their order; an out-of-range index changes nothing |
| `Logger.WorkoutLogger.SaveWorkout` | src/components/WorkoutLogger.jsx:54-61 | with no exercises nothing changes; otherwise the store gains exactly one workout built from the exercises and notes, and the form is reset |
| `Seqs.RemoveAt` | src/components/WorkoutLogger.jsx:38 | filtering by index removes exactly the element at the index; an out-of-range index gives the list unchanged |
| `Seqs.Filter` | src/contexts/GymContext.jsx:93 | `Array.prototype.filter` keeps only accepted elements and keeps every accepted element |
| `Seqs.Kept` | src/contexts/GymContext.jsx:93 | the positions a filter keeps are accepted positions of the list, in strictly increasing order |
| `Seqs.KeptCovers` | src/contexts/GymContext.jsx:93 | no accepted position is missing, so the positions are exactly the accepted ones, once each |
| `Seqs.FilterIsSublist` | src/contexts/GymContext.jsx:93 | the filter's result is the order-preserving sublist at those positions: as many elements as accepted positions, the i-th being the element at the i-th position |
| `Charts.OptionsAfterWorkout` | src/components/ProgressCharts.jsx:10 | after a workout the selector offers the old exercises plus exactly the workout's exercises |
| `Charts.SelectedHistory` | src/components/ProgressCharts.jsx:11 | with no selection the history is empty; otherwise it is the exercise's history (`Queries.History`): one entry per workout mentioning the exercise, every entry with that name, sorted by date |
| `Charts.PointOf` | src/components/ProgressCharts.jsx:13-22 | a point's maxWeight is the displayed heaviest set (no set displays heavier, one displays exactly that); its totalVolume is within half a unit of the displayed volume |
| `Charts.ChartData` | src/components/ProgressCharts.jsx:13-23 | one point per history entry, in history order |
| `Charts.MaxOf` | src/components/ProgressCharts.jsx:97 | `Math.max` of a non-empty list is at least every element and equals one of them |
| `Charts.PeakWeight` | src/components/ProgressCharts.jsx:97 | the peak is at least every point's maxWeight and equals one of them |
| `Charts.PeakVolume` | src/components/ProgressCharts.jsx:103 | the maximum volume is at least every point's totalVolume and equals one of them |
| `Charts.PeakIsHeaviestSet` | src/components/ProgressCharts.jsx:97 | the peak is the heaviest set of the whole history, rounded for display |
| `Charts.SessionCount` | src/components/ProgressCharts.jsx:109 | the session count is the number of workouts that mention the selected exercise |

## Left out

- Persistence is not modelled: the `localStorage` reads and writes and the JSON parse/stringify (src/contexts/GymContext.jsx:16-41, 139-140). The saved state becomes the `Store` constructor's parameters.
- Clock and date-library calls are not modelled: `Date.now()`, `new Date().toISOString()`, `startOfWeek`, `endOfWeek`, `isWithinInterval` and `format`. Ids, dates and the week bounds are `int` parameters. The chart's 'MMM d' date label is not built.
- `parseFloat` is not modelled. Its result is passed to `UpdateSet` as `parsed` (`None` stands for NaN), so the model does not tie that result to the raw text.
- React mechanics are not modelled: `useState`, `useEffect` and context. Each handler is a method that runs to completion. The ratchet still compares against the table as it was before the call.
- `avgReps` (src/components/ProgressCharts.jsx:21) is left out. It is floating-point division formatted with `toFixed`.
- IEEE double rounding is left out. Weights are exact reals. Sums are right folds, which equal the source's left-to-right `reduce` on exact reals.
- Gym.Store.AddWorkout: requires every exercise to have at least one set. `Math.max()` of no sets is -Infinity, which a real cannot hold. The only caller, `SaveWorkout`, never passes such an exercise (`Logger.ToExercises`).
- Gym.Store.constructor: requires the saved log to give every exercise a set, for the same reason.
- The unit has only two values. A corrupt saved unit token is out of scope: the source treats it as pounds and toggles it to 'lbs'.
- Exercise names are plain map keys. In JavaScript a name such as "constructor" finds an inherited property, so `!personalRecords[name]` is false for it. That case is not modelled.
- Charts.ExerciseOptions: a set, so the order of `Object.keys` is not modelled.
- The form's remove-set button appears only when there is more than one set. That is rendering, so `RemoveSet` models the handler alone.
- Not modelled because they are rendering only: the JSX markup, the recharts configuration, src/components/WeeklySummary.jsx, src/components/PersonalRecords.jsx, and the `window.confirm` in src/App.jsx.
- String weights are not modelled. Because the form uses the corrected validity test (see Findings), the store only ever receives numbers. The as-written path, where the text "0" reaches the store and meets `Math.max` and `===`, is not modelled.

## Findings

| source | as written | input that shows it | evidently intended | confidence | as-written member | corrected member |
|---|---|---|---|---|---|---|
| src/components/WorkoutLogger.jsx:30 | `parseFloat(value)`, falling back to `value` when falsy, keeps the raw text "0" when the number is 0. The set test `s.reps && s.weight` at lines 43-44 treats the non-empty text "0" as truthy. | Set 0 gets reps "5" and weight "0". The weight field holds "0", the set passes the test, and a 0-weight set is added to the workout. | A set counts only with non-zero reps and weight. The test rejects a numeric 0 and an empty field, so a typed 0 should fail too. | medium, not executed | `Logger.ValidSetsAsWritten`, `Logger.ZeroWeightAcceptedAsWritten` | `Logger.ValidSets`, `Logger.WorkoutLogger.AddExerciseToWorkout` |

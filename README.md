# Workout log of the fitness tracker, modelled in Dafny

The fitness tracker is a small Streamlit app (`app.py`). It keeps a training log, a table with the
columns Datum (date), Übung (exercise), Gewicht (weight in kg) and Wiederholungen (repetitions).
The log lives in the session state and is written to a CSV file.

The app has two tabs:

- **Training**: a form whose submission appends one entry when an exercise name was entered. The
  whole log is then saved. Without a name the form shows an error and changes nothing. Below the
  form, the history panel lists the distinct exercise names. For the chosen name it shows that
  exercise's entries, newest first.
- **Dashboard**: for a non-empty log, it shows the total volume (weight × reps) per date as a chart
  series with dates ascending, and the five most recent entries.

This project models that core:

- `log.dfy`, module `WorkoutLog`: the entry record, per-entry volume and the log's total volume.
- `order.dfy`, module `DateOrder`: sorting by date, most recent first (an insertion sort).
- `progress.dfy`, module `Progress`: the per-date volume series, the recent-entries table and the
  dashboard's empty-log guard.
- `history.dfy`, module `ExerciseHistory`: the distinct exercise list, the per-exercise history and
  the panel's guard.
- `training.dfy`, module `Training`: the form inputs and the `Session` class. Its field `log` is the
  session-state table and its field `stored` is the content of the data file. `Submit` is the
  form-submit handler.

Modelling choices:

- Dates are integer day numbers.
- Weights and volumes are exact reals. Repetitions are integers.
- The form's number fields cannot go below zero. So a form's weight has the type `Kilograms`
  (a real of at least 0) and its reps are a `nat`.
- Entries already in the log (loaded from the file) are not constrained. Non-negativity of the log
  is an invariant that `Submit` preserves.

`app.py` has no training programs, placeholder entries or deletion of entries. Its only check on
a submission is that the exercise name is non-empty, so a name made only of spaces is accepted.

## Model

| member | source | states |
|---|---|---|
| `WorkoutLog.Volume` | app.py:37 | an entry's volume is weight × reps: non-negative when weight and reps are, and 0 when either is 0 |
| `WorkoutLog.TotalVolumeNonNegative` | app.py:37 | a log of non-negative entries has non-negative total volume |
| `WorkoutLog.TotalVolumeAppend` | app.py:37 | appending an entry adds exactly its weight × reps to the total volume |
| `DateOrder.InsertDesc` | app.py:46 | inserting into a date-descending sequence keeps it date-descending and adds exactly that entry (multiset) |
| `DateOrder.SortByDateDesc` | app.py:46 | the result is date-descending and a permutation of the log (same multiset, same length) |
| `Progress.AddToDay` | app.py:41 | adding a volume to a date keeps the series strictly ascending, with no date twice; the set of dates gains exactly that date |
| `Progress.DailyVolume` | app.py:41 | the series is strictly ascending by date, and its dates are exactly the distinct dates of the log |
| `Progress.AddToDayVolume` | app.py:41 | adding v to date d raises d's value by v and leaves every other date's value unchanged |
| `Progress.AddToDayTotal` | app.py:41 | adding v to a date raises the sum of the series by v |
| `Progress.RowVolumeAt` | app.py:41 | in a series without repeated dates, a row's value is the value the series gives for its date |
| `Progress.DailyVolumePerDate` | app.py:37-41 | for every date, the series gives the sum of weight × reps over the log entries with that date (and 0 when there are none) |
| `Progress.DailyVolumeRows` | app.py:37-41 | every row's value is the summed volume of the log entries with that row's date |
| `Progress.DailyVolumeTotal` | app.py:37-41 | the row values sum to the total volume of the log |
| `Progress.AscendingRowCount` | app.py:41 | a series with strictly ascending dates has as many rows as distinct dates |
| `Progress.DailyVolumeRowCount` | app.py:41 | the series has exactly one row per distinct date of the log |
| `Progress.DayVolumeNonNegative` | app.py:37-41 | with non-negative entries, no date's volume is negative |
| `Progress.Recent` | app.py:46 | the recent table has min(5, size of log) entries, is date-descending and is a sub-multiset of the log |
| `Progress.RecentBound` | app.py:46 | cutting a date-descending sequence after n entries leaves out no entry dated later than one kept |
| `Progress.RecentAreNewest` | app.py:46 | no entry left out of the recent table is dated later than any entry it shows |
| `Progress.Dashboard` | app.py:32-46 | the dashboard shows data exactly when the log is non-empty; then the chart is the per-date volume series (at least one row) and the table is the recent-entries table (1 to 5 entries) |
| `ExerciseHistory.Exercises` | app.py:74 | the list holds every exercise name occurring in the log and nothing else, each exactly once |
| `ExerciseHistory.ExercisesInFirstSeenOrder` | app.py:74 | names are listed in order of first appearance: every occurrence of a later name is preceded by an occurrence of each earlier name |
| `ExerciseHistory.Matching` | app.py:77 | the selection holds exactly the log's entries for the name, each as often as in the log |
| `ExerciseHistory.History` | app.py:77-78 | the history is date-descending and holds exactly the log's entries for the name, each as often as in the log |
| `ExerciseHistory.ListedExerciseHasHistory` | app.py:74-78 | every name offered in the selection box has a non-empty history |
| `ExerciseHistory.HistoryPanel` | app.py:73-78 | the panel is shown exactly when the log is non-empty; then its options are the distinct exercise names, its selection is the chosen name, and its table is that name's history, which is non-empty |
| `Training.FormEntry` | app.py:53-63 | the new entry's date, exercise, weight and reps are the form's inputs; its weight, reps and volume are non-negative |
| `Training.SubmissionVolume` | app.py:62-64 | an accepted submission raises the log's total volume by exactly weight × reps, so it never lowers it |
| `Training.Session.constructor` | app.py:21-22 | a session starts with the loaded log in memory and in the file |
| `Training.Session.Submit` | app.py:60-68 | with a name: exactly one entry from the inputs is appended after the unchanged earlier entries, the log is saved, and the outcome is a success. Without a name: log and file are unchanged and the outcome is an error. Non-negativity and write-through are preserved |

## Left out

- Streamlit presentation is not modelled: page configuration, the sidebar menu, titles, messages,
  the chart and table widgets (app.py:18, 25-31, 33, 40, 42, 45, 50-58, 71-72, 75). The empty-log
  guards (app.py:32, 73) and the name list (app.py:74) are modelled. The message of a submit is
  modelled only as an `Outcome` value. The name chosen in the selection box is a parameter of
  `HistoryPanel`. Its `requires` reflects that the box only returns one of its options.
- CSV persistence is not modelled (app.py:9-15). Loading is the constructor's parameter, and saving
  is the assignment of the log to `stored`. The CSV format, date parsing and whether the file exists
  are file I/O and are not modelled.
- The line-37 assignment adds a `Volumen` column to the shared session table in place. This side
  effect is left out; volume is a derived function. So the model does not capture that this column
  is later shown in the tables and written to the file, nor that it is empty for rows added after it.
- `pd.to_datetime` on the form date is not modelled. Dates are abstract day numbers.
- Floating-point rounding of weights and of volume sums is not modelled. Arithmetic is exact.
- `DateOrder.SortByDateDesc`: the pandas default sort (quicksort) does not fix the order of entries
  that share a date. The model fixes one tie order and promises nothing about it. Its proved
  properties (date-descending, permutation, the newest five) hold whatever order ties take. Which of several equally dated entries
  the recent table shows at the cut is the model's choice.
- Missing values are not modelled: every entry has a date and numeric weight and reps. In pandas a
  row with a missing date is dropped from the grouping, and a row with a missing weight or reps has
  a missing volume that the sum skips, so its date still gets a row (0 if all its volumes are missing).
- `Training.Session.Submit`: saving is assumed to succeed, and only one session is modelled. In the
  app the session table is replaced (app.py:64) before the file is written (app.py:65), so a failed
  write leaves the new entry in memory but not in the file. Each browser session loads its own copy
  once (app.py:21-22) and rewrites the whole file, so the last writer wins.

/**
 * The exercise history panel of the training tab: the list of distinct exercise
 * names (in order of first appearance) to choose from, and the entries of the
 * chosen exercise sorted by date, most recent first.
 */
module ExerciseHistory {
  import opened WorkoutLog
  import opened DateOrder

  /** Some entry of the log is for exercise name. */
  predicate Logged(log: seq<Entry>, name: string)
  {
    exists k :: 0 <= k < |log| && log[k].exercise == name
  }

  /** No name occurs twice. */
  predicate NoDuplicates(names: seq<string>)
  {
    forall i, j :: 0 <= i < j < |names| ==> names[i] != names[j]
  }

  /**
   * The distinct exercise names of the log, each name once, in the order in
   * which the names first appear in the log.
   */
  function Exercises(log: seq<Entry>): (r: seq<string>)
    ensures forall name :: name in r <==> Logged(log, name)
    ensures NoDuplicates(r)
  {
    if log == [] then []
    else
      var p := log[..|log| - 1];
      var u := Exercises(p);
      var n := log[|log| - 1].exercise;
      assert forall name :: Logged(log, name) <==> Logged(p, name) || name == n by {
        forall name ensures Logged(log, name) <==> Logged(p, name) || name == n {
          if Logged(p, name) {
            var k :| 0 <= k < |p| && p[k].exercise == name;
            assert log[k] == p[k];
          }
          if Logged(log, name) && name != n {
            var k :| 0 <= k < |log| && log[k].exercise == name;
            assert p[k] == log[k];
          }
        }
      }
      if n in u then u else u + [n]
  }

  /**
   * Options are listed in first-appearance order: wherever the log holds the
   * later option, an entry of every earlier option precedes it.
   */
  lemma {:induction false} ExercisesInFirstSeenOrder(log: seq<Entry>)
    ensures forall i, j, k :: 0 <= i < j < |Exercises(log)| && 0 <= k < |log| && log[k].exercise == Exercises(log)[j] ==>
      exists m :: 0 <= m < k && log[m].exercise == Exercises(log)[i]
  {
    if log != [] {
      var p := log[..|log| - 1];
      var u := Exercises(p);
      var n := log[|log| - 1].exercise;
      var r := Exercises(log);
      ExercisesInFirstSeenOrder(p);
      assert r == if n in u then u else u + [n];
      forall i, j, k | 0 <= i < j < |r| && 0 <= k < |log| && log[k].exercise == r[j]
        ensures exists m :: 0 <= m < k && log[m].exercise == r[i]
      {
        assert i < |u| && r[i] == u[i];
        assert Logged(p, u[i]);
        if k < |p| {
          assert p[k] == log[k] && Logged(p, r[j]);
          assert j < |u| && r[j] == u[j];
          var m :| 0 <= m < k && p[m].exercise == u[i];
          assert log[m] == p[m];
        } else {
          var m :| 0 <= m < |p| && p[m].exercise == u[i];
          assert log[m] == p[m];
        }
      }
    }
  }

  /** The entries of exercise name (the boolean-mask row selection). */
  function Matching(log: seq<Entry>, name: string): (r: seq<Entry>)
    ensures forall e :: multiset(r)[e] == if e.exercise == name then multiset(log)[e] else 0
  {
    if log == [] then []
    else
      assert log == [log[0]] + log[1..];
      if log[0].exercise == name then [log[0]] + Matching(log[1..], name)
      else Matching(log[1..], name)
  }

  /**
   * The history table of exercise name: exactly the log's entries for name,
   * each as often as the log holds it, sorted by date descending.
   */
  function History(log: seq<Entry>, name: string): (r: seq<Entry>)
    ensures SortedDesc(r)
    ensures forall e :: multiset(r)[e] == if e.exercise == name then multiset(log)[e] else 0
  {
    SortByDateDesc(Matching(log, name))
  }

  /** Every exercise offered in the list has a history of at least one entry. */
  lemma ListedExerciseHasHistory(log: seq<Entry>, name: string)
    requires name in Exercises(log)
    ensures |History(log, name)| >= 1
  {
    var k :| 0 <= k < |log| && log[k].exercise == name;
    assert log[k] in multiset(log);
    assert log[k] in multiset(History(log, name));
  }

  /** What the history panel shows: nothing for an empty log, otherwise the options, the selection and its table. */
  datatype HistoryView = NoHistory | Detail(options: seq<string>, selected: string, table: seq<Entry>)

  /**
   * The history panel for the name the selection box returns, which is always
   * one of the offered options when there are any. The panel is shown exactly
   * when the log is not empty, and then its table is never empty.
   */
  function HistoryPanel(log: seq<Entry>, selected: string): (v: HistoryView)
    requires log != [] ==> selected in Exercises(log)
    ensures v.NoHistory? <==> log == []
    ensures v.Detail? ==> v.options == Exercises(log) && v.selected == selected && v.table == History(log, selected)
    ensures v.Detail? ==> v.selected in v.options && |v.table| >= 1 && NoDuplicates(v.options)
  {
    if log == [] then NoHistory
    else
      ListedExerciseHasHistory(log, selected);
      Detail(Exercises(log), selected, History(log, selected))
  }
}

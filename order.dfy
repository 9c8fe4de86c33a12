/**
 * Sorting a log by date, most recent first: the order in which the dashboard's
 * "recent entries" table and the exercise history table present entries.
 */
module DateOrder {
  import opened WorkoutLog

  /** No entry is dated later than an entry before it. */
  predicate SortedDesc(s: seq<Entry>)
  {
    forall i, j :: 0 <= i < j < |s| ==> s[i].date >= s[j].date
  }

  /** Places e into a date-descending sequence, ahead of the entries dated on or before it. */
  function InsertDesc(e: Entry, s: seq<Entry>): (r: seq<Entry>)
    requires SortedDesc(s)
    ensures SortedDesc(r)
    ensures multiset(r) == multiset(s) + multiset{e}
    ensures r[0] == e || (s != [] && r[0] == s[0])
  {
    if s == [] then [e]
    else if s[0].date <= e.date then [e] + s
    else
      assert s == [s[0]] + s[1..];
      [s[0]] + InsertDesc(e, s[1..])
  }

  /** The log sorted by date descending: a permutation of it in date-descending order. */
  function SortByDateDesc(log: seq<Entry>): (r: seq<Entry>)
    ensures SortedDesc(r)
    ensures multiset(r) == multiset(log)
    ensures |r| == |log|
  {
    if log == [] then []
    else
      assert log == [log[0]] + log[1..];
      InsertDesc(log[0], SortByDateDesc(log[1..]))
  }
}

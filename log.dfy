/**
 * The workout log: an ordered sequence of entries (date, exercise, weight in kg,
 * repetitions), the per-entry training volume and the total volume of a log.
 */
module WorkoutLog {

  /** A calendar date as a day number; only the order of days matters. */
  type Day = int

  /** One row of the log: the columns Datum, Übung, Gewicht and Wiederholungen. */
  datatype Entry = Entry(date: Day, exercise: string, weight: real, reps: int)

  /**
   * The volume of one entry, weight times repetitions (the Volumen column):
   * never negative for a non-negative weight and rep count, and 0 when either is 0.
   */
  function Volume(e: Entry): (v: real)
    ensures e.weight >= 0.0 && e.reps >= 0 ==> v >= 0.0
    ensures e.weight == 0.0 || e.reps == 0 ==> v == 0.0
  {
    e.weight * (e.reps as real)
  }

  /** The sum of the volumes of all entries of a log. */
  function TotalVolume(log: seq<Entry>): real
  {
    if log == [] then 0.0 else Volume(log[0]) + TotalVolume(log[1..])
  }

  /** Every entry has a non-negative weight and a non-negative rep count. */
  predicate AllNonNegative(log: seq<Entry>)
  {
    forall i :: 0 <= i < |log| ==> log[i].weight >= 0.0 && log[i].reps >= 0
  }

  /** The total volume of a log with non-negative entries is non-negative. */
  lemma {:induction false} TotalVolumeNonNegative(log: seq<Entry>)
    requires AllNonNegative(log)
    ensures TotalVolume(log) >= 0.0
  {
    if log != [] {
      TotalVolumeNonNegative(log[1..]);
    }
  }

  /** Appending one entry adds exactly its volume to the total. */
  lemma {:induction false} TotalVolumeAppend(log: seq<Entry>, e: Entry)
    ensures TotalVolume(log + [e]) == TotalVolume(log) + Volume(e)
  {
    if log != [] {
      assert (log + [e])[1..] == log[1..] + [e];
      TotalVolumeAppend(log[1..], e);
    }
  }
}

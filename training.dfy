/**
 * The training form and the session that holds the log. Submitting the form
 * with an exercise name appends exactly one entry from the form's inputs and
 * writes the whole log to the store; submitting it without a name reports an
 * error and changes nothing.
 */
module Training {
  import opened WorkoutLog

  /** A weight the form's number field can return: it does not go below 0 kg. */
  type Kilograms = w: real | w >= 0.0 witness 0.0

  /** The inputs of the training form: date, exercise name, weight and repetitions (at least 0). */
  datatype Form = Form(date: Day, exercise: string, weight: Kilograms, reps: nat)

  /** The message shown after a submission. */
  datatype Outcome = Saved(exercise: string) | MissingName

  /** The entry a submitted form becomes; its volume is never negative. */
  function FormEntry(form: Form): (e: Entry)
    ensures e.date == form.date && e.exercise == form.exercise
    ensures e.weight == form.weight && e.reps == form.reps
    ensures e.weight >= 0.0 && e.reps >= 0 && Volume(e) >= 0.0
  {
    Entry(form.date, form.exercise, form.weight, form.reps)
  }

  /** An accepted submission adds the volume of the form's entry to the log's total. */
  lemma SubmissionVolume(log: seq<Entry>, form: Form)
    ensures TotalVolume(log + [FormEntry(form)]) == TotalVolume(log) + form.weight * (form.reps as real)
    ensures TotalVolume(log + [FormEntry(form)]) >= TotalVolume(log)
  {
    TotalVolumeAppend(log, FormEntry(form));
  }

  /**
   * The running app: log is the in-memory table of the session state, stored
   * is what the data file holds. Every change of the log is written through.
   */
  class Session {
    var log: seq<Entry>
    var stored: seq<Entry>

    /** The data file holds the in-memory log. */
    ghost predicate Persisted()
      reads this
    {
      stored == log
    }

    /** Starts a session from what was loaded from the data file (the empty log when there is none). */
    constructor (loaded: seq<Entry>)
      ensures log == loaded && stored == loaded
      ensures Persisted()
    {
      log := loaded;
      stored := loaded;
    }

    /**
     * Handles one press of the submit button. With a name: exactly one entry,
     * made from the inputs, is appended after the unchanged earlier entries and
     * the log is written to the store. Without one: nothing changes.
     */
    method Submit(form: Form) returns (outcome: Outcome)
      modifies this
      ensures form.exercise != "" ==> outcome == Saved(form.exercise)
      ensures form.exercise != "" ==> log == old(log) + [FormEntry(form)] && stored == log
      ensures form.exercise == "" ==> outcome == MissingName && log == old(log) && stored == old(stored)
      ensures |log| == |old(log)| + (if form.exercise != "" then 1 else 0)
      ensures log[..|old(log)|] == old(log)
      ensures AllNonNegative(old(log)) ==> AllNonNegative(log)
      ensures old(Persisted()) ==> Persisted()
    {
      if form.exercise != "" {
        var entry := FormEntry(form);
        log := log + [entry];
        stored := log;
        outcome := Saved(form.exercise);
      } else {
        outcome := MissingName;
      }
    }
  }
}

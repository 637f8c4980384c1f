/**
 * The workout-logging form of src/frontend/src/components/WorkoutLogger.tsx:
 * an editable list of exercise rows, each with a list of set rows whose reps
 * and weight are the raw text of their inputs, and the submit step that turns
 * the rows into the entries sent with `logWorkout`.
 *
 * `parseInt` and `parseFloat` are parameters: each returns `None` where the
 * JavaScript function returns NaN.
 */
module WorkoutLogger {
  import opened Domain
  import Seqs
  import Queries

  datatype SetForm = SetForm(reps: string, weight: string)

  datatype ExerciseForm = ExerciseForm(exerciseName: string, muscleGroup: string, category: string, sets: seq<SetForm>)

  /** The text fields of a row that `updateExercise` is called with. */
  datatype RowField = ExerciseNameField | MuscleGroupField | CategoryField

  datatype SetField = RepsField | WeightField

  const BlankSet: SetForm := SetForm("", "")

  /** The row the form starts with and that "add another exercise" appends. */
  const BlankRow: ExerciseForm := ExerciseForm("", "", "Gym", [BlankSet])

  /** The shape every edit the page offers keeps: at least one row, and at least one set in each row. */
  ghost predicate Shaped(rows: seq<ExerciseForm>)
  {
    |rows| >= 1 && forall i :: 0 <= i < |rows| ==> |rows[i].sets| >= 1
  }

  /** `library.find((e) => e.name === name)`, as the index of the first exact match. */
  function FindIndex(library: seq<Exercise>, name: string): (r: Option<nat>)
    ensures r.Some? ==> r.value < |library| && library[r.value].name == name
    ensures r.Some? ==> forall j :: 0 <= j < r.value ==> library[j].name != name
    ensures r.None? <==> forall j :: 0 <= j < |library| ==> library[j].name != name
  {
    if library == [] then None
    else if library[0].name == name then Some(0)
    else match FindIndex(library[1..], name)
      case None => None
      case Some(k) => Some(k + 1)
  }

  // ---------------------------------------------------------------------
  // Submitting

  /** A set row counts only when both its inputs are non-empty (JavaScript truthiness). */
  predicate IsComplete(s: SetForm)
  {
    s.reps != "" && s.weight != ""
  }

  /** A row is submitted when it has a name and at least one complete set. */
  predicate IsIncluded(row: ExerciseForm)
  {
    row.exerciseName != "" && exists k :: 0 <= k < |row.sets| && IsComplete(row.sets[k])
  }

  /** `parse(text) || 0`: an unparseable input (NaN) and a parsed zero both give zero. */
  function OrZero<T>(parsed: Option<T>, zero: T): T
  {
    if parsed.Some? then parsed.value else zero
  }

  /** `s || fallback` on a string. */
  function OrDefault(s: string, fallback: string): string
  {
    if s != "" then s else fallback
  }

  function ToSet(s: SetForm, parseInt: string -> Option<int>, parseFloat: string -> Option<real>): Set_
  {
    Set_(OrZero(parseFloat(s.weight), 0.0), OrZero(parseInt(s.reps), 0))
  }

  function ToEntry(row: ExerciseForm, parseInt: string -> Option<int>, parseFloat: string -> Option<real>): WorkoutEntry
  {
    WorkoutEntry(
      Seqs.Map((s: SetForm) => ToSet(s, parseInt, parseFloat), Seqs.Filter(IsComplete, row.sets)),
      Exercise(row.exerciseName, OrDefault(row.category, "Gym"), OrDefault(row.muscleGroup, "Other")))
  }

  /** The `entries` pipeline of `handleSubmit`: keep the included rows, convert each. */
  function BuildEntries(rows: seq<ExerciseForm>, parseInt: string -> Option<int>, parseFloat: string -> Option<real>): seq<WorkoutEntry>
  {
    Seqs.Map((row: ExerciseForm) => ToEntry(row, parseInt, parseFloat), Seqs.Filter(IsIncluded, rows))
  }

  /** One row contributes one entry when it is included and none otherwise, ... */
  lemma BuildEntriesSingle(row: ExerciseForm, parseInt: string -> Option<int>, parseFloat: string -> Option<real>)
    ensures BuildEntries([row], parseInt, parseFloat) == if IsIncluded(row) then [ToEntry(row, parseInt, parseFloat)] else []
  {
    assert [row][1..] == [];
  }

  /** ... and rows contribute in order: together the two lemmas determine the submitted entries. */
  lemma BuildEntriesAppend(a: seq<ExerciseForm>, b: seq<ExerciseForm>, parseInt: string -> Option<int>, parseFloat: string -> Option<real>)
    ensures BuildEntries(a + b, parseInt, parseFloat) == BuildEntries(a, parseInt, parseFloat) + BuildEntries(b, parseInt, parseFloat)
  {
    Seqs.FilterAppend(IsIncluded, a, b);
    Seqs.MapAppend((row: ExerciseForm) => ToEntry(row, parseInt, parseFloat), Seqs.Filter(IsIncluded, a), Seqs.Filter(IsIncluded, b));
  }

  /**
   * How one entry is built from its row: the name as typed, an empty muscle
   * group as "Other" and an empty category as "Gym", and the complete sets
   * in their order with unparseable numbers read as zero.
   */
  lemma ToEntryFields(row: ExerciseForm, parseInt: string -> Option<int>, parseFloat: string -> Option<real>)
    ensures var e := ToEntry(row, parseInt, parseFloat);
      && e.exercise.name == row.exerciseName
      && e.exercise.muscleGroup == (if row.muscleGroup == "" then "Other" else row.muscleGroup)
      && e.exercise.category == (if row.category == "" then "Gym" else row.category)
      && |e.sets| == |Seqs.Filter(IsComplete, row.sets)|
      && forall i :: 0 <= i < |e.sets| ==>
           var s := Seqs.Filter(IsComplete, row.sets)[i];
           && IsComplete(s)
           && e.sets[i].reps == (if parseInt(s.reps).Some? then parseInt(s.reps).value else 0)
           && e.sets[i].weight == (if parseFloat(s.weight).Some? then parseFloat(s.weight).value else 0.0)
  {
    Seqs.FilterMembers(IsComplete, row.sets);
  }

  /** Every submitted entry has a name, a muscle group, a category and at least one set. */
  lemma EntriesWellFormed(rows: seq<ExerciseForm>, parseInt: string -> Option<int>, parseFloat: string -> Option<real>)
    ensures forall e :: e in BuildEntries(rows, parseInt, parseFloat) ==>
      e.exercise.name != "" && e.exercise.muscleGroup != "" && e.exercise.category != "" && |e.sets| >= 1
  {
    var kept := Seqs.Filter(IsIncluded, rows);
    Seqs.FilterMembers(IsIncluded, rows);
    forall e | e in BuildEntries(rows, parseInt, parseFloat)
      ensures e.exercise.name != "" && e.exercise.muscleGroup != "" && e.exercise.category != "" && |e.sets| >= 1
    {
      var i :| 0 <= i < |kept| && e == ToEntry(kept[i], parseInt, parseFloat);
      var row := kept[i];
      assert IsIncluded(row);
      var k :| 0 <= k < |row.sets| && IsComplete(row.sets[k]);
      Seqs.FilterMembers(IsComplete, row.sets);
      assert row.sets[k] in Seqs.Filter(IsComplete, row.sets);
    }
  }

  /** No entries are built exactly when no row is included. */
  lemma EntriesEmptyIff(rows: seq<ExerciseForm>, parseInt: string -> Option<int>, parseFloat: string -> Option<real>)
    ensures BuildEntries(rows, parseInt, parseFloat) == [] <==> forall i :: 0 <= i < |rows| ==> !IsIncluded(rows[i])
  {
    if forall i :: 0 <= i < |rows| ==> !IsIncluded(rows[i]) {
      Seqs.FilterNone(IsIncluded, rows);
    } else {
      var i :| 0 <= i < |rows| && IsIncluded(rows[i]);
      Seqs.FilterMembers(IsIncluded, rows);
      assert rows[i] in Seqs.Filter(IsIncluded, rows);
    }
  }

  /**
   * When exactly one set of one named row is complete, the submission is
   * exactly one entry with exactly that one set, whatever incomplete rows
   * surround it.
   */
  lemma OneCompleteSet(rows: seq<ExerciseForm>, i: int, j: int, parseInt: string -> Option<int>, parseFloat: string -> Option<real>)
    requires 0 <= i < |rows| && 0 <= j < |rows[i].sets|
    requires rows[i].exerciseName != "" && IsComplete(rows[i].sets[j])
    requires forall a, b :: 0 <= a < |rows| && 0 <= b < |rows[a].sets| && (a, b) != (i, j) ==> !IsComplete(rows[a].sets[b])
    ensures var entries := BuildEntries(rows, parseInt, parseFloat);
      |entries| == 1 && entries[0].sets == [ToSet(rows[i].sets[j], parseInt, parseFloat)]
  {
    forall a | 0 <= a < |rows| && a != i
      ensures !IsIncluded(rows[a])
    {
      assert forall b :: 0 <= b < |rows[a].sets| ==> !IsComplete(rows[a].sets[b]);
    }
    Seqs.FilterSingle(IsIncluded, rows, i);
    Seqs.FilterSingle(IsComplete, rows[i].sets, j);
  }

  datatype SubmitCheck = Rejected(message: string) | Ready(entries: seq<WorkoutEntry>)

  /** The local validation of `handleSubmit`: an empty entry list is refused before any call. */
  function CheckSubmit(rows: seq<ExerciseForm>, parseInt: string -> Option<int>, parseFloat: string -> Option<real>): (r: SubmitCheck)
    ensures r.Rejected? <==> forall i :: 0 <= i < |rows| ==> !IsIncluded(rows[i])
    ensures r.Rejected? ==> r.message == "Please add at least one exercise with sets"
    ensures r.Ready? ==> r.entries == BuildEntries(rows, parseInt, parseFloat) && |r.entries| >= 1
  {
    EntriesEmptyIff(rows, parseInt, parseFloat);
    var entries := BuildEntries(rows, parseInt, parseFloat);
    if |entries| == 0 then Rejected("Please add at least one exercise with sets") else Ready(entries)
  }

  /** What the user sees after pressing "complete workout". */
  datatype SubmitOutcome = ValidationError(message: string) | NavigatedToHistory | LogFailed

  // ---------------------------------------------------------------------
  // The form state

  class Logger {
    var exercises: seq<ExerciseForm>

    constructor ()
      ensures exercises == [BlankRow]
      ensures Shaped(exercises)
    {
      exercises := [BlankRow];
    }

    /** Appends one blank row; the existing rows are untouched. */
    method AddExercise()
      modifies this
      ensures exercises == old(exercises) + [BlankRow]
      ensures old(Shaped(exercises)) ==> Shaped(exercises)
    {
      exercises := exercises + [BlankRow];
    }

    /**
     * Deletes the row at `index`, keeping the others in order; any other
     * index leaves the rows as they are. The page offers the button only
     * while there is more than one row, which keeps the shape.
     */
    method RemoveExercise(index: int)
      modifies this
      ensures exercises == Seqs.RemoveAt(old(exercises), index)
      ensures 0 <= index < |old(exercises)| ==> exercises == old(exercises)[..index] + old(exercises)[index + 1..]
      ensures !(0 <= index < |old(exercises)|) ==> exercises == old(exercises)
      ensures old(Shaped(exercises)) && old(|exercises|) > 1 ==> Shaped(exercises)
    {
      exercises := Seqs.RemoveAt(exercises, index);
    }

    /**
     * Sets one text field of row `index`. Setting the name also copies the
     * muscle group and category of the first library exercise with exactly
     * that name, when there is one.
     */
    method UpdateExercise(index: int, field: RowField, value: string, library: seq<Exercise>)
      requires 0 <= index < |exercises|
      modifies this
      ensures |exercises| == |old(exercises)|
      ensures forall i :: 0 <= i < |exercises| && i != index ==> exercises[i] == old(exercises)[i]
      ensures exercises[index].sets == old(exercises)[index].sets
      ensures field == ExerciseNameField ==>
        var was := old(exercises)[index];
        var found := FindIndex(library, value);
        exercises[index] ==
          if found.Some? then was.(exerciseName := value, muscleGroup := library[found.value].muscleGroup, category := library[found.value].category)
          else was.(exerciseName := value)
      ensures field == MuscleGroupField ==> exercises[index] == old(exercises)[index].(muscleGroup := value)
      ensures field == CategoryField ==> exercises[index] == old(exercises)[index].(category := value)
      ensures old(Shaped(exercises)) ==> Shaped(exercises)
    {
      var row := exercises[index];
      if field == ExerciseNameField {
        row := row.(exerciseName := value);
        var found := FindIndex(library, value);
        if found.Some? {
          var e := library[found.value];
          row := row.(muscleGroup := e.muscleGroup, category := e.category);
        }
      } else if field == MuscleGroupField {
        row := row.(muscleGroup := value);
      } else {
        row := row.(category := value);
      }
      exercises := exercises[index := row];
    }

    /** Appends one blank set to row `index` only. */
    method AddSet(index: int)
      requires 0 <= index < |exercises|
      modifies this
      ensures exercises == old(exercises)[index := old(exercises)[index].(sets := old(exercises)[index].sets + [BlankSet])]
      ensures old(Shaped(exercises)) ==> Shaped(exercises)
    {
      var row := exercises[index];
      exercises := exercises[index := row.(sets := row.sets + [BlankSet])];
    }

    /**
     * Deletes set `setIndex` of row `index` only (an index that names no set
     * changes nothing). The button is offered only while the row has more
     * than one set, which keeps the shape.
     */
    method RemoveSet(index: int, setIndex: int)
      requires 0 <= index < |exercises|
      modifies this
      ensures exercises == old(exercises)[index := old(exercises)[index].(sets := Seqs.RemoveAt(old(exercises)[index].sets, setIndex))]
      ensures old(Shaped(exercises)) && old(|exercises[index].sets|) > 1 ==> Shaped(exercises)
    {
      var row := exercises[index];
      exercises := exercises[index := row.(sets := Seqs.RemoveAt(row.sets, setIndex))];
    }

    /** Sets one field of one set; every other set and row is untouched. */
    method UpdateSet(index: int, setIndex: int, field: SetField, value: string)
      requires 0 <= index < |exercises| && 0 <= setIndex < |exercises[index].sets|
      modifies this
      ensures |exercises| == |old(exercises)|
      ensures forall i :: 0 <= i < |exercises| && i != index ==> exercises[i] == old(exercises)[i]
      ensures var was := old(exercises)[index];
        var s := was.sets[setIndex];
        exercises[index] == was.(sets := was.sets[setIndex := if field == RepsField then s.(reps := value) else s.(weight := value)])
      ensures old(Shaped(exercises)) ==> Shaped(exercises)
    {
      var row := exercises[index];
      var s := row.sets[setIndex];
      s := if field == RepsField then s.(reps := value) else s.(weight := value);
      exercises := exercises[index := row.(sets := row.sets[setIndex := s])];
    }

    /**
     * `handleSubmit`: an empty entry list is rejected with a message and
     * nothing is sent; otherwise the entries go through the `logWorkout`
     * mutation, and the page moves to the history view when it succeeds.
     */
    method Submit(cache: Queries.QueryCache, actor: Option<Queries.Server>, remoteOk: bool,
                  parseInt: string -> Option<int>, parseFloat: string -> Option<real>) returns (r: SubmitOutcome)
      requires cache.Valid()
      modifies cache
      ensures cache.Valid()
      ensures CheckSubmit(exercises, parseInt, parseFloat).Rejected? ==>
        && r == ValidationError("Please add at least one exercise with sets")
        && cache.requests == old(cache.requests) && cache.stale == old(cache.stale) && cache.data == old(cache.data)
      ensures CheckSubmit(exercises, parseInt, parseFloat).Ready? ==>
        var entries := BuildEntries(exercises, parseInt, parseFloat);
        && (r == if actor.Some? && remoteOk then NavigatedToHistory else LogFailed)
        && cache.data == old(cache.data)
        && (actor.Some? ==> cache.requests == old(cache.requests) + [Queries.LogWorkoutRequest(entries)])
        && (actor.None? ==> cache.requests == old(cache.requests) && cache.stale == old(cache.stale))
        && (actor.Some? && remoteOk ==> cache.stale == Queries.MarkStale(old(cache.stale), {Queries.WorkoutHistoryKey, Queries.ProgressStatsKey}))
        && (actor.Some? && !remoteOk ==> cache.stale == old(cache.stale))
    {
      var check := CheckSubmit(exercises, parseInt, parseFloat);
      if check.Rejected? {
        return ValidationError(check.message);
      }
      var result := cache.Mutate(Queries.LogWorkout(check.entries), actor, remoteOk);
      r := if result.Done? then NavigatedToHistory else LogFailed;
    }
  }
}

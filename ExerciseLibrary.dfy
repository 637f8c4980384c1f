/**
 * The exercise-library browser of src/frontend/src/components/ExerciseLibrary.tsx:
 * the built-in catalogue shown while the server library is empty, the
 * search-and-group filter, the bucketing of the filtered exercises by muscle
 * group, and the handlers that update the page's state cells.
 */
module ExerciseLibrary {
  import opened Domain
  import Seqs
  import Text
  import Queries

  /** The fixed group list, in display order. */
  const MuscleGroups: seq<string> := ["Chest", "Back", "Legs", "Shoulders", "Arms", "Core", "Home Workout"]

  /** The built-in catalogue, in display order. */
  const DefaultExercises: seq<Exercise> := [
    Exercise("Bench Press", "Gym", "Chest"),
    Exercise("Incline Dumbbell Press", "Gym", "Chest"),
    Exercise("Cable Flyes", "Gym", "Chest"),
    Exercise("Push-ups", "Bodyweight", "Chest"),
    Exercise("Deadlift", "Gym", "Back"),
    Exercise("Pull-ups", "Bodyweight", "Back"),
    Exercise("Barbell Rows", "Gym", "Back"),
    Exercise("Lat Pulldown", "Gym", "Back"),
    Exercise("Squats", "Gym", "Legs"),
    Exercise("Leg Press", "Gym", "Legs"),
    Exercise("Romanian Deadlift", "Gym", "Legs"),
    Exercise("Leg Curls", "Gym", "Legs"),
    Exercise("Calf Raises", "Gym", "Legs"),
    Exercise("Overhead Press", "Gym", "Shoulders"),
    Exercise("Lateral Raises", "Gym", "Shoulders"),
    Exercise("Front Raises", "Gym", "Shoulders"),
    Exercise("Face Pulls", "Gym", "Shoulders"),
    Exercise("Bicep Curls", "Gym", "Arms"),
    Exercise("Tricep Dips", "Bodyweight", "Arms"),
    Exercise("Hammer Curls", "Gym", "Arms"),
    Exercise("Skull Crushers", "Gym", "Arms"),
    Exercise("Planks", "Bodyweight", "Core"),
    Exercise("Russian Twists", "Bodyweight", "Core"),
    Exercise("Hanging Leg Raises", "Bodyweight", "Core"),
    Exercise("Cable Crunches", "Gym", "Core"),
    Exercise("Bodyweight Squats", "Bodyweight", "Home Workout"),
    Exercise("Lunges", "Bodyweight", "Home Workout"),
    Exercise("Burpees", "Bodyweight", "Home Workout"),
    Exercise("Mountain Climbers", "Bodyweight", "Home Workout"),
    Exercise("Jumping Jacks", "Bodyweight", "Home Workout"),
    Exercise("Sit-ups", "Bodyweight", "Home Workout"),
    Exercise("Leg Raises", "Bodyweight", "Home Workout"),
    Exercise("Superman Hold", "Bodyweight", "Home Workout"),
    Exercise("Wall Sits", "Bodyweight", "Home Workout"),
    Exercise("High Knees", "Bodyweight", "Home Workout")
  ]

  /** Every catalogue exercise belongs to one of the listed groups, so each is shown in some bucket. */
  lemma DefaultsInMuscleGroups()
    ensures forall i :: 0 <= i < |DefaultExercises| ==> DefaultExercises[i].muscleGroup in MuscleGroups
  {
  }

  /** `exercises.length > 0 ? exercises : defaultExercises`: never an empty list, and never a merge of the two. */
  function AllExercises(server: seq<Exercise>): (r: seq<Exercise>)
    ensures |r| > 0
    ensures |server| > 0 ==> r == server
    ensures |server| == 0 ==> r == DefaultExercises
  {
    if |server| > 0 then server else DefaultExercises
  }

  /** The lower-cased name contains the lower-cased search term. */
  predicate MatchesSearch(e: Exercise, searchTerm: string)
  {
    Text.Includes(Text.Lower(e.name), Text.Lower(searchTerm))
  }

  /**
   * `!selectedGroup || exercise.muscleGroup === selectedGroup`. The empty
   * string is falsy like `null`; the page never selects it.
   */
  predicate MatchesGroup(e: Exercise, selectedGroup: Option<string>)
  {
    selectedGroup.None? || selectedGroup.value == "" || e.muscleGroup == selectedGroup.value
  }

  predicate Matches(e: Exercise, searchTerm: string, selectedGroup: Option<string>)
  {
    MatchesSearch(e, searchTerm) && MatchesGroup(e, selectedGroup)
  }

  /** The filter callback of `filteredExercises`. */
  function MatchFn(searchTerm: string, selectedGroup: Option<string>): Exercise -> bool
  {
    (e: Exercise) => Matches(e, searchTerm, selectedGroup)
  }

  function FilteredExercises(source: seq<Exercise>, searchTerm: string, selectedGroup: Option<string>): seq<Exercise>
  {
    Seqs.Filter(MatchFn(searchTerm, selectedGroup), source)
  }

  /** The shown list keeps the source's order. */
  lemma FilteredIsSubsequence(source: seq<Exercise>, searchTerm: string, selectedGroup: Option<string>)
    ensures Seqs.IsSubsequence(FilteredExercises(source, searchTerm, selectedGroup), source)
  {
    Seqs.FilterIsSubsequence(MatchFn(searchTerm, selectedGroup), source);
  }

  /**
   * The filter is conjunctive: every shown exercise has the search term in
   * its name, ignoring ASCII case, and is in the selected group when one is
   * selected; every source exercise meeting both is shown.
   */
  lemma FilteredMembers(source: seq<Exercise>, searchTerm: string, selectedGroup: Option<string>)
    ensures forall e :: e in FilteredExercises(source, searchTerm, selectedGroup) ==>
      exists k :: Text.OccursAt(Text.Lower(e.name), Text.Lower(searchTerm), k)
    ensures forall e :: e in FilteredExercises(source, searchTerm, selectedGroup) && selectedGroup.Some? && selectedGroup.value != "" ==>
      e.muscleGroup == selectedGroup.value
    ensures forall i :: 0 <= i < |source| && MatchesSearch(source[i], searchTerm) && MatchesGroup(source[i], selectedGroup) ==>
      source[i] in FilteredExercises(source, searchTerm, selectedGroup)
  {
    var r := FilteredExercises(source, searchTerm, selectedGroup);
    Seqs.FilterMembers(MatchFn(searchTerm, selectedGroup), source);
    forall e | e in r
      ensures exists k :: Text.OccursAt(Text.Lower(e.name), Text.Lower(searchTerm), k)
      ensures selectedGroup.Some? && selectedGroup.value != "" ==> e.muscleGroup == selectedGroup.value
    {
      var i :| 0 <= i < |r| && r[i] == e;
      assert MatchFn(searchTerm, selectedGroup)(r[i]);
      assert Text.Includes(Text.Lower(e.name), Text.Lower(searchTerm));
    }
    forall i | 0 <= i < |source| && MatchesSearch(source[i], searchTerm) && MatchesGroup(source[i], selectedGroup)
      ensures source[i] in r
    {
      assert MatchFn(searchTerm, selectedGroup)(source[i]);
    }
  }

  /** Each matching exercise is shown as often as it occurs in the source, any other not at all. */
  lemma FilteredMultiset(source: seq<Exercise>, searchTerm: string, selectedGroup: Option<string>, e: Exercise)
    ensures multiset(FilteredExercises(source, searchTerm, selectedGroup))[e] ==
      if Matches(e, searchTerm, selectedGroup) then multiset(source)[e] else 0
  {
    Seqs.FilterMultiset(MatchFn(searchTerm, selectedGroup), source, e);
  }

  /** An empty search with no group selected shows the whole source. */
  lemma NoFilterShowsAll(source: seq<Exercise>)
    ensures FilteredExercises(source, "", None) == source
  {
    forall i | 0 <= i < |source| ensures Matches(source[i], "", None) {
      Text.IncludesEmpty(Text.Lower(source[i].name));
    }
    Seqs.FilterAll(MatchFn("", None), source);
  }

  /** The search term is compared only after lower-casing, so its case never changes the list. */
  lemma SearchIgnoresTermCase(source: seq<Exercise>, a: string, b: string, selectedGroup: Option<string>)
    requires Text.Lower(a) == Text.Lower(b)
    ensures FilteredExercises(source, a, selectedGroup) == FilteredExercises(source, b, selectedGroup)
  {
    forall i | 0 <= i < |source|
      ensures MatchFn(a, selectedGroup)(source[i]) == MatchFn(b, selectedGroup)(source[i])
    {
    }
    Seqs.FilterSamePredicate(MatchFn(a, selectedGroup), MatchFn(b, selectedGroup), source);
  }

  // The worked example: searching "press" within the Chest group of the built-in catalogue.

  lemma BenchPressMatchesPress()
    ensures Matches(Exercise("Bench Press", "Gym", "Chest"), "press", Some("Chest"))
  {
    assert Text.Lower("press") == "press";
    assert Text.Lower("Bench Press") == "bench press";
    assert "bench press"[6..11] == "press";
    assert Text.OccursAt("bench press", "press", 6);
  }

  lemma InclinePressMatchesPress()
    ensures Matches(Exercise("Incline Dumbbell Press", "Gym", "Chest"), "press", Some("Chest"))
  {
    assert Text.Lower("press") == "press";
    assert Text.Lower("Incline Dumbbell Press") == "incline dumbbell press";
    assert "incline dumbbell press"[17..22] == "press";
    assert Text.OccursAt("incline dumbbell press", "press", 17);
  }

  lemma CableFlyesMissPress()
    ensures !Matches(Exercise("Cable Flyes", "Gym", "Chest"), "press", Some("Chest"))
  {
    assert Text.Lower("press") == "press";
    assert Text.Lower("Cable Flyes") == "cable flyes";
    var h := "cable flyes";
    forall i ensures !Text.OccursAt(h, "press", i) {
      if 0 <= i && i + 5 <= |h| { assert h[i..i + 5][0] == h[i]; }
    }
  }

  lemma PushUpsMissPress()
    ensures !Matches(Exercise("Push-ups", "Bodyweight", "Chest"), "press", Some("Chest"))
  {
    assert Text.Lower("press") == "press";
    assert Text.Lower("Push-ups") == "push-ups";
    var h := "push-ups";
    forall i ensures !Text.OccursAt(h, "press", i) {
      if 0 <= i && i + 5 <= |h| { assert h[i..i + 5][0] == h[i] && h[i..i + 5][1] == h[i + 1]; }
    }
  }

  /** No exercise after the four chest entries is in the Chest group. */
  lemma PressOutsideChest()
    ensures Seqs.Filter(MatchFn("press", Some("Chest")), DefaultExercises[4..]) == []
  {
    var p := MatchFn("press", Some("Chest"));
    var d := DefaultExercises;
    forall k | 0 <= k < |d[4..]| ensures !p(d[4..][k]) {
      assert d[4..][k] == d[k + 4];
    }
    Seqs.FilterNone(p, d[4..]);
  }

  /** The built-in catalogue opens with its four chest exercises. */
  lemma ChestOpensCatalogue()
    ensures DefaultExercises[..4] == [
      Exercise("Bench Press", "Gym", "Chest"), Exercise("Incline Dumbbell Press", "Gym", "Chest"),
      Exercise("Cable Flyes", "Gym", "Chest"), Exercise("Push-ups", "Bodyweight", "Chest")]
  {
  }

  lemma FilterFirstTwoOfFour<T>(p: T -> bool, a: T, b: T, c: T, d: T)
    requires p(a) && p(b) && !p(c) && !p(d)
    ensures Seqs.Filter(p, [a, b, c, d]) == [a, b]
  {
    Seqs.FilterCons(p, d, []);
    Seqs.FilterCons(p, c, [d]);
    assert [c] + [d] == [c, d];
    Seqs.FilterCons(p, b, [c, d]);
    assert [b] + [c, d] == [b, c, d];
    Seqs.FilterCons(p, a, [b, c, d]);
    assert [a] + [b, c, d] == [a, b, c, d];
  }

  /** Of the four chest entries, the two presses match. */
  lemma PressAmongChest()
    ensures Seqs.Filter(MatchFn("press", Some("Chest")), DefaultExercises[..4]) ==
      [Exercise("Bench Press", "Gym", "Chest"), Exercise("Incline Dumbbell Press", "Gym", "Chest")]
  {
    ChestOpensCatalogue();
    BenchPressMatchesPress();
    InclinePressMatchesPress();
    CableFlyesMissPress();
    PushUpsMissPress();
    FilterFirstTwoOfFour(MatchFn("press", Some("Chest")),
      Exercise("Bench Press", "Gym", "Chest"), Exercise("Incline Dumbbell Press", "Gym", "Chest"),
      Exercise("Cable Flyes", "Gym", "Chest"), Exercise("Push-ups", "Bodyweight", "Chest"));
  }

  /**
   * Searching "press" with Chest selected lists Bench Press and Incline
   * Dumbbell Press, in catalogue order; by `SearchIgnoresTermCase` so does
   * any other casing of the term.
   */
  lemma PressInChest()
    ensures FilteredExercises(DefaultExercises, "press", Some("Chest")) ==
      [Exercise("Bench Press", "Gym", "Chest"), Exercise("Incline Dumbbell Press", "Gym", "Chest")]
  {
    var d := DefaultExercises;
    PressAmongChest();
    PressOutsideChest();
    assert d == d[..4] + d[4..];
    Seqs.FilterAppend(MatchFn("press", Some("Chest")), d[..4], d[4..]);
  }

  /** `group === selectedGroup ? null : group`: clicking a group button. */
  function Toggled(selectedGroup: Option<string>, group: string): (r: Option<string>)
    ensures r.None? <==> selectedGroup == Some(group)
    ensures r.Some? ==> r.value == group
  {
    if selectedGroup == Some(group) then None else Some(group)
  }

  /**
   * Clicking the same group twice ends with no group filter, unless that
   * group was the selection to begin with, which it then is again.
   */
  lemma ToggleTwice(selectedGroup: Option<string>, group: string)
    ensures Toggled(Toggled(selectedGroup, group), group) == if selectedGroup == Some(group) then Some(group) else None
    ensures selectedGroup.None? ==> Toggled(Toggled(selectedGroup, group), group) == None
  {
  }

  function InGroupFn(group: string): Exercise -> bool
  {
    (e: Exercise) => e.muscleGroup == group
  }

  /** The exercises of one group, in filtered order. */
  function Bucket(group: string, filtered: seq<Exercise>): seq<Exercise>
  {
    Seqs.Filter(InGroupFn(group), filtered)
  }

  /**
   * `muscleGroups.reduce((acc, group) => { acc[group] = ...; return acc }, {})`:
   * one bucket per listed group, built from the first group to the last.
   */
  function GroupedExercises(groups: seq<string>, filtered: seq<Exercise>): (r: map<string, seq<Exercise>>)
    ensures forall g :: g in r <==> g in groups
    ensures forall g :: g in r ==> r[g] == Bucket(g, filtered)
  {
    if groups == [] then map[]
    else
      var last := groups[|groups| - 1];
      GroupedExercises(groups[..|groups| - 1], filtered)[last := Bucket(last, filtered)]
  }

  /**
   * Each bucket holds exactly the filtered exercises of its group, in
   * filtered order; an exercise whose group is not listed is in no bucket.
   */
  lemma BucketsPartition(filtered: seq<Exercise>, e: Exercise)
    ensures var grouped := GroupedExercises(MuscleGroups, filtered);
      && (forall g :: g in grouped ==> Seqs.IsSubsequence(grouped[g], filtered))
      && (forall g :: g in grouped ==> (e in grouped[g] <==> e in filtered && e.muscleGroup == g))
      && (e.muscleGroup !in MuscleGroups ==> forall g :: g in grouped ==> e !in grouped[g])
  {
    var grouped := GroupedExercises(MuscleGroups, filtered);
    forall g | g in grouped ensures Seqs.IsSubsequence(grouped[g], filtered) {
      Seqs.FilterIsSubsequence(InGroupFn(g), filtered);
    }
    forall g | g in grouped ensures e in grouped[g] <==> e in filtered && e.muscleGroup == g {
      Seqs.FilterMembers(InGroupFn(g), filtered);
      if e in filtered && e.muscleGroup == g {
        var i :| 0 <= i < |filtered| && filtered[i] == e;
        assert filtered[i] in Bucket(g, filtered);
      }
    }
  }

  /** A group's card is drawn when its bucket is non-empty. */
  function HasCard(grouped: map<string, seq<Exercise>>): string -> bool
  {
    (g: string) => g in grouped && |grouped[g]| > 0
  }

  /**
   * The groups whose card is drawn, in list order: a listed group gets a card
   * exactly when its bucket is non-empty.
   */
  function VisibleGroups(groups: seq<string>, grouped: map<string, seq<Exercise>>): (r: seq<string>)
    ensures forall i :: 0 <= i < |r| ==> r[i] in groups && r[i] in grouped && |grouped[r[i]]| > 0
    ensures forall i :: 0 <= i < |groups| && groups[i] in grouped && |grouped[groups[i]]| > 0 ==> groups[i] in r
  {
    Seqs.FilterMembers(HasCard(grouped), groups);
    Seqs.Filter(HasCard(grouped), groups)
  }

  /** The "No exercises found" message is drawn exactly when the filtered list is empty. */
  predicate ShowsNoResults(filtered: seq<Exercise>)
  {
    |filtered| == 0
  }

  /**
   * When every shown exercise is in a listed group, no card is drawn exactly
   * when the "No exercises found" message is.
   */
  lemma NoCardsIffNoResults(groups: seq<string>, filtered: seq<Exercise>)
    requires forall i :: 0 <= i < |filtered| ==> filtered[i].muscleGroup in groups
    ensures VisibleGroups(groups, GroupedExercises(groups, filtered)) == [] <==> ShowsNoResults(filtered)
  {
    var grouped := GroupedExercises(groups, filtered);
    if |filtered| == 0 {
      forall k | 0 <= k < |groups| ensures !HasCard(grouped)(groups[k]) {
        assert grouped[groups[k]] == Bucket(groups[k], filtered);
      }
      Seqs.FilterNone(HasCard(grouped), groups);
    } else {
      var g := filtered[0].muscleGroup;
      Seqs.FilterMembers(InGroupFn(g), filtered);
      assert filtered[0] in Bucket(g, filtered);
      var k :| 0 <= k < |groups| && groups[k] == g;
      assert HasCard(grouped)(groups[k]);
      Seqs.FilterMembers(HasCard(grouped), groups);
      assert groups[k] in VisibleGroups(groups, grouped);
    }
  }

  /**
   * The message and the cards can disagree: a server exercise in an
   * unlisted group matches the filter, yet no card and no message is drawn.
   */
  lemma UnlistedGroupDrawsNothing(groups: seq<string>, e: Exercise)
    requires e.muscleGroup !in groups
    ensures VisibleGroups(groups, GroupedExercises(groups, [e])) == []
    ensures !ShowsNoResults([e])
  {
    var grouped := GroupedExercises(groups, [e]);
    forall k | 0 <= k < |groups| ensures !HasCard(grouped)(groups[k]) {
      assert [e][1..] == [];
      assert grouped[groups[k]] == Bucket(groups[k], [e]);
    }
    Seqs.FilterNone(HasCard(grouped), groups);
  }

  /** The add-exercise form's fields. */
  datatype NewExercise = NewExercise(name: string, muscleGroup: string, category: string)

  const BlankNewExercise: NewExercise := NewExercise("", "Chest", "Gym")

  datatype NewExerciseField = NameField | MuscleGroupField | CategoryField

  class Browser {
    var searchTerm: string
    var selectedGroup: Option<string>
    var showAddForm: bool
    var newExercise: NewExercise

    constructor ()
      ensures searchTerm == "" && selectedGroup == None && !showAddForm && newExercise == BlankNewExercise
    {
      searchTerm := "";
      selectedGroup := None;
      showAddForm := false;
      newExercise := BlankNewExercise;
    }

    method SetSearchTerm(value: string)
      modifies this
      ensures searchTerm == value
      ensures selectedGroup == old(selectedGroup) && showAddForm == old(showAddForm) && newExercise == old(newExercise)
    {
      searchTerm := value;
    }

    /** The "All" button clears the group filter. */
    method ClickAll()
      modifies this
      ensures selectedGroup == None
      ensures searchTerm == old(searchTerm) && showAddForm == old(showAddForm) && newExercise == old(newExercise)
    {
      selectedGroup := None;
    }

    method ClickGroup(group: string)
      modifies this
      ensures selectedGroup == Toggled(old(selectedGroup), group)
      ensures searchTerm == old(searchTerm) && showAddForm == old(showAddForm) && newExercise == old(newExercise)
    {
      selectedGroup := if selectedGroup == Some(group) then None else Some(group);
    }

    /** The "add exercise" button shows or hides the form. */
    method ToggleAddForm()
      modifies this
      ensures showAddForm == !old(showAddForm)
      ensures searchTerm == old(searchTerm) && selectedGroup == old(selectedGroup) && newExercise == old(newExercise)
    {
      showAddForm := !showAddForm;
    }

    method EditNewExercise(field: NewExerciseField, value: string)
      modifies this
      ensures newExercise == match field
        case NameField => old(newExercise).(name := value)
        case MuscleGroupField => old(newExercise).(muscleGroup := value)
        case CategoryField => old(newExercise).(category := value)
      ensures searchTerm == old(searchTerm) && selectedGroup == old(selectedGroup) && showAddForm == old(showAddForm)
    {
      match field
      case NameField => newExercise := newExercise.(name := value);
      case MuscleGroupField => newExercise := newExercise.(muscleGroup := value);
      case CategoryField => newExercise := newExercise.(category := value);
    }

    /**
     * `handleAddExercise`: the form's fields go to the `addExercise`
     * mutation as they are, with no check against existing names. On
     * success the form is reset and hidden; on failure nothing here changes.
     */
    method HandleAddExercise(cache: Queries.QueryCache, actor: Option<Queries.Server>, remoteOk: bool) returns (added: bool)
      requires cache.Valid()
      modifies this, cache
      ensures cache.Valid()
      ensures added <==> actor.Some? && remoteOk
      ensures searchTerm == old(searchTerm) && selectedGroup == old(selectedGroup)
      ensures added ==> newExercise == BlankNewExercise && !showAddForm
      ensures !added ==> newExercise == old(newExercise) && showAddForm == old(showAddForm)
      ensures cache.data == old(cache.data)
      ensures actor.Some? ==>
        cache.requests == old(cache.requests) + [Queries.AddExerciseRequest(old(newExercise).name, old(newExercise).muscleGroup, old(newExercise).category)]
      ensures actor.None? ==> cache.requests == old(cache.requests)
      ensures cache.stale == if added then Queries.MarkStale(old(cache.stale), {Queries.ExerciseLibraryKey}) else old(cache.stale)
    {
      var form := newExercise;
      var result := cache.Mutate(Queries.AddExercise(form.name, form.muscleGroup, form.category), actor, remoteOk);
      added := result.Done?;
      if added {
        newExercise := BlankNewExercise;
        showAddForm := false;
      }
    }
  }
}

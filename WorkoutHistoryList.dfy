/**
 * The history list of src/frontend/src/components/WorkoutHistoryList.tsx:
 * the empty state, the newest-first ordering of a copy of the workouts, the
 * per-workout volume folds and the server's total shown as the headline.
 */
module WorkoutHistoryList {
  import opened Domain
  import Seqs

  // ---------------------------------------------------------------------
  // Volume

  function SetVolume(s: Set_): real
  {
    (s.reps as real) * s.weight
  }

  /** The inner `reduce((setTotal, set) => setTotal + reps * weight, 0)`, folding from the left. */
  function SetsVolume(sets: seq<Set_>): real
  {
    if sets == [] then 0.0 else SetsVolume(sets[..|sets| - 1]) + SetVolume(sets[|sets| - 1])
  }

  /** The outer `reduce((total, entry) => total + <sets volume>, 0)`, folding from the left. */
  function EntriesVolume(entries: seq<WorkoutEntry>): real
  {
    if entries == [] then 0.0 else EntriesVolume(entries[..|entries| - 1]) + SetsVolume(entries[|entries| - 1].sets)
  }

  function WorkoutVolume(w: Workout): real
  {
    EntriesVolume(w.entries)
  }

  /** Appending one entry adds exactly that entry's set total. */
  lemma AppendEntryVolume(entries: seq<WorkoutEntry>, e: WorkoutEntry)
    ensures EntriesVolume(entries + [e]) == EntriesVolume(entries) + SetsVolume(e.sets)
  {
    assert (entries + [e])[..|entries|] == entries;
  }

  lemma {:induction false} SetsVolumeAppend(a: seq<Set_>, b: seq<Set_>)
    ensures SetsVolume(a + b) == SetsVolume(a) + SetsVolume(b)
    decreases |b|
  {
    if b == [] {
      assert a + b == a;
    } else {
      var init := b[..|b| - 1];
      assert (a + b)[..|a + b| - 1] == a + init;
      SetsVolumeAppend(a, init);
    }
  }

  /** All the sets of a workout, entry after entry. */
  function AllSets(entries: seq<WorkoutEntry>): seq<Set_>
  {
    if entries == [] then [] else AllSets(entries[..|entries| - 1]) + entries[|entries| - 1].sets
  }

  /** The nested fold is the plain sum of reps x weight over every set of the workout. */
  lemma {:induction false} VolumeIsSumOverAllSets(entries: seq<WorkoutEntry>)
    ensures EntriesVolume(entries) == SetsVolume(AllSets(entries))
  {
    if entries != [] {
      var init := entries[..|entries| - 1];
      VolumeIsSumOverAllSets(init);
      SetsVolumeAppend(AllSets(init), entries[|entries| - 1].sets);
    }
  }

  /** A workout with no entries, or whose entries have no sets, has volume zero. */
  lemma {:induction false} VolumeWithoutSets(entries: seq<WorkoutEntry>)
    requires forall i :: 0 <= i < |entries| ==> entries[i].sets == []
    ensures EntriesVolume(entries) == 0.0
  {
    if entries != [] {
      VolumeWithoutSets(entries[..|entries| - 1]);
    }
  }

  lemma {:induction false} SetsVolumeNonNegative(sets: seq<Set_>)
    requires forall i :: 0 <= i < |sets| ==> sets[i].reps >= 0 && sets[i].weight >= 0.0
    ensures SetsVolume(sets) >= 0.0
  {
    if sets != [] {
      SetsVolumeNonNegative(sets[..|sets| - 1]);
      var last := sets[|sets| - 1];
      assert (last.reps as real) * last.weight >= 0.0;
    }
  }

  /** With non-negative reps and weights the volume is non-negative. */
  lemma {:induction false} VolumeNonNegative(entries: seq<WorkoutEntry>)
    requires forall i, j :: 0 <= i < |entries| && 0 <= j < |entries[i].sets| ==>
      entries[i].sets[j].reps >= 0 && entries[i].sets[j].weight >= 0.0
    ensures EntriesVolume(entries) >= 0.0
  {
    if entries != [] {
      VolumeNonNegative(entries[..|entries| - 1]);
      SetsVolumeNonNegative(entries[|entries| - 1].sets);
    }
  }

  /** Bench press 10 x 135 and 8 x 145 is 1350 + 1160 = 2510. */
  lemma BenchPressVolume()
    ensures WorkoutVolume(Workout([WorkoutEntry([Set_(135.0, 10), Set_(145.0, 8)], Exercise("Bench Press", "Gym", "Chest"))], 0)) == 2510.0
  {
    var sets := [Set_(135.0, 10), Set_(145.0, 8)];
    assert sets[..1] == [Set_(135.0, 10)];
    assert [Set_(135.0, 10)][..0] == [];
    assert SetsVolume(sets) == 2510.0;
  }

  // ---------------------------------------------------------------------
  // Ordering

  /** Newest first: timestamps never increase along the list. */
  ghost predicate NewestFirst(ws: seq<Workout>)
  {
    forall i, j :: 0 <= i < j < |ws| ==> ws[i].timestamp >= ws[j].timestamp
  }

  /** Places `w` before the first workout that is not newer than it. */
  function Insert(w: Workout, sorted: seq<Workout>): (r: seq<Workout>)
    ensures |r| == |sorted| + 1
  {
    if sorted == [] || sorted[0].timestamp <= w.timestamp then [w] + sorted
    else [sorted[0]] + Insert(w, sorted[1..])
  }

  /** Inserting adds exactly `w` and keeps every other workout. */
  lemma {:induction false} InsertPermutes(w: Workout, sorted: seq<Workout>)
    ensures multiset(Insert(w, sorted)) == multiset(sorted) + multiset{w}
  {
    if !(sorted == [] || sorted[0].timestamp <= w.timestamp) {
      InsertPermutes(w, sorted[1..]);
      assert sorted == [sorted[0]] + sorted[1..];
    }
  }

  /** A workout at least as new as every one of a newest-first list can lead it. */
  lemma PrependNewestFirst(a: Workout, s: seq<Workout>)
    requires NewestFirst(s)
    requires forall k :: 0 <= k < |s| ==> a.timestamp >= s[k].timestamp
    ensures NewestFirst([a] + s)
  {
    var r := [a] + s;
    forall i, j | 0 <= i < j < |r| ensures r[i].timestamp >= r[j].timestamp {
      assert r[j] == s[j - 1];
      if i > 0 { assert r[i] == s[i - 1]; }
    }
  }

  lemma {:induction false} InsertNewestFirst(w: Workout, s: seq<Workout>)
    requires NewestFirst(s)
    ensures NewestFirst(Insert(w, s))
  {
    if s == [] || s[0].timestamp <= w.timestamp {
      PrependNewestFirst(w, s);
    } else {
      var rest := Insert(w, s[1..]);
      InsertNewestFirst(w, s[1..]);
      InsertPermutes(w, s[1..]);
      forall k | 0 <= k < |rest| ensures s[0].timestamp >= rest[k].timestamp {
        assert rest[k] in multiset(rest);
        assert rest[k] == w || rest[k] in multiset(s[1..]);
        if rest[k] != w {
          var m :| 0 <= m < |s[1..]| && s[1..][m] == rest[k];
          assert s[m + 1] == rest[k];
        }
      }
      PrependNewestFirst(s[0], rest);
    }
  }

  /**
   * `[...workouts].sort((a, b) => Number(b.timestamp - a.timestamp))`: an
   * insertion sort into a copy, so the fetched list itself keeps its order.
   * `SortedPermutes` and `SortedNewestFirst` state what it yields.
   */
  function SortedWorkouts(ws: seq<Workout>): (r: seq<Workout>)
    ensures |r| == |ws|
  {
    if ws == [] then [] else Insert(ws[0], SortedWorkouts(ws[1..]))
  }

  /** The sorted copy holds exactly the fetched workouts. */
  lemma {:induction false} SortedPermutes(ws: seq<Workout>)
    ensures multiset(SortedWorkouts(ws)) == multiset(ws)
  {
    if ws != [] {
      SortedPermutes(ws[1..]);
      InsertPermutes(ws[0], SortedWorkouts(ws[1..]));
      assert ws == [ws[0]] + ws[1..];
    }
  }

  /** The sorted copy is newest first. */
  lemma {:induction false} SortedNewestFirst(ws: seq<Workout>)
    ensures NewestFirst(SortedWorkouts(ws))
  {
    if ws != [] {
      SortedNewestFirst(ws[1..]);
      InsertNewestFirst(ws[0], SortedWorkouts(ws[1..]));
    }
  }

  function TimestampIs(t: int): Workout -> bool
  {
    (w: Workout) => w.timestamp == t
  }

  lemma {:induction false} InsertKeepsTies(w: Workout, s: seq<Workout>, t: int)
    ensures Seqs.Filter(TimestampIs(t), Insert(w, s)) ==
      (if w.timestamp == t then [w] else []) + Seqs.Filter(TimestampIs(t), s)
  {
    var p := TimestampIs(t);
    if s == [] || s[0].timestamp <= w.timestamp {
      assert Insert(w, s) == [w] + s;
      Seqs.FilterCons(p, w, s);
    } else {
      var rest := Insert(w, s[1..]);
      var tail := Seqs.Filter(p, s[1..]);
      assert Insert(w, s) == [s[0]] + rest;
      InsertKeepsTies(w, s[1..], t);
      assert Seqs.Filter(p, rest) == (if w.timestamp == t then [w] else []) + tail;
      Seqs.FilterCons(p, s[0], rest);
      assert s == [s[0]] + s[1..];
      Seqs.FilterCons(p, s[0], s[1..]);
      if w.timestamp == t {
        assert !p(s[0]);
        assert Seqs.Filter(p, s) == tail;
        assert Seqs.Filter(p, Insert(w, s)) == [w] + tail;
      } else {
        var head := if p(s[0]) then [s[0]] else [];
        assert Seqs.Filter(p, rest) == tail;
        assert Seqs.Filter(p, s) == head + tail;
        assert Seqs.Filter(p, Insert(w, s)) == head + tail;
      }
    }
  }

  /** The sort is stable: workouts with the same timestamp keep their original relative order. */
  lemma {:induction false} SortIsStable(ws: seq<Workout>, t: int)
    ensures Seqs.Filter(TimestampIs(t), SortedWorkouts(ws)) == Seqs.Filter(TimestampIs(t), ws)
  {
    if ws != [] {
      var p := TimestampIs(t);
      var sortedTail := SortedWorkouts(ws[1..]);
      var head := if ws[0].timestamp == t then [ws[0]] else [];
      assert SortedWorkouts(ws) == Insert(ws[0], sortedTail);
      SortIsStable(ws[1..], t);
      InsertKeepsTies(ws[0], sortedTail, t);
      assert Seqs.Filter(p, SortedWorkouts(ws)) == head + Seqs.Filter(p, ws[1..]);
      assert ws == [ws[0]] + ws[1..];
      Seqs.FilterCons(p, ws[0], ws[1..]);
    }
  }

  // ---------------------------------------------------------------------
  // The page

  datatype WorkoutCard = WorkoutCard(workout: Workout, volume: real)

  datatype HistoryView =
    | Loading
    | EmptyState
    | Listing(headline: real, cards: seq<WorkoutCard>)

  function CardOf(w: Workout): WorkoutCard
  {
    WorkoutCard(w, WorkoutVolume(w))
  }

  function WorkoutOf(c: WorkoutCard): Workout
  {
    c.workout
  }

  /**
   * The page for a query state: the skeleton while loading; the empty state
   * when the history is absent or has no workouts; otherwise the server's
   * `totalVolume` as the headline and one card per workout.
   */
  function RenderHistory(isLoading: bool, history: Option<WorkoutHistory>): (v: HistoryView)
    ensures isLoading <==> v.Loading?
    ensures !isLoading ==> (v.EmptyState? <==> history.None? || |history.value.workouts| == 0)
    ensures v.Listing? ==> history.Some? && v.headline == history.value.totalVolume
  {
    if isLoading then Loading
    else if history.None? || |history.value.workouts| == 0 then EmptyState
    else Listing(history.value.totalVolume, Seqs.Map(CardOf, SortedWorkouts(history.value.workouts)))
  }

  /**
   * The cards show every workout of the history exactly once, newest
   * first, each with its own recomputed volume.
   */
  lemma ListingCards(history: WorkoutHistory)
    requires |history.workouts| > 0
    ensures var v := RenderHistory(false, Some(history));
      && v.Listing?
      && |v.cards| == |history.workouts|
      && (forall i :: 0 <= i < |v.cards| ==> v.cards[i].volume == WorkoutVolume(v.cards[i].workout))
      && (forall i, j :: 0 <= i < j < |v.cards| ==> v.cards[i].workout.timestamp >= v.cards[j].workout.timestamp)
      && multiset(Seqs.Map(WorkoutOf, v.cards)) == multiset(history.workouts)
  {
    var sorted := SortedWorkouts(history.workouts);
    SortedNewestFirst(history.workouts);
    SortedPermutes(history.workouts);
    var cards := Seqs.Map(CardOf, sorted);
    assert Seqs.Map(WorkoutOf, cards) == sorted;
  }

  /** The headline is not recomputed: it shows the server's total even when the cards add up to something else. */
  lemma HeadlineIsServerTotal()
    ensures var h := WorkoutHistory([Workout([], 7)], 100.0);
      && RenderHistory(false, Some(h)) == Listing(100.0, [WorkoutCard(Workout([], 7), 0.0)])
  {
    var h := WorkoutHistory([Workout([], 7)], 100.0);
    assert SortedWorkouts(h.workouts) == [Workout([], 7)];
  }
}

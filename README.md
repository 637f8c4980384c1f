# Fitness tracker client core, modelled in Dafny

This project models the client logic of a personal fitness-tracking web application. Users log
workouts made of exercises and sets, browse an exercise library, and read their workout history.
All of it sits behind a login gate. The model covers six parts:

- **Records** (`Domain.dfy`): the backend's record types: exercise, set, workout entry, workout,
  workout history, progress statistics and workout plan.
- **Data-fetch layer** (`Queries.dfy`): the four cached queries (history, library, stats, plans)
  and the three mutations (log workout, add exercise, create plan).
  - The query cache is a class. For each query key it holds a stale flag and the last fetched
    value. It also records the trace of requests sent to the backend.
  - A query runs only when it is enabled and its entry is stale.
  - A successful mutation marks exactly the keys of its invalidation table stale.
  - A mutation without an actor fails with "Actor not initialized" and sends nothing.
- **Workout logger** (`WorkoutLogger.dfy`): the editable form of exercise rows and set rows, kept
  as a class whose methods are the page's handlers.
  - The submit pipeline keeps the named rows that have a complete set, drops incomplete sets,
    fills in defaults and parses the numbers.
  - The local validation rejects an empty submission before any request.
- **Exercise library** (`ExerciseLibrary.dfy`): the built-in catalogue shown while the server
  library is empty, and the conjunctive search-and-group filter (ASCII case-insensitive). It also
  has the toggle of the group buttons, one bucket per muscle group, and the agreement between
  "no cards" and the "No exercises found" message. The page's state cells form a class.
- **Workout history** (`WorkoutHistoryList.dfy`): newest-first, stable
  ordering of a copy of the workouts, each workout's volume fold, and the server's total shown as
  the headline.
- **Auth guard** (`AuthGuard.dfy`): the three-way choice between loading view, login prompt and
  protected content.

Two modules are generic helpers: `Seqs.dfy` (filter, index removal, map) and `Text.dfy`
(lower-casing, substring search).

Environment is passed in as parameters:

- The `useActor` hook becomes `actor: Option<Server>`. `Server` is a snapshot of what the backend
  answers to each read. Whether the backend accepts a mutation, or resolves a read, is a `remoteOk` flag.
- The identity provider's flags and identity are parameters of `AuthGuard.Guard`.
- `parseInt` and `parseFloat` are function parameters that return `None` where JavaScript returns
  NaN.

Behaviour of the code worth knowing before reading the contracts:

- The enable predicate does not consult the identity (`useQueries.ts:14`): a query is enabled
  when an actor exists and is not fetching. `Queries.Enabled` and `Queries.QueryFn` take no
  identity input, so an anonymous identity disables no query
  (`AuthGuard.QueriesEnabledWhileLoggedOut`).
- Defaults are returned only when the actor is missing (`useQueries.ts:11`). A server answer is
  passed through as given, even an empty one (`Queries.EnabledQueryUsesServer`).
- Logout lies outside the files modelled: none of them has a logout handler, so the model has no
  operation that clears the query cache.

## Model

| member | source | states |
|---|---|---|
| Queries.KeyName | src/frontend/src/hooks/useQueries.ts:9-48 | the `queryKey` string of each query; `KeyNamesDistinct` states no two queries share one |
| Queries.KeyNamesDistinct | src/frontend/src/hooks/useQueries.ts:9-48 | the four query keys name four distinct cache entries |
| Queries.Enabled | src/frontend/src/hooks/useQueries.ts:14 | `enabled: !!actor && !isFetching`, the same for all four queries and with no identity input; `EnabledQueryUsesServer` shows an enabled query always has an actor |
| Queries.Answer | src/frontend/src/hooks/useQueries.ts:12-51 | the backend's answer to a query is a value of that query's own key |
| Queries.QueryFn | src/frontend/src/hooks/useQueries.ts:10-52 | each query yields a value of its own key; with no actor it yields the default, with an actor exactly the server's answer |
| Queries.Default | src/frontend/src/hooks/useQueries.ts:11-50 | each query's value when there is no actor, tagged with that query's key; `DefaultsAreZero` states they are the zero values of each result shape |
| Queries.DefaultsAreZero | src/frontend/src/hooks/useQueries.ts:11-50 | the no-actor defaults are the empty history with total 0, the empty library and plan lists, and all-zero stats |
| Queries.EnabledQueryUsesServer | src/frontend/src/hooks/useQueries.ts:10-14 | an enabled query always has an actor, so it never substitutes a default |
| Queries.Invalidates | src/frontend/src/hooks/useQueries.ts:66-100 | the onSuccess table: logging a workout invalidates history and stats, adding an exercise the library, creating a plan plans and stats; `InvalidationLeavesOthers` and `QueryCache.Mutate` state its effect |
| Queries.InvalidationLeavesOthers | src/frontend/src/hooks/useQueries.ts:66-99 | logging a workout leaves library and plans alone; adding an exercise touches only the library; creating a plan leaves history and library alone; stats are invalidated exactly by the two mutations other than add-exercise |
| Queries.MarkStale | src/frontend/src/hooks/useQueries.ts:66-68 | invalidated keys become stale, every other key keeps its flag, and no key is added or removed |
| Queries.QueryCache.constructor | src/frontend/src/hooks/useQueries.ts:8-15 | a new cache has no data, no requests, and every key due for a fetch |
| Queries.QueryCache.Current | src/frontend/src/hooks/useQueries.ts:8-15 | the exposed value, if any, belongs to the requested query |
| Queries.QueryCache.Fetch | src/frontend/src/hooks/useQueries.ts:8-15 | an enabled stale query sends one read; if the backend answers, the answer is cached and the flag cleared; if its promise rejects, cached value and flag stay as they were; a disabled or fresh query changes nothing and sends nothing; the result is the cached value |
| Queries.QueryCache.Mutate | src/frontend/src/hooks/useQueries.ts:57-102 | without an actor: fails with "Actor not initialized", no request, no state change; with one: sends one request; on success marks exactly its invalidation keys stale; on rejection keeps the flags; cached data is never rewritten |
| Seqs.Filter | src/frontend/src/components/ExerciseLibrary.tsx:73-77 | `Array.prototype.filter`: never longer than its input; `FilterMembers`, `FilterMultiset` and `FilterIsSubsequence` state it keeps exactly the passing elements, in order |
| Seqs.Map | src/frontend/src/components/WorkoutLogger.tsx:74-85 | `Array.prototype.map`: keeps the length and applies the function to each element at its own position |
| Seqs.RemoveAt | src/frontend/src/components/WorkoutLogger.tsx:33 | removing by index yields the elements before and after that index; an index outside the sequence changes nothing |
| Text.Lower | src/frontend/src/components/ExerciseLibrary.tsx:74 | lower-casing keeps the length and lower-cases each ASCII capital, leaving other characters unchanged |
| Text.Includes | src/frontend/src/components/ExerciseLibrary.tsx:74 | true exactly when the needle occurs at some position of the haystack |
| WorkoutLogger.FindIndex | src/frontend/src/components/WorkoutLogger.tsx:40 | the found index names an exercise with that exact name and no earlier one has it; none is found exactly when no exercise has that name |
| WorkoutLogger.IsComplete | src/frontend/src/components/WorkoutLogger.tsx:73 | a set row counts when both its reps and weight text are non-empty; its meaning in the pipeline is stated by `ToEntryFields` and `OneCompleteSet` |
| WorkoutLogger.IsIncluded | src/frontend/src/components/WorkoutLogger.tsx:73 | a row is submitted when it has a name and some complete set; `EntriesEmptyIff` and `BuildEntriesSingle` state its role |
| WorkoutLogger.ToSet | src/frontend/src/components/WorkoutLogger.tsx:82-85 | a complete set row becomes reps and weight parsed with `|| 0`; stated by `ToEntryFields` |
| WorkoutLogger.ToEntry | src/frontend/src/components/WorkoutLogger.tsx:74-86 | a row becomes an entry with the typed name, the "Other"/"Gym" fallbacks and its complete sets; stated by `ToEntryFields` and `EntriesWellFormed` |
| WorkoutLogger.BuildEntries | src/frontend/src/components/WorkoutLogger.tsx:72-86 | the entries sent on submit; `BuildEntriesSingle` and `BuildEntriesAppend` determine it row by row |
| WorkoutLogger.BuildEntriesSingle | src/frontend/src/components/WorkoutLogger.tsx:72-86 | a single row yields one entry when it has a name and a complete set, otherwise none |
| WorkoutLogger.BuildEntriesAppend | src/frontend/src/components/WorkoutLogger.tsx:72-86 | rows contribute entries independently and in order |
| WorkoutLogger.ToEntryFields | src/frontend/src/components/WorkoutLogger.tsx:74-86 | an entry keeps the typed name; an empty muscle group becomes "Other" and an empty category "Gym"; its sets are the complete sets, in order, with unparseable reps or weight read as 0 |
| WorkoutLogger.EntriesWellFormed | src/frontend/src/components/WorkoutLogger.tsx:72-86 | every submitted entry has a non-empty name, muscle group and category and at least one set |
| WorkoutLogger.EntriesEmptyIff | src/frontend/src/components/WorkoutLogger.tsx:72-91 | the entry list is empty exactly when no row has both a name and a complete set |
| WorkoutLogger.OneCompleteSet | src/frontend/src/components/WorkoutLogger.tsx:72-86 | if exactly one set of one named row is complete, there is exactly one entry, holding exactly that set |
| WorkoutLogger.CheckSubmit | src/frontend/src/components/WorkoutLogger.tsx:88-91 | rejected with "Please add at least one exercise with sets" exactly when no row qualifies; otherwise ready with the built entries, at least one |
| WorkoutLogger.Logger.constructor | src/frontend/src/components/WorkoutLogger.tsx:24-26 | the form starts with one blank row with category "Gym" and one blank set |
| WorkoutLogger.Logger.AddExercise | src/frontend/src/components/WorkoutLogger.tsx:28-30 | appends one blank row and leaves the others untouched; keeps the form's shape |
| WorkoutLogger.Logger.RemoveExercise | src/frontend/src/components/WorkoutLogger.tsx:32-34 | deletes exactly the indexed row, keeping the order of the rest, and ignores another index; keeps the shape when more than one row existed, the only case where the page offers the button (line 109) |
| WorkoutLogger.Logger.UpdateExercise | src/frontend/src/components/WorkoutLogger.tsx:36-49 | changes only the named field of the indexed row; setting the name also copies the muscle group and category of the first library exercise with exactly that name; the sets and other rows are unchanged |
| WorkoutLogger.Logger.AddSet | src/frontend/src/components/WorkoutLogger.tsx:51-55 | appends one blank set to the indexed row only |
| WorkoutLogger.Logger.RemoveSet | src/frontend/src/components/WorkoutLogger.tsx:57-61 | removes the indexed set of the indexed row only; keeps the shape when the row had more than one set, the only case where the page offers the button (line 180) |
| WorkoutLogger.Logger.UpdateSet | src/frontend/src/components/WorkoutLogger.tsx:63-67 | changes only the named field of one set; all other sets and rows are unchanged |
| WorkoutLogger.Logger.Submit | src/frontend/src/components/WorkoutLogger.tsx:69-101 | an empty submission gives the validation message and sends nothing; otherwise logs the built entries through the mutation; navigates to the history exactly when it succeeds; on success history and stats become stale |
| ExerciseLibrary.MuscleGroups | src/frontend/src/components/ExerciseLibrary.tsx:6 | the seven muscle groups, in button and card order; `DefaultsInMuscleGroups` and `GroupedExercises` use it |
| ExerciseLibrary.DefaultExercises | src/frontend/src/components/ExerciseLibrary.tsx:18-61 | the 35 built-in exercises in display order; `DefaultsInMuscleGroups` states each lies in a listed group and `PressInChest` works an example on it |
| ExerciseLibrary.DefaultsInMuscleGroups | src/frontend/src/components/ExerciseLibrary.tsx:18-61 | every built-in exercise belongs to one of the seven listed groups |
| ExerciseLibrary.AllExercises | src/frontend/src/components/ExerciseLibrary.tsx:71 | the list shown is never empty; a non-empty server library is shown as it is, not merged with the built-in catalogue; an empty one is replaced by exactly the built-in catalogue |
| ExerciseLibrary.MatchesSearch | src/frontend/src/components/ExerciseLibrary.tsx:74 | the lower-cased name contains the lower-cased term; `FilteredMembers` and `SearchIgnoresTermCase` state its effect |
| ExerciseLibrary.MatchesGroup | src/frontend/src/components/ExerciseLibrary.tsx:75 | no selection (or a falsy empty one) matches every group, otherwise the group must be equal; stated by `FilteredMembers` |
| ExerciseLibrary.Matches | src/frontend/src/components/ExerciseLibrary.tsx:73-77 | the conjunction of the two matches; `FilteredMultiset` states that it decides membership |
| ExerciseLibrary.FilteredExercises | src/frontend/src/components/ExerciseLibrary.tsx:73-77 | the filtered list, pinned by the three lemmas below |
| ExerciseLibrary.FilteredIsSubsequence | src/frontend/src/components/ExerciseLibrary.tsx:73-77 | the filtered list keeps the source order |
| ExerciseLibrary.FilteredMembers | src/frontend/src/components/ExerciseLibrary.tsx:73-77 | every shown exercise contains the search term in its name (ignoring case) and is in the selected group; every source exercise meeting both is shown |
| ExerciseLibrary.FilteredMultiset | src/frontend/src/components/ExerciseLibrary.tsx:73-77 | a matching exercise is shown as often as it occurs in the source, a non-matching one never |
| ExerciseLibrary.NoFilterShowsAll | src/frontend/src/components/ExerciseLibrary.tsx:73-77 | an empty search with no group selected shows the whole source |
| ExerciseLibrary.SearchIgnoresTermCase | src/frontend/src/components/ExerciseLibrary.tsx:74 | two search terms with the same lower-cased form list the same exercises |
| ExerciseLibrary.PressInChest | src/frontend/src/components/ExerciseLibrary.tsx:18-77 | searching "press" in the Chest group of the built-in catalogue lists exactly Bench Press, then Incline Dumbbell Press |
| ExerciseLibrary.Toggled | src/frontend/src/components/ExerciseLibrary.tsx:196 | clicking a group clears the selection exactly when that group was selected, and otherwise selects that group |
| ExerciseLibrary.ToggleTwice | src/frontend/src/components/ExerciseLibrary.tsx:196 | clicking the same group twice gives back the original selection when it was that group, and no filter otherwise |
| ExerciseLibrary.Bucket | src/frontend/src/components/ExerciseLibrary.tsx:81 | one group's share of the filtered list; `BucketsPartition` states it holds exactly that group's filtered exercises, in order |
| ExerciseLibrary.GroupedExercises | src/frontend/src/components/ExerciseLibrary.tsx:79-85 | there is one bucket per listed group and no other; each bucket is the filtered exercises of that group |
| ExerciseLibrary.BucketsPartition | src/frontend/src/components/ExerciseLibrary.tsx:79-85 | each bucket keeps the filtered order and holds exactly the filtered exercises of its group; an exercise in an unlisted group is in no bucket |
| ExerciseLibrary.VisibleGroups | src/frontend/src/components/ExerciseLibrary.tsx:210-212 | a listed group gets a card exactly when its bucket is non-empty, and every card is for a listed group |
| ExerciseLibrary.ShowsNoResults | src/frontend/src/components/ExerciseLibrary.tsx:239 | the message shows exactly when the filtered list is empty; `NoCardsIffNoResults` relates it to the cards |
| ExerciseLibrary.NoCardsIffNoResults | src/frontend/src/components/ExerciseLibrary.tsx:210-243 | when every shown exercise is in a listed group, no card is drawn exactly when "No exercises found" is shown |
| ExerciseLibrary.UnlistedGroupDrawsNothing | src/frontend/src/components/ExerciseLibrary.tsx:210-243 | a matching exercise whose group is not in the list gets neither a card nor the no-results message |
| ExerciseLibrary.Browser.constructor | src/frontend/src/components/ExerciseLibrary.tsx:66-69 | empty search, no group, form hidden, new exercise blank with "Chest" and "Gym" |
| ExerciseLibrary.Browser.SetSearchTerm | src/frontend/src/components/ExerciseLibrary.tsx:126 | sets the search term and nothing else |
| ExerciseLibrary.Browser.ClickAll | src/frontend/src/components/ExerciseLibrary.tsx:184 | clears the group filter and nothing else |
| ExerciseLibrary.Browser.ClickGroup | src/frontend/src/components/ExerciseLibrary.tsx:196 | toggles the selected group and nothing else |
| ExerciseLibrary.Browser.ToggleAddForm | src/frontend/src/components/ExerciseLibrary.tsx:132 | flips whether the add form is shown and nothing else |
| ExerciseLibrary.Browser.EditNewExercise | src/frontend/src/components/ExerciseLibrary.tsx:145-163 | changes one field of the new-exercise form and nothing else |
| ExerciseLibrary.Browser.HandleAddExercise | src/frontend/src/components/ExerciseLibrary.tsx:87-98 | sends the form's fields unchanged; on success resets and hides the form and marks only the library stale; on failure leaves the form as it was |
| WorkoutHistoryList.SetsVolume | src/frontend/src/components/WorkoutHistoryList.tsx:59-61 | the inner reduce over sets; `SetsVolumeAppend` and `SetsVolumeNonNegative` state its sum properties |
| WorkoutHistoryList.EntriesVolume | src/frontend/src/components/WorkoutHistoryList.tsx:56-63 | the outer reduce over entries; `AppendEntryVolume` and `VolumeIsSumOverAllSets` state it sums reps times weight over all sets |
| WorkoutHistoryList.WorkoutVolume | src/frontend/src/components/WorkoutHistoryList.tsx:56-63 | the volume shown on a workout's card; `BenchPressVolume` gives a worked value |
| WorkoutHistoryList.AppendEntryVolume | src/frontend/src/components/WorkoutHistoryList.tsx:56-63 | one more entry adds exactly that entry's set total to the volume |
| WorkoutHistoryList.SetsVolumeAppend | src/frontend/src/components/WorkoutHistoryList.tsx:59-61 | the set total of two lists of sets joined together is the sum of their totals |
| WorkoutHistoryList.VolumeIsSumOverAllSets | src/frontend/src/components/WorkoutHistoryList.tsx:56-63 | the nested fold equals the sum of reps times weight over all sets of the workout |
| WorkoutHistoryList.VolumeWithoutSets | src/frontend/src/components/WorkoutHistoryList.tsx:56-63 | a workout without sets has volume 0 |
| WorkoutHistoryList.SetsVolumeNonNegative | src/frontend/src/components/WorkoutHistoryList.tsx:59-61 | non-negative reps and weights give a non-negative set total |
| WorkoutHistoryList.VolumeNonNegative | src/frontend/src/components/WorkoutHistoryList.tsx:56-63 | non-negative reps and weights give a non-negative workout volume |
| WorkoutHistoryList.BenchPressVolume | src/frontend/src/components/WorkoutHistoryList.tsx:56-63 | 10 x 135 plus 8 x 145 is 2510 |
| WorkoutHistoryList.SortedWorkouts | src/frontend/src/components/WorkoutHistoryList.tsx:40 | the sorted copy has the input's length; `SortedPermutes`, `SortedNewestFirst` and `SortIsStable` state it is the stable newest-first permutation |
| WorkoutHistoryList.InsertPermutes | src/frontend/src/components/WorkoutHistoryList.tsx:40 | inserting adds exactly one workout and keeps all others |
| WorkoutHistoryList.InsertNewestFirst | src/frontend/src/components/WorkoutHistoryList.tsx:40 | inserting into a newest-first list keeps it newest-first |
| WorkoutHistoryList.SortedPermutes | src/frontend/src/components/WorkoutHistoryList.tsx:40 | the sorted copy holds exactly the fetched workouts, each as often as it occurs |
| WorkoutHistoryList.SortedNewestFirst | src/frontend/src/components/WorkoutHistoryList.tsx:40 | timestamps never increase along the sorted copy |
| WorkoutHistoryList.InsertKeepsTies | src/frontend/src/components/WorkoutHistoryList.tsx:40 | an inserted workout goes before the workouts with its own timestamp |
| WorkoutHistoryList.SortIsStable | src/frontend/src/components/WorkoutHistoryList.tsx:40 | workouts with equal timestamps keep their original relative order |
| WorkoutHistoryList.RenderHistory | src/frontend/src/components/WorkoutHistoryList.tsx:7-49 | loading shows the skeleton; an absent or empty history shows the empty state; otherwise the headline is the server's total volume |
| WorkoutHistoryList.CardOf | src/frontend/src/components/WorkoutHistoryList.tsx:54-63 | a card shows its workout with that workout's own volume fold; `ListingCards` states the list of cards |
| WorkoutHistoryList.ListingCards | src/frontend/src/components/WorkoutHistoryList.tsx:40-63 | there is one card per workout, each workout once, newest first, each carrying its own volume |
| WorkoutHistoryList.HeadlineIsServerTotal | src/frontend/src/components/WorkoutHistoryList.tsx:49 | the headline is the server's total, not a sum of the cards: a total of 100 is shown over a single workout of volume 0 |
| AuthGuard.IsAuthenticated | src/frontend/src/components/AuthGuard.tsx:13 | an identity is present and its principal is not anonymous; `Guard` and `UnauthenticatedSeesLoginPrompt` state its role |
| AuthGuard.Guard | src/frontend/src/components/AuthGuard.tsx:13-102 | loading exactly while initializing; the login prompt exactly when not initializing and the identity is missing or anonymous; protected content exactly when not initializing and the identity is not anonymous; login is disabled exactly while logging in |
| AuthGuard.InitializingShowsLoading | src/frontend/src/components/AuthGuard.tsx:15-24 | while initializing, the loading view is shown whatever the identity |
| AuthGuard.UnauthenticatedSeesLoginPrompt | src/frontend/src/components/AuthGuard.tsx:13-26 | a missing identity and an anonymous one both get the login prompt |
| AuthGuard.QueriesEnabledWhileLoggedOut | src/frontend/src/hooks/useQueries.ts:14 | `Enabled` and `QueryFn` take no identity input, so an anonymous identity, which gets the login prompt, disables no query: with a non-fetching actor each query is enabled and answered by the server |

## Left out

- Rendering: markup, styling, icons, toasts, the skeleton placeholders and the `isPending`
  button labels. They show state and do not change it.
- Date formatting of workout timestamps (`WorkoutHistoryList.tsx:55`, `:74-77`) and `toFixed(0)`
  on the headline. They depend on locale and clock formatting.
- Floating point. Weights and volumes are exact reals, so rounding in the folds is not modelled.
- `parseInt` and `parseFloat`: their exact grammar is not modelled. They are parameters, and only
  the `|| 0` fallback is modelled.
- Text.Lower: `toLowerCase` is modelled on ASCII letters only; Unicode case mapping is out of
  scope.
- React Query internals: refetch scheduling, retries, background refresh, the `isFetching` and
  `isLoading` lifecycle, and concurrent requests. A fetch and a mutation are each one atomic
  step.
- The actor and identity providers (`useActor`, `useInternetIdentity`) and the remote backend.
  They are inputs: the actor is an optional server snapshot, and whether each request succeeds is a flag.
- Browser form validation (`required`, `min` on the inputs). Submit is modelled on any form
  state.
- Logout and any clearing of the query cache: no logout handler is in the files modelled.
- WorkoutLogger.Logger.UpdateExercise: called with the field `sets` (the untyped cast at
  `WorkoutLogger.tsx:46`) is not modelled, since the page never calls it that way. An
  out-of-range row index is excluded by `requires`; in the source it would throw.
- WorkoutLogger.Logger.AddSet, WorkoutLogger.Logger.RemoveSet and
  WorkoutLogger.Logger.UpdateSet require in-range indices for the same reason. The source writes
  into the shared row objects of a shallow copy; the model replaces rows by value, so aliasing
  between renders is not captured.
- The relation between a plan's `days` and its `dailyWorkouts` is not checked anywhere in the
  source, and the model does not enforce it either.
- The isLoading branch of the exercise library (`ExerciseLibrary.tsx:100-114`) is a placeholder
  view and is not modelled. The history's loading branch is, as `RenderHistory`.
- The pages, `Layout.tsx`, `App.tsx` and `ProgressDashboard.tsx` are routing and display and are
  not part of this model.

/**
 * The data-fetch layer of src/frontend/src/hooks/useQueries.ts: four cached
 * queries keyed by name and three mutations that mark cached queries stale
 * when they succeed. The react-query cache is modelled as an object holding,
 * per key, a stale flag and the last fetched value, together with the trace
 * of requests sent to the backend.
 *
 * The actor is `None` while `useActor` has none, otherwise `Some(server)`,
 * where `server` is what the remote backend answers to each read right now.
 */
module Queries {
  import opened Domain

  datatype QueryKey = WorkoutHistoryKey | ExerciseLibraryKey | ProgressStatsKey | WorkoutPlansKey

  /** The `queryKey` string of each query. */
  function KeyName(k: QueryKey): string
  {
    match k
    case WorkoutHistoryKey => "workoutHistory"
    case ExerciseLibraryKey => "exerciseLibrary"
    case ProgressStatsKey => "progressStats"
    case WorkoutPlansKey => "workoutPlans"
  }

  const AllKeys: set<QueryKey> := {WorkoutHistoryKey, ExerciseLibraryKey, ProgressStatsKey, WorkoutPlansKey}

  /** The four keys are four different cache entries. */
  lemma KeyNamesDistinct(a: QueryKey, b: QueryKey)
    ensures KeyName(a) == KeyName(b) <==> a == b
  {
  }

  /** The backend's answer to each read operation. */
  datatype Server = Server(history: WorkoutHistory, library: seq<Exercise>, stats: ProgressStats, plans: seq<WorkoutPlan>)

  /** A cached query value; the constructor says which query produced it. */
  datatype QueryData =
    | HistoryData(history: WorkoutHistory)
    | LibraryData(library: seq<Exercise>)
    | StatsData(stats: ProgressStats)
    | PlansData(plans: seq<WorkoutPlan>)
  {
    function Key(): QueryKey
    {
      match this
      case HistoryData(_) => WorkoutHistoryKey
      case LibraryData(_) => ExerciseLibraryKey
      case StatsData(_) => ProgressStatsKey
      case PlansData(_) => WorkoutPlansKey
    }
  }

  /** A request the client sends to the backend. */
  datatype Request =
    | GetWorkoutHistory
    | GetExerciseLibrary
    | GetProgressStats
    | GetWorkoutPlans
    | LogWorkoutRequest(entries: seq<WorkoutEntry>)
    | AddExerciseRequest(name: string, muscleGroup: string, category: string)
    | CreateWorkoutPlanRequest(name: string, days: int, dailyWorkouts: seq<seq<WorkoutEntry>>)

  function ReadRequest(k: QueryKey): Request
  {
    match k
    case WorkoutHistoryKey => GetWorkoutHistory
    case ExerciseLibraryKey => GetExerciseLibrary
    case ProgressStatsKey => GetProgressStats
    case WorkoutPlansKey => GetWorkoutPlans
  }

  /** `enabled: !!actor && !isFetching`, the same for all four queries. */
  predicate Enabled(actor: Option<Server>, isFetching: bool)
  {
    actor.Some? && !isFetching
  }

  /** What each query function returns when there is no actor. */
  function Default(k: QueryKey): (r: QueryData)
    ensures r.Key() == k
  {
    match k
    case WorkoutHistoryKey => HistoryData(WorkoutHistory([], 0.0))
    case ExerciseLibraryKey => LibraryData([])
    case ProgressStatsKey => StatsData(ProgressStats(0.0, 0, 0))
    case WorkoutPlansKey => PlansData([])
  }

  function Answer(server: Server, k: QueryKey): (r: QueryData)
    ensures r.Key() == k
  {
    match k
    case WorkoutHistoryKey => HistoryData(server.history)
    case ExerciseLibraryKey => LibraryData(server.library)
    case ProgressStatsKey => StatsData(server.stats)
    case WorkoutPlansKey => PlansData(server.plans)
  }

  /**
   * The `queryFn` of each query: the default when the actor is missing,
   * otherwise the server's answer exactly as given, even an empty one.
   */
  function QueryFn(k: QueryKey, actor: Option<Server>): (r: QueryData)
    ensures r.Key() == k
    ensures actor.None? ==> r == Default(k)
    ensures actor.Some? ==> r == Answer(actor.value, k)
  {
    if actor.None? then Default(k) else Answer(actor.value, k)
  }

  /** The no-actor defaults are the zero values of each result shape. */
  lemma DefaultsAreZero()
    ensures Default(WorkoutHistoryKey).history.workouts == [] && Default(WorkoutHistoryKey).history.totalVolume == 0.0
    ensures Default(ExerciseLibraryKey).library == [] && Default(WorkoutPlansKey).plans == []
    ensures Default(ProgressStatsKey).stats == ProgressStats(0.0, 0, 0)
  {
  }

  /**
   * An enabled query always has an actor, so a query that actually runs
   * never substitutes a default: an empty server history stays empty
   * rather than being replaced.
   */
  lemma EnabledQueryUsesServer(k: QueryKey, actor: Option<Server>, isFetching: bool)
    requires Enabled(actor, isFetching)
    ensures QueryFn(k, actor) == Answer(actor.value, k)
  {
  }

  datatype Mutation =
    | LogWorkout(entries: seq<WorkoutEntry>)
    | AddExercise(name: string, muscleGroup: string, category: string)
    | CreateWorkoutPlan(name: string, days: int, dailyWorkouts: seq<seq<WorkoutEntry>>)

  function MutationRequest(m: Mutation): Request
  {
    match m
    case LogWorkout(e) => LogWorkoutRequest(e)
    case AddExercise(n, g, c) => AddExerciseRequest(n, g, c)
    case CreateWorkoutPlan(n, d, w) => CreateWorkoutPlanRequest(n, d, w)
  }

  /** The `onSuccess` invalidation table. */
  function Invalidates(m: Mutation): set<QueryKey>
  {
    match m
    case LogWorkout(_) => {WorkoutHistoryKey, ProgressStatsKey}
    case AddExercise(_, _, _) => {ExerciseLibraryKey}
    case CreateWorkoutPlan(_, _, _) => {WorkoutPlansKey, ProgressStatsKey}
  }

  /** Which of the four caches each mutation leaves alone. */
  lemma InvalidationLeavesOthers(m: Mutation)
    ensures m.LogWorkout? ==> ExerciseLibraryKey !in Invalidates(m) && WorkoutPlansKey !in Invalidates(m)
    ensures m.AddExercise? ==> Invalidates(m) * {WorkoutHistoryKey, ProgressStatsKey, WorkoutPlansKey} == {}
    ensures m.CreateWorkoutPlan? ==> WorkoutHistoryKey !in Invalidates(m) && ExerciseLibraryKey !in Invalidates(m)
    ensures ProgressStatsKey in Invalidates(m) <==> !m.AddExercise?
  {
  }

  /**
   * Why a mutation failed: it was called with no actor (`mutationFn`
   * throws "Actor not initialized" before sending anything), or the backend
   * rejected it.
   */
  datatype MutationError = ActorNotInitialized | RemoteRejected

  datatype MutationResult = Done | Failed(error: MutationError)

  /** The stale flags after invalidating `keys`: those become stale, the rest keep their flag. */
  function MarkStale(stale: map<QueryKey, bool>, keys: set<QueryKey>): (r: map<QueryKey, bool>)
    ensures r.Keys == stale.Keys
    ensures forall k :: k in r ==> r[k] == (k in keys || stale[k])
  {
    map k | k in stale :: k in keys || stale[k]
  }

  class QueryCache {
    /** Whether the next read of each key must re-fetch. */
    var stale: map<QueryKey, bool>
    /** The last value fetched for each key; a missing key means "no data yet". */
    var data: map<QueryKey, QueryData>
    /** Every request sent to the backend, oldest first. */
    var requests: seq<Request>

    ghost predicate Valid()
      reads this
    {
      stale.Keys == AllKeys && forall k :: k in data ==> data[k].Key() == k
    }

    /** A fresh session's cache: nothing fetched, every key due for a fetch. */
    constructor ()
      ensures Valid()
      ensures data == map[] && requests == []
      ensures forall k :: k in stale ==> stale[k]
    {
      stale := map k | k in AllKeys :: true;
      data := map[];
      requests := [];
    }

    /** The value the hook exposes as `data` (`None` is `undefined`). */
    function Current(k: QueryKey): (r: Option<QueryData>)
      reads this
      requires Valid()
      ensures r.Some? ==> r.value.Key() == k
    {
      if k in data then Some(data[k]) else None
    }

    /**
     * A read of query `k`: an enabled query whose entry is stale runs its
     * query function and sends one read. When the backend answers
     * (`remoteOk`) the answer is cached and the stale flag cleared; when its
     * promise rejects, the cached value and the flag stay as they were. A
     * disabled or fresh query sends nothing and changes nothing.
     */
    method Fetch(k: QueryKey, actor: Option<Server>, isFetching: bool, remoteOk: bool) returns (r: Option<QueryData>)
      requires Valid()
      modifies this
      ensures Valid()
      ensures Enabled(actor, isFetching) && old(stale[k]) ==> requests == old(requests) + [ReadRequest(k)]
      ensures Enabled(actor, isFetching) && old(stale[k]) && remoteOk ==>
                data == old(data)[k := Answer(actor.value, k)] && stale == old(stale)[k := false]
      ensures Enabled(actor, isFetching) && old(stale[k]) && !remoteOk ==>
                data == old(data) && stale == old(stale)
      ensures !(Enabled(actor, isFetching) && old(stale[k])) ==>
                data == old(data) && stale == old(stale) && requests == old(requests)
      ensures r == Current(k)
    {
      if Enabled(actor, isFetching) && stale[k] {
        requests := requests + [ReadRequest(k)];
        if remoteOk {
          EnabledQueryUsesServer(k, actor, isFetching);
          data := data[k := QueryFn(k, actor)];
          stale := stale[k := false];
        }
      }
      r := Current(k);
    }

    /**
     * One mutation: without an actor it fails with "Actor not initialized"
     * before any request; otherwise it sends its request, and on success
     * marks exactly the keys of its invalidation table stale. Cached values
     * are never rewritten by a mutation.
     */
    method Mutate(m: Mutation, actor: Option<Server>, remoteOk: bool) returns (r: MutationResult)
      requires Valid()
      modifies this
      ensures Valid()
      ensures data == old(data)
      ensures actor.None? ==> r == Failed(ActorNotInitialized) && stale == old(stale) && requests == old(requests)
      ensures actor.Some? ==> requests == old(requests) + [MutationRequest(m)]
      ensures actor.Some? && remoteOk ==> r == Done && stale == MarkStale(old(stale), Invalidates(m))
      ensures actor.Some? && !remoteOk ==> r == Failed(RemoteRejected) && stale == old(stale)
    {
      if actor.None? {
        return Failed(ActorNotInitialized);
      }
      requests := requests + [MutationRequest(m)];
      if !remoteOk {
        return Failed(RemoteRejected);
      }
      stale := MarkStale(stale, Invalidates(m));
      r := Done;
    }
  }
}

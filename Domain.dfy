/**
 * The record shapes exchanged between the client and the backend
 * (src/frontend/src/backend.d.ts). `bigint` fields are unbounded integers,
 * `number` fields (weight, volume totals) are reals: floating-point rounding
 * is not part of this model.
 */
module Domain {

  datatype Option<+T> = None | Some(value: T)

  datatype Exercise = Exercise(name: string, category: string, muscleGroup: string)

  /** One performed set; the backend calls this record `Set_`. */
  datatype Set_ = Set_(weight: real, reps: int)

  datatype WorkoutEntry = WorkoutEntry(sets: seq<Set_>, exercise: Exercise)

  /** `timestamp` is a nanosecond instant chosen by the backend. */
  datatype Workout = Workout(entries: seq<WorkoutEntry>, timestamp: int)

  datatype WorkoutHistory = WorkoutHistory(workouts: seq<Workout>, totalVolume: real)

  datatype ProgressStats = ProgressStats(totalVolume: real, totalWorkouts: int, totalPlans: int)

  datatype WorkoutPlan = WorkoutPlan(days: int, name: string, dailyWorkouts: seq<seq<WorkoutEntry>>)
}

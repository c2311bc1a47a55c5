/** The records the application exchanges with the fitness API (lib/types.ts). */
module Types {
  import opened Wrappers

  /** `dailyDurationInMinutes` */
  datatype MinutesRange = MinutesRange(from: int, to: int)

  datatype Course = Course(
    id: string,                                  // _id
    nameRU: string,
    nameEN: string,
    description: string,
    directions: seq<string>,
    fitting: seq<string>,
    difficulty: Option<string>,
    durationInDays: Option<int>,
    dailyDurationInMinutes: Option<MinutesRange>,
    workouts: seq<string>                        // workout ids
  )

  datatype User = User(email: string, selectedCourses: seq<string>)

  datatype Exercise = Exercise(name: string, quantity: int, id: Option<string>)

  datatype Workout = Workout(id: string, name: string, video: string, exercises: seq<Exercise>)

  datatype WorkoutProgress = WorkoutProgress(workoutId: string, workoutCompleted: bool, progressData: seq<int>)

  datatype CourseProgress = CourseProgress(courseId: string, courseCompleted: bool, workoutsProgress: seq<WorkoutProgress>)
}

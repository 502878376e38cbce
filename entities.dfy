/** The immutable value records of Pathly/Domain/Entities. Every field in the
    Swift structs is a `let`, so each becomes a Dafny datatype (values that
    cannot change after construction). `UUID()` and `Date()`, which the Swift
    initialisers call, are passed in as the `id`, `createdAt` and `date`
    arguments instead. */
module Entities {
  import opened Wrappers
  import opened GoalInput
  import opened FrequencyInput
  import opened ExperienceInput

  /** A UUID, abstracted to a number. */
  type Uuid = nat
  /** A point in time (`Date`), in whole seconds. */
  type Instant = int
  /** A calendar day, counted in days from a fixed epoch. */
  type Day = int

  datatype IntervalType = Walk | Run

  /** `duration` is a `TimeInterval` in Swift; every value the app builds is a
      whole number of seconds, so it is a `nat` here. */
  datatype Interval = Interval(duration: nat, kind: IntervalType)

  datatype RunSegment = RunSegment(intervals: seq<Interval>)

  datatype Exercise = Exercise(name: string, description: string, duration: nat, gifName: Option<string>)

  datatype Workout = Workout(
    id: Uuid,
    date: Day,
    warmUp: seq<Exercise>,
    run: RunSegment,
    coolDown: seq<Exercise>,
    isCompleted: bool)

  datatype Week = Week(id: Uuid, weekNumber: int, workouts: seq<Workout>)

  datatype Plan = Plan(id: Uuid, userId: Uuid, weeks: seq<Week>, createdAt: Instant)

  datatype User = User(id: Uuid, goal: Goal, frequency: Frequency, experience: Experience, createdAt: Instant)

  /** `Workout.init`: a new workout is never completed. */
  function NewWorkout(id: Uuid, date: Day, warmUp: seq<Exercise>, run: RunSegment, coolDown: seq<Exercise>): (w: Workout)
    ensures !w.isCompleted
    ensures w.id == id && w.date == date && w.run == run
    ensures w.warmUp == warmUp && w.coolDown == coolDown
  {
    Workout(id, date, warmUp, run, coolDown, false)
  }

  /** `Exercise.init` with a GIF name given. */
  function NewExercise(name: string, description: string, duration: nat, gifName: string): (e: Exercise)
    ensures e.gifName == Some(gifName)
    ensures e.name == name && e.description == description && e.duration == duration
  {
    Exercise(name, description, duration, Some(gifName))
  }

  /** `Exercise.init` with the `gifName` argument omitted (its default is `nil`). */
  function NewExerciseWithoutGif(name: string, description: string, duration: nat): (e: Exercise)
    ensures e.gifName == None
    ensures e.name == name && e.description == description && e.duration == duration
  {
    Exercise(name, description, duration, None)
  }

  /** `Week.init`: the id is freshly drawn; number and workouts are kept as given. */
  function NewWeek(id: Uuid, weekNumber: int, workouts: seq<Workout>): (w: Week)
    ensures w.weekNumber == weekNumber
    ensures |w.workouts| == |workouts| && forall i :: 0 <= i < |workouts| ==> w.workouts[i] == workouts[i]
    ensures w.id == id
  {
    Week(id, weekNumber, workouts)
  }

  /** `Plan.init`: the id and the creation time are drawn at construction. */
  function NewPlan(id: Uuid, userId: Uuid, weeks: seq<Week>, createdAt: Instant): (p: Plan)
    ensures p.userId == userId
    ensures |p.weeks| == |weeks| && forall i :: 0 <= i < |weeks| ==> p.weeks[i] == weeks[i]
    ensures p.id == id && p.createdAt == createdAt
  {
    Plan(id, userId, weeks, createdAt)
  }

  /** `User.init`: the three onboarding choices are kept as given. */
  function NewUser(id: Uuid, goal: Goal, frequency: Frequency, experience: Experience, createdAt: Instant): (u: User)
    ensures u.goal == goal && u.frequency == frequency && u.experience == experience
    ensures u.id == id && u.createdAt == createdAt
  {
    User(id, goal, frequency, experience, createdAt)
  }

  /** Two users built from the same choices agree on every choice, and differ
      at most in the id and creation time drawn for them. */
  lemma UsersFromSameChoices(id1: Uuid, t1: Instant, id2: Uuid, t2: Instant,
                             goal: Goal, frequency: Frequency, experience: Experience)
    ensures var u1, u2 := NewUser(id1, goal, frequency, experience, t1), NewUser(id2, goal, frequency, experience, t2);
      u1.goal == u2.goal && u1.frequency == u2.frequency && u1.experience == u2.experience &&
      (u1 == u2 <==> id1 == id2 && t1 == t2)
  {
  }
}

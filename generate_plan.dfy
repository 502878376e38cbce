/** Pathly/Domain/UseCases/GeneratePlanUseCase.swift: expands a user into a
    four-week plan and saves it. The content of every workout is the same
    fixed sample; only the user's frequency (how many workouts a week) and
    the week number (which dates) shape the plan. Goal and experience are
    never read.

    Nondeterminism is made explicit: `today` is the reference day that
    `Date()` returns, `now` the plan's creation time, and the UUIDs drawn for
    the plan, for week `w` and for workout (`w`, `d`) are `planId`,
    `weekId(w)` and `workoutId(w, d)`. */
module GeneratePlan {
  import opened Wrappers
  import opened FrequencyInput
  import opened Entities
  import opened PlanRepository

  /** The number of weeks in every plan. */
  const PlanWeeks := 4

  /** The warm-up of every generated workout. */
  const SampleWarmUp: seq<Exercise> := [
    NewExercise("Leg Swings", "Stand upright and swing one leg forward and backward, then side to side. Repeat with the other leg.", 60, "leg_swings"),
    NewExercise("Arm Circles", "Extend your arms out to the sides and make small circles, gradually increasing the size.", 60, "arm_circles")
  ]

  /** The run segment of every generated workout: walk 2 min, run 1 min, three times. */
  const SampleIntervals: seq<Interval> := [
    Interval(120, Walk), Interval(60, Run),
    Interval(120, Walk), Interval(60, Run),
    Interval(120, Walk), Interval(60, Run)
  ]

  /** The cool-down of every generated workout. */
  const SampleCoolDown: seq<Exercise> := [
    NewExercise("Hamstring Stretch", "Sit on the ground with one leg extended and reach toward your toes. Hold for 30 seconds and switch legs.", 60, "hamstring_stretch"),
    NewExercise("Calf Stretch", "Stand facing a wall and place one foot behind you, pressing the heel down. Hold for 30 seconds and switch legs.", 60, "calf_stretch")
  ]

  /** Days from the reference day to workout `day` of week `week` (both 1-based). */
  function DayOffset(week: int, day: int): int
  {
    (week - 1) * 7 + day
  }

  /** True when `w` carries exactly the fixed sample content. */
  predicate HasSampleContent(w: Workout)
  {
    w.warmUp == SampleWarmUp && w.run == RunSegment(SampleIntervals) &&
    w.coolDown == SampleCoolDown && !w.isCompleted
  }

  /** `createSampleWorkouts(for: week, frequency:)`: one workout for each day
      1 ... daysPerWeek, dated `today` plus the day offset. */
  function CreateSampleWorkouts(week: int, frequency: Frequency, today: Day, workoutId: (int, int) -> Uuid): (ws: seq<Workout>)
    ensures |ws| == DaysPerWeek(frequency)
    ensures forall d :: 0 <= d < |ws| ==> ws[d].date == today + DayOffset(week, d + 1)
    ensures forall d :: 0 <= d < |ws| ==> HasSampleContent(ws[d])
  {
    var ws := seq(DaysPerWeek(frequency), d => SampleWorkout(workoutId(week, d + 1), today + DayOffset(week, d + 1)));
    assert forall d :: 0 <= d < |ws| ==> ws[d] == SampleWorkout(workoutId(week, d + 1), today + DayOffset(week, d + 1));
    ws
  }

  /** One generated workout: the fixed sample content on the given day. */
  function SampleWorkout(id: Uuid, date: Day): (w: Workout)
    ensures w.id == id && w.date == date
    ensures HasSampleContent(w)
  {
    NewWorkout(id, date, SampleWarmUp, RunSegment(SampleIntervals), SampleCoolDown)
  }

  /** `createSamplePlan(for: user)`: weeks 1 ... 4, in order, each holding
      `daysPerWeek` workouts, owned by the user. */
  function CreateSamplePlan(user: User, planId: Uuid, weekId: int -> Uuid, workoutId: (int, int) -> Uuid,
                            today: Day, now: Instant): (p: Plan)
    ensures p.userId == user.id
    ensures |p.weeks| == PlanWeeks
    ensures forall k :: 0 <= k < |p.weeks| ==> p.weeks[k].weekNumber == k + 1
    ensures forall k :: 0 <= k < |p.weeks| ==> |p.weeks[k].workouts| == DaysPerWeek(user.frequency)
  {
    var weeks := seq(PlanWeeks, k => SampleWeek(user.frequency, k + 1, today, weekId, workoutId));
    assert forall k :: 0 <= k < |weeks| ==> weeks[k] == SampleWeek(user.frequency, k + 1, today, weekId, workoutId);
    NewPlan(planId, user.id, weeks, now)
  }

  /** Week `week` of a generated plan. */
  function SampleWeek(frequency: Frequency, week: int, today: Day, weekId: int -> Uuid, workoutId: (int, int) -> Uuid): (w: Week)
    ensures w.weekNumber == week && w.id == weekId(week)
    ensures w.workouts == CreateSampleWorkouts(week, frequency, today, workoutId)
  {
    NewWeek(weekId(week), week, CreateSampleWorkouts(week, frequency, today, workoutId))
  }

  /** The plan's workouts in schedule order: week by week, day by day. */
  function Flatten(weeks: seq<Week>): seq<Workout>
  {
    if weeks == [] then [] else weeks[0].workouts + Flatten(weeks[1..])
  }

  /** Weeks of `n` workouts each, where workout `d` of the `k`-th week falls on
      `base + 7k + d + 1`, flatten to `n` workouts a week on strictly
      increasing days, all within the weeks' span. */
  lemma {:induction false} FlattenSchedule(weeks: seq<Week>, n: int, base: Day)
    requires 1 <= n <= 7
    requires forall k :: 0 <= k < |weeks| ==> |weeks[k].workouts| == n
    requires forall k, d :: 0 <= k < |weeks| && 0 <= d < n ==> weeks[k].workouts[d].date == base + 7 * k + d + 1
    ensures |Flatten(weeks)| == n * |weeks|
    ensures forall i :: 0 <= i < |Flatten(weeks)| ==> base + 1 <= Flatten(weeks)[i].date <= base + 7 * (|weeks| - 1) + n
    ensures forall i, j :: 0 <= i < j < |Flatten(weeks)| ==> Flatten(weeks)[i].date < Flatten(weeks)[j].date
  {
    if weeks != [] {
      var rest := weeks[1..];
      forall k, d | 0 <= k < |rest| && 0 <= d < n
        ensures rest[k].workouts[d].date == (base + 7) + 7 * k + d + 1
      {
        assert rest[k] == weeks[k + 1];
      }
      FlattenSchedule(rest, n, base + 7);
      var head := weeks[0].workouts;
      var flat := Flatten(weeks);
      assert flat == head + Flatten(rest);
      assert n * |weeks| == n + n * |rest|;
      forall i | 0 <= i < |flat|
        ensures base + 1 <= flat[i].date <= base + 7 * (|weeks| - 1) + n
      {
        if i >= n {
          assert flat[i] == Flatten(rest)[i - n];
        }
      }
      forall i, j | 0 <= i < j < |flat|
        ensures flat[i].date < flat[j].date
      {
        if j < n {
          assert flat[i].date == base + i + 1 && flat[j].date == base + j + 1;
        } else if i < n {
          assert flat[i].date <= base + n;
          assert flat[j] == Flatten(rest)[j - n];
        } else {
          assert flat[i] == Flatten(rest)[i - n] && flat[j] == Flatten(rest)[j - n];
        }
      }
    }
  }

  /** The generated schedule: 4 * daysPerWeek workouts on strictly increasing
      days, all between 1 and 27 days after the reference day. */
  lemma PlanSchedule(user: User, planId: Uuid, weekId: int -> Uuid, workoutId: (int, int) -> Uuid, today: Day, now: Instant)
    ensures var ws := Flatten(CreateSamplePlan(user, planId, weekId, workoutId, today, now).weeks);
      && |ws| == PlanWeeks * DaysPerWeek(user.frequency)
      && (forall i :: 0 <= i < |ws| ==> today + 1 <= ws[i].date <= today + 27)
      && (forall i, j :: 0 <= i < j < |ws| ==> ws[i].date < ws[j].date)
  {
    var p := CreateSamplePlan(user, planId, weekId, workoutId, today, now);
    var n := DaysPerWeek(user.frequency);
    forall k, d | 0 <= k < |p.weeks| && 0 <= d < n
      ensures p.weeks[k].workouts[d].date == today + 7 * k + d + 1
    {
      assert p.weeks[k] == SampleWeek(user.frequency, k + 1, today, weekId, workoutId);
    }
    FlattenSchedule(p.weeks, n, today);
  }

  /** Workout `d` of week `w` of the plan is dated `today + (w-1)*7 + d`, and
      every workout has the fixed sample content, whatever the week. */
  lemma PlanWorkouts(user: User, planId: Uuid, weekId: int -> Uuid, workoutId: (int, int) -> Uuid, today: Day, now: Instant,
                     w: int, d: int)
    requires 1 <= w <= PlanWeeks && 1 <= d <= DaysPerWeek(user.frequency)
    ensures var p := CreateSamplePlan(user, planId, weekId, workoutId, today, now);
      && p.weeks[w - 1].workouts[d - 1].date == today + (w - 1) * 7 + d
      && HasSampleContent(p.weeks[w - 1].workouts[d - 1])
      && p.weeks[w - 1].workouts[d - 1].id == workoutId(w, d)
  {
    var p := CreateSamplePlan(user, planId, weekId, workoutId, today, now);
    assert p.weeks[w - 1] == SampleWeek(user.frequency, w, today, weekId, workoutId);
  }

  /** Goal and experience play no part: users with the same id and frequency
      get the same plan. */
  lemma PlanIgnoresGoalAndExperience(u1: User, u2: User, planId: Uuid, weekId: int -> Uuid, workoutId: (int, int) -> Uuid,
                                     today: Day, now: Instant)
    requires u1.id == u2.id && u1.frequency == u2.frequency
    ensures CreateSamplePlan(u1, planId, weekId, workoutId, today, now) == CreateSamplePlan(u2, planId, weekId, workoutId, today, now)
  {
  }

  /** Sum of the interval durations, in seconds. */
  function TotalDuration(intervals: seq<Interval>): nat
  {
    if intervals == [] then 0 else intervals[0].duration + TotalDuration(intervals[1..])
  }

  /** The fixed run segment alternates walk 120 s and run 60 s, starting with
      a walk and ending with a run, and lasts 540 s. */
  lemma SampleRunSegment()
    ensures |SampleIntervals| == 6
    ensures forall i :: 0 <= i < |SampleIntervals| ==>
      SampleIntervals[i] == (if i % 2 == 0 then Interval(120, Walk) else Interval(60, Run))
    ensures SampleIntervals[0].kind == Walk && SampleIntervals[5].kind == Run
    ensures TotalDuration(SampleIntervals) == 540
  {
  }

  /** The fixed warm-up and cool-down: two one-minute exercises each. */
  lemma SampleExercises()
    ensures |SampleWarmUp| == 2 && SampleWarmUp[0].name == "Leg Swings" && SampleWarmUp[1].name == "Arm Circles"
    ensures |SampleCoolDown| == 2 && SampleCoolDown[0].name == "Hamstring Stretch" && SampleCoolDown[1].name == "Calf Stretch"
    ensures forall e :: e in SampleWarmUp + SampleCoolDown ==> e.duration == 60 && e.gifName.Some?
  {
  }

  class GeneratePlanUseCase {
    const repository: PlanRepositoryImpl

    constructor (repo: PlanRepositoryImpl)
      ensures repository == repo
    {
      repository := repo;
    }

    /** `execute(for: user)`: build the plan, save it once, and return it; a
        save that throws is passed on and no plan is returned. */
    method Execute(user: User, planId: Uuid, weekId: int -> Uuid, workoutId: (int, int) -> Uuid,
                   today: Day, now: Instant, encodes: bool) returns (r: Result<Plan, StorageError>)
      modifies repository
      ensures var plan := CreateSamplePlan(user, planId, weekId, workoutId, today, now);
        && repository.saveCalls == old(repository.saveCalls) + [plan]
        && repository.slot == AfterSave(old(repository.slot), plan, encodes)
        && r == (if encodes then Ok(plan) else Err(EncodingFailed))
    {
      var plan := CreateSamplePlan(user, planId, weekId, workoutId, today, now);
      var saved := repository.SavePlan(plan, encodes);
      if saved.Err? {
        return Err(saved.error);
      }
      r := Ok(plan);
    }
  }
}

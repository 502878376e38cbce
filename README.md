# Pathly training-plan core, modelled in Dafny

Pathly is an iOS app that builds a four-week run/walk training plan from three
onboarding choices: a goal, a weekly frequency and an experience level. This
project models the app's logic, leaving out the SwiftUI screens:

- **Value objects** (`value_objects.dfy`): the closed enums `Frequency`, `Goal` and
  `Experience`. Each has its raw string, its `allCases` order and decoding by raw
  value. `Frequency` also has `daysPerWeek`.
- **Entities** (`entities.dfy`): the immutable records `Workout`, `RunSegment`,
  `Interval`, `Exercise`, `Week`, `Plan` and `User`, and their initialisers.
  `RunSegment.init` and `Interval.init` only copy their arguments, so they are
  the datatype constructors themselves.
- **Plan generator** (`generate_plan.dfy`): `GeneratePlanUseCase`. It builds 4 weeks
  of `daysPerWeek` workouts. Each workout has the same fixed content: a 2-exercise
  warm-up, the run segment `[walk 120 s, run 60 s] × 3` and a 2-exercise cool-down.
  Workout (w, d) is dated `(w-1)*7 + d` days after the reference day. The use case
  saves the plan once and then returns it.
- **Plan store** (`plan_repository.dfy`): `PlanRepositoryImpl`, one UserDefaults slot
  under a fixed key. Saving overwrites the slot. A read returns the stored plan only
  to its owner.
- **Workout screen** (`workout_detail.dfy`): the accessors of `WorkoutDetailViewModel`
  and the run-segment summary string, e.g. "Walk 2 min, Run 1 min, Repeat 3x".
- **Onboarding** (`onboarding.dfy`): the clamped three-step machine. Its completion
  always clears the first-launch flag and goes home, even when saving fails.

`UUID()`, `Date()` and the calendar are not modelled. The ids, the creation
times and the reference day are parameters instead. Dates are whole days, and
durations are whole seconds (`nat`).

`GeneratePlanUseCase.swift` reads neither the goal nor the experience level.
Every workout has the same fixed content, with no week-over-week progression.
The plan store uses one fixed key, so saving plan B evicts plan A
(`SaveEvictsOtherOwner`).

## Model

| member | source | states |
|---|---|---|
| `FrequencyInput.DaysPerWeek` | Pathly/Domain/ValueObjects/FrequencyInput.swift:15-24 | every frequency asks for 1 to 6 workouts a week, and the count n picks the n-th case of `allCases` |
| `FrequencyInput.DaysPerWeekInjective` | Pathly/Domain/ValueObjects/FrequencyInput.swift:16-23 | two frequencies give the same count if and only if they are the same case |
| `FrequencyInput.DaysPerWeekInDeclarationOrder` | Pathly/Domain/ValueObjects/FrequencyInput.swift:4-23 | the six cases, in declaration order, map to 1, 2, 3, 4, 5, 6 |
| `FrequencyInput.RawValue` | Pathly/Domain/ValueObjects/FrequencyInput.swift:4-9 | each raw value is the case's workout count as a digit followed by " day per week" (for one) or " days per week" |
| `FrequencyInput.FromRaw` | Pathly/Domain/ValueObjects/FrequencyInput.swift:3-9 | decoding by raw value yields a case with that raw value, or nothing when no case has it |
| `FrequencyInput.DisplayName` | Pathly/Domain/ValueObjects/FrequencyInput.swift:11-13 | the display name is the raw value: decoding it gives back the frequency |
| `FrequencyInput.RawValueRoundTrip` | Pathly/Domain/ValueObjects/FrequencyInput.swift:4-9 | raw values are pairwise distinct, so decoding inverts encoding |
| `GoalInput.RawValues` | Pathly/Domain/ValueObjects/GoalInput.swift:4-9 | the six raw values are "Build Endurance", "Lose Weight", "Run 5K", "Run 10K", "Half Marathon" and "Marathon", pairwise distinct |
| `GoalInput.FromRaw` | Pathly/Domain/ValueObjects/GoalInput.swift:3-9 | decoding by raw value yields a case with that raw value, or nothing |
| `GoalInput.DisplayName` | Pathly/Domain/ValueObjects/GoalInput.swift:11-13 | the display name is the raw value and decodes back to the goal |
| `GoalInput.RawValueRoundTrip` | Pathly/Domain/ValueObjects/GoalInput.swift:4-9 | decoding inverts encoding for every goal |
| `GoalInput.AllCasesComplete` | Pathly/Domain/ValueObjects/GoalInput.swift:3-9 | `allCases` lists six goals, each goal exactly once |
| `ExperienceInput.RawValues` | Pathly/Domain/ValueObjects/ExperienceInput.swift:4-6 | the three raw values are "Beginner", "Intermediate" and "Advanced", pairwise distinct |
| `ExperienceInput.FromRaw` | Pathly/Domain/ValueObjects/ExperienceInput.swift:3-6 | decoding by raw value yields a case with that raw value, or nothing |
| `ExperienceInput.DisplayName` | Pathly/Domain/ValueObjects/ExperienceInput.swift:8-10 | the display name is the raw value and decodes back to the level |
| `ExperienceInput.RawValueRoundTrip` | Pathly/Domain/ValueObjects/ExperienceInput.swift:4-6 | decoding inverts encoding for every level |
| `ExperienceInput.AllCasesComplete` | Pathly/Domain/ValueObjects/ExperienceInput.swift:3-6 | `allCases` lists three levels, each exactly once |
| `Entities.NewWorkout` | Pathly/Domain/Entities/Workout.swift:11-18 | a new workout is not completed; date, warm-up, run segment and cool-down are kept as given |
| `Entities.NewExercise` | Pathly/Domain/Entities/Workout.swift:50-55 | an exercise built with a GIF name stores it, and keeps name, description and duration |
| `Entities.NewExerciseWithoutGif` | Pathly/Domain/Entities/Workout.swift:48-55 | an exercise built without the GIF argument has no GIF name |
| `Entities.NewWeek` | Pathly/Domain/Entities/Week.swift:8-12 | the week number and the workouts (same length, same order) are kept; the id is the drawn one |
| `Entities.NewPlan` | Pathly/Domain/Entities/Plan.swift:9-14 | owner and weeks (same length, same order) are kept; id and creation time are the drawn ones |
| `Entities.NewUser` | Pathly/Domain/Entities/User.swift:10-16 | goal, frequency and experience are kept; id and creation time are the drawn ones |
| `Entities.UsersFromSameChoices` | Pathly/Domain/Entities/User.swift:10-16 | users built from the same choices agree on all three, and are equal if and only if id and time agree |
| `GeneratePlan.SampleWorkout` | Pathly/Domain/UseCases/GeneratePlanUseCase.swift:34-57 | a generated workout has the given id and day and exactly the fixed sample content, not completed |
| `GeneratePlan.CreateSampleWorkouts` | Pathly/Domain/UseCases/GeneratePlanUseCase.swift:27-59 | a week holds `daysPerWeek` workouts; workout d is dated reference + (week-1)*7 + d and has the sample content |
| `GeneratePlan.SampleWeek` | Pathly/Domain/UseCases/GeneratePlanUseCase.swift:20-22 | week w is numbered w and holds that week's generated workouts |
| `GeneratePlan.CreateSamplePlan` | Pathly/Domain/UseCases/GeneratePlanUseCase.swift:18-25 | the plan belongs to the user, has 4 weeks numbered 1-4 in order, each with `daysPerWeek` workouts |
| `GeneratePlan.FlattenSchedule` | Pathly/Domain/UseCases/GeneratePlanUseCase.swift:31-32 | weeks scheduled 7 days apart with at most 7 consecutive days each flatten to strictly increasing dates inside their span |
| `GeneratePlan.PlanSchedule` | Pathly/Domain/UseCases/GeneratePlanUseCase.swift:20-32 | the plan's 4 * daysPerWeek workouts fall on strictly increasing days, 1 to 27 days after the reference day |
| `GeneratePlan.PlanWorkouts` | Pathly/Domain/UseCases/GeneratePlanUseCase.swift:31-57 | workout (w, d) is dated reference + (w-1)*7 + d, has the drawn id and the sample content in every week |
| `GeneratePlan.PlanIgnoresGoalAndExperience` | Pathly/Domain/UseCases/GeneratePlanUseCase.swift:18-58 | users with the same id and frequency get the same plan, whatever their goal and experience |
| `GeneratePlan.SampleRunSegment` | Pathly/Domain/UseCases/GeneratePlanUseCase.swift:41-49 | the run segment is walk 120 / run 60 alternating, 6 intervals, walk first, run last, 540 s in all |
| `GeneratePlan.SampleExercises` | Pathly/Domain/UseCases/GeneratePlanUseCase.swift:35-55 | warm-up is Leg Swings, Arm Circles; cool-down is Hamstring Stretch, Calf Stretch; each 60 s with a GIF |
| `GeneratePlan.GeneratePlanUseCase.constructor` | Pathly/Domain/UseCases/GeneratePlanUseCase.swift:6-8 | the use case keeps the repository it is given |
| `GeneratePlan.GeneratePlanUseCase.Execute` | Pathly/Domain/UseCases/GeneratePlanUseCase.swift:10-16 | the built plan is passed to `savePlan` exactly once; it is returned when the save succeeds, and the save's error otherwise |
| `PlanRepository.AfterSave` | Pathly/Data/Repositories/PlanRepositoryImpl.swift:7-10 | a successful save replaces the slot with the plan's encoding; a failed encoding leaves it as it was |
| `PlanRepository.Lookup` | Pathly/Data/Repositories/PlanRepositoryImpl.swift:12-18 | a read fails exactly when the blob does not decode, and then only with a decoding error; it yields a plan exactly when the stored plan belongs to the asked owner, and that plan is the stored one |
| `PlanRepository.EmptyStoreHasNoPlan` | Pathly/Data/Repositories/PlanRepositoryImpl.swift:13-15 | before any save, no owner has a plan |
| `PlanRepository.SaveThenGet` | Pathly/Data/Repositories/PlanRepositoryImpl.swift:7-17 | after saving a plan, its owner reads it back |
| `PlanRepository.SaveThenGetOther` | Pathly/Data/Repositories/PlanRepositoryImpl.swift:17 | after saving a plan, every other owner reads nothing |
| `PlanRepository.SaveEvictsOtherOwner` | Pathly/Data/Repositories/PlanRepositoryImpl.swift:5-9 | saving B's plan after A's loses A's plan and keeps B's |
| `PlanRepository.PlanRepositoryImpl.constructor` | Pathly/Data/Repositories/PlanRepositoryImpl.swift:3-5 | the store starts with what UserDefaults already holds and no save calls |
| `PlanRepository.PlanRepositoryImpl.SavePlan` | Pathly/Data/Repositories/PlanRepositoryImpl.swift:7-10 | the slot becomes `AfterSave` of the old slot; the call fails exactly when encoding fails |
| `PlanRepository.PlanRepositoryImpl.GetPlan` | Pathly/Data/Repositories/PlanRepositoryImpl.swift:12-18 | the result is `Lookup` of the slot, and the slot is not changed |
| `PlanRepository.PlanRepositoryImpl.UpdatePlan` | Pathly/Data/Repositories/PlanRepositoryImpl.swift:20-22 | `updatePlan` has exactly the effect and outcome of `savePlan` |
| `WorkoutDetail.FirstOfKind` | Pathly/Features/Plan/ViewModels/WorkoutDetailViewModel.swift:25-26 | the result is an interval of the kind with none of that kind before it, and it is absent if and only if no interval has the kind |
| `WorkoutDetail.CountOfKind` | Pathly/Features/Plan/ViewModels/WorkoutDetailViewModel.swift:30 | the count is at most the length and is zero if and only if no interval has the kind |
| `WorkoutDetail.CountOfKindAppend` | Pathly/Features/Plan/ViewModels/WorkoutDetailViewModel.swift:30 | counting distributes over concatenation |
| `WorkoutDetail.WholeMinutes` | Pathly/Features/Plan/ViewModels/WorkoutDetailViewModel.swift:32-33 | the result is the whole minutes m with 60m <= seconds < 60(m+1) |
| `WorkoutDetail.NatToString` | Pathly/Features/Plan/ViewModels/WorkoutDetailViewModel.swift:37-44 | the number prints as nonempty decimal digits without a leading zero, and the digits denote the number |
| `WorkoutDetail.NatToStringInjective` | Pathly/Features/Plan/ViewModels/WorkoutDetailViewModel.swift:37-44 | distinct numbers print differently |
| `WorkoutDetail.SummaryPhrases` | Pathly/Features/Plan/ViewModels/WorkoutDetailViewModel.swift:30-47 | with a run and a walk present, the summary is the walk, run and repeat phrases of the first walk, the first run and the run count |
| `WorkoutDetail.WalkPhrase` | Pathly/Features/Plan/ViewModels/WorkoutDetailViewModel.swift:36-38 | the walk phrase is empty exactly when the walk has no whole minute, and never holds the letter 'u' |
| `WorkoutDetail.RunPhrase` | Pathly/Features/Plan/ViewModels/WorkoutDetailViewModel.swift:39-41 | the run phrase is empty exactly when the run has no whole minute |
| `WorkoutDetail.RepeatPhrase` | Pathly/Features/Plan/ViewModels/WorkoutDetailViewModel.swift:43-45 | the repeat phrase is empty exactly when there is at most one run, and never holds the letter 'u' |
| `WorkoutDetail.PhrasesSpellTheirNumber` | Pathly/Features/Plan/ViewModels/WorkoutDetailViewModel.swift:36-45 | a non-empty phrase is "Walk ", "Run " or ", Repeat " and " min, ", " min" or "x" around the decimal digits of its number, which read back as that number |
| `WorkoutDetail.PhrasesAreNotFallback` | Pathly/Features/Plan/ViewModels/WorkoutDetailViewModel.swift:27-45 | no combination of the three phrases reads "Run Segment" |
| `WorkoutDetail.Summary` | Pathly/Features/Plan/ViewModels/WorkoutDetailViewModel.swift:24-48 | the summary is "Run Segment" if and only if the list has no run or no walk; otherwise its parts are as stated by `SummaryPhrases`, `SummaryWalkPhrase`, `SummaryRunPhrase` and `SummaryRepeatPhrase` |
| `WorkoutDetail.WalkPhraseOpens` | Pathly/Features/Plan/ViewModels/WorkoutDetailViewModel.swift:35-45 | the joined phrases open with "Walk W min, " exactly when W > 0 |
| `WorkoutDetail.RunPhraseOccurs` | Pathly/Features/Plan/ViewModels/WorkoutDetailViewModel.swift:35-45 | "Run R min" occurs in the joined phrases exactly when R > 0 |
| `WorkoutDetail.SummaryWalkPhrase` | Pathly/Features/Plan/ViewModels/WorkoutDetailViewModel.swift:36-38 | the summary opens with "Walk W min, " if and only if the first walk's whole minutes W are positive |
| `WorkoutDetail.SummaryRunPhrase` | Pathly/Features/Plan/ViewModels/WorkoutDetailViewModel.swift:39-41 | "Run R min" occurs in the summary if and only if the first run's whole minutes R are positive |
| `WorkoutDetail.SummaryRepeatPhrase` | Pathly/Features/Plan/ViewModels/WorkoutDetailViewModel.swift:43-45 | the summary ends in ", Repeat Nx" when both kinds occur and there are N > 1 runs, and otherwise never ends in 'x' |
| `WorkoutDetail.CyclesRunCount` | Pathly/Features/Plan/ViewModels/WorkoutDetailViewModel.swift:30 | k walk/run cycles hold exactly k runs |
| `WorkoutDetail.CyclesSummary` | Pathly/Features/Plan/ViewModels/WorkoutDetailViewModel.swift:24-47 | k >= 1 cycles of walk w s / run r s summarise with w/60, r/60 and k |
| `WorkoutDetail.SampleIntervalsAreCycles` | Pathly/Domain/UseCases/GeneratePlanUseCase.swift:41-48 | the generated run segment is three cycles of walk 120 s, run 60 s |
| `WorkoutDetail.GeneratedWorkoutSummary` | Pathly/Features/Plan/ViewModels/WorkoutDetailViewModel.swift:35-47 | every generated workout's summary reads "Walk 2 min, Run 1 min, Repeat 3x" |
| `WorkoutDetail.WorkoutDetailViewModel.constructor` | Pathly/Features/Plan/ViewModels/WorkoutDetailViewModel.swift:7-9 | the view model holds the given workout |
| `WorkoutDetail.WorkoutDetailViewModel.WarmUpExercises` | Pathly/Features/Plan/ViewModels/WorkoutDetailViewModel.swift:11-13 | the warm-up is the workout's own, unchanged |
| `WorkoutDetail.WorkoutDetailViewModel.RunIntervals` | Pathly/Features/Plan/ViewModels/WorkoutDetailViewModel.swift:15-17 | the intervals are the workout's own, unchanged |
| `WorkoutDetail.WorkoutDetailViewModel.CoolDownExercises` | Pathly/Features/Plan/ViewModels/WorkoutDetailViewModel.swift:19-21 | the cool-down is the workout's own, unchanged |
| `WorkoutDetail.WorkoutDetailViewModel.RunIntervalSummary` | Pathly/Features/Plan/ViewModels/WorkoutDetailViewModel.swift:24-48 | the screen's summary is the summary of the workout's intervals |
| `Onboarding.StepRawValue` | Pathly/Features/Onboarding/ViewModels/OnboardingViewModel.swift:3-7 | every step's raw value lies in 0..2 and indexes that step in `allCases` |
| `Onboarding.AllStepsByRawValue` | Pathly/Features/Onboarding/ViewModels/OnboardingViewModel.swift:3-7 | `allCases` holds the three steps, every step, each at the index of its raw value |
| `Onboarding.StepFromRaw` | Pathly/Features/Onboarding/ViewModels/OnboardingViewModel.swift:3-7 | a step exists for a raw value if and only if it is in 0..2, and it has that raw value |
| `Onboarding.Next` | Pathly/Features/Onboarding/ViewModels/OnboardingViewModel.swift:16-21 | "next" advances the raw value by one, and stays at the last step |
| `Onboarding.Previous` | Pathly/Features/Onboarding/ViewModels/OnboardingViewModel.swift:23-28 | "previous" lowers the raw value by one, and stays at the first step |
| `Onboarding.PreviousAfterNext` | Pathly/Features/Onboarding/ViewModels/OnboardingViewModel.swift:16-28 | next then previous restores the step if and only if it was not the last one |
| `Onboarding.NextAfterPrevious` | Pathly/Features/Onboarding/ViewModels/OnboardingViewModel.swift:16-28 | previous then next restores the step if and only if it was not the first one |
| `Onboarding.RepeatedForward` | Pathly/Features/Onboarding/ViewModels/OnboardingViewModel.swift:16-21 | k presses of next move min(k, room left) steps forward |
| `Onboarding.RepeatedBack` | Pathly/Features/Onboarding/ViewModels/OnboardingViewModel.swift:23-28 | k presses of previous move min(k, steps behind) steps back |
| `Onboarding.AppContainer.constructor` | Pathly/DI/AppContainer.swift:9-13 | a new container is on its first launch |
| `Onboarding.AppCoordinator.constructor` | Pathly/Navigation/AppCoordinator.swift:16-18 | the coordinator keeps its container and starts with an empty path |
| `Onboarding.AppCoordinator.NavigateToHome` | Pathly/Navigation/AppCoordinator.swift:54-57 | the navigation path becomes just the home screen |
| `Onboarding.OnboardingViewModel.constructor` | Pathly/Features/Onboarding/ViewModels/OnboardingViewModel.swift:11-14 | onboarding starts at the goal step with Build Endurance, 3 days a week, Beginner |
| `Onboarding.OnboardingViewModel.GoToNextStep` | Pathly/Features/Onboarding/ViewModels/OnboardingViewModel.swift:16-21 | the step becomes `Next` of the old step, and nothing else changes |
| `Onboarding.OnboardingViewModel.GoToPreviousStep` | Pathly/Features/Onboarding/ViewModels/OnboardingViewModel.swift:23-28 | the step becomes `Previous` of the old step, and nothing else changes |
| `Onboarding.OnboardingViewModel.CompleteOnboarding` | Pathly/Features/Onboarding/ViewModels/OnboardingViewModel.swift:30-57 | the user is built from the current choices with its own creation instant, and its plan, stamped with a second instant, is saved once; the first-launch flag is cleared and the path is home, whatever the saves returned |

## Left out

- SwiftUI views, `ContentView`, `PathlyApp`, `Env` and the settings reset are layout or configuration only. From `AppCoordinator`, only `navigateToHome` and the path are modelled; the path is a sequence of routes instead of a `NavigationPath`.
- `UserRepositoryImpl` only writes JSON to UserDefaults. Its outcome in `CompleteOnboarding` is the parameter `userSaved`, and the stored user is not modelled.
- JSON coding and UserDefaults are foreign. A stored blob is either the encoding of a plan (round-trip assumed) or data that does not decode. Whether the encoder succeeds is the parameter `encodes`.
- `UUID()`, `Date()` and `Calendar.date(byAdding:)` are nondeterministic or system-dependent. Ids, creation times and the reference day are parameters, and dates are whole day numbers.
- `Date()` is read once for the user (Pathly/Domain/Entities/User.swift:15) and once more for the plan (Pathly/Domain/Entities/Plan.swift:13), so `CompleteOnboarding` takes the two instants `userCreatedAt` and `planCreatedAt`. Nothing is assumed about how they relate.
- Every Swift `PlanRepositoryImpl` instance reads and writes the same `UserDefaults.standard` key "user_plan" (Pathly/Data/Repositories/PlanRepositoryImpl.swift:4-5). The model gives each repository object its own slot, so it does not capture two instances seeing each other's writes.
- `createSampleWorkouts` re-reads `Date()` for each week. The model uses one reference day for all four weeks, so it does not capture a plan generated across midnight.
- `TimeInterval` is a `Double`. Every duration the app builds is a whole number of seconds, so durations are `nat`. `Int(x / 60)` is integer division, which agrees with truncation for non-negative whole seconds; fractional durations are not modelled.
- `OnboardingViewModel.swift` calls `container.userRepository` and `container.generatePlan`, which `AppContainer` does not declare, so the Swift does not compile as written. `CompleteOnboarding` takes the plan use case and the user-save outcome as parameters instead.
- `async`/`await`, `@MainActor`, `Task` and `@Published` change notification are read as plain sequential calls and field updates.
- `print` logging in `completeOnboarding` is not modelled.
- `Workout.isCompleted` is set to false at construction. No modelled code changes it afterwards.
- `Exercise` has no custom equality, so the model uses plain structural equality.

/** Pathly/Features/Onboarding/ViewModels/OnboardingViewModel.swift: the
    three-screen onboarding flow (goal, frequency, experience) and its
    completion, which creates the user, generates the plan and leaves
    onboarding for good.

    Only the parts of the app container and the coordinator that the
    completion touches are modelled: the `isFirstLaunch` flag and the
    navigation path. Saving the user is foreign code; its outcome is a
    parameter. */
module Onboarding {
  import opened Wrappers
  import opened GoalInput
  import opened FrequencyInput
  import opened ExperienceInput
  import opened Entities
  import opened PlanRepository
  import opened GeneratePlan

  /** `OnboardingStep`, an `Int`-backed enum with raw values 0, 1, 2. */
  datatype OnboardingStep = GoalStep | FrequencyStep | ExperienceStep

  /** `OnboardingStep.allCases`, in declaration order. */
  const AllSteps: seq<OnboardingStep> := [GoalStep, FrequencyStep, ExperienceStep]

  function StepRawValue(s: OnboardingStep): (n: nat)
    ensures n < |AllSteps| && AllSteps[n] == s
  {
    match s
    case GoalStep => 0
    case FrequencyStep => 1
    case ExperienceStep => 2
  }

  /** `allCases` lists every step once, each at the position of its raw
      value, so the flow has exactly three screens. */
  lemma AllStepsByRawValue()
    ensures |AllSteps| == 3
    ensures forall i :: 0 <= i < |AllSteps| ==> StepRawValue(AllSteps[i]) == i
    ensures forall s: OnboardingStep :: s in AllSteps
  {
    forall s: OnboardingStep ensures s in AllSteps {
      assert AllSteps[StepRawValue(s)] == s;
    }
  }

  /** `OnboardingStep(rawValue:)`. */
  function StepFromRaw(n: int): (r: Option<OnboardingStep>)
    ensures r.Some? <==> 0 <= n < |AllSteps|
    ensures r.Some? ==> StepRawValue(r.value) == n
  {
    if n == 0 then Some(GoalStep)
    else if n == 1 then Some(FrequencyStep)
    else if n == 2 then Some(ExperienceStep)
    else None
  }

  /** The step `goToNextStep` moves to: one further, clamped at the last step. */
  function Next(s: OnboardingStep): (r: OnboardingStep)
    ensures StepRawValue(r) == if StepRawValue(s) < 2 then StepRawValue(s) + 1 else 2
  {
    var next := StepRawValue(s) + 1;
    if next < |AllSteps| then
      match StepFromRaw(next) case Some(t) => t case None => s
    else s
  }

  /** The step `goToPreviousStep` moves to: one back, clamped at the first step. */
  function Previous(s: OnboardingStep): (r: OnboardingStep)
    ensures StepRawValue(r) == if StepRawValue(s) > 0 then StepRawValue(s) - 1 else 0
  {
    var previous := StepRawValue(s) - 1;
    if previous >= 0 then
      match StepFromRaw(previous) case Some(t) => t case None => s
    else s
  }

  /** Going forward then back returns to the start, except from the last step. */
  lemma PreviousAfterNext(s: OnboardingStep)
    ensures Previous(Next(s)) == s <==> s != ExperienceStep
  {
  }

  /** Going back then forward returns to the start, except from the first step. */
  lemma NextAfterPrevious(s: OnboardingStep)
    ensures Next(Previous(s)) == s <==> s != GoalStep
  {
  }

  datatype Move = Forward | Back

  /** The step reached from `s` by the buttons pressed in `moves`. */
  function Navigate(s: OnboardingStep, moves: seq<Move>): OnboardingStep
    decreases moves
  {
    if moves == [] then s
    else Navigate(if moves[0] == Forward then Next(s) else Previous(s), moves[1..])
  }

  /** Pressing "next" k times from `s` lands k steps further, but never past
      the last step. */
  lemma {:induction false} RepeatedForward(s: OnboardingStep, k: nat)
    ensures var r := StepRawValue(s) + k;
      StepRawValue(Navigate(s, seq(k, _ => Forward))) == if r < 2 then r else 2
    decreases k
  {
    if k > 0 {
      assert seq(k, _ => Forward)[1..] == seq(k - 1, _ => Forward);
      RepeatedForward(Next(s), k - 1);
    }
  }

  /** Pressing "back" k times from `s` lands k steps earlier, but never
      before the first step. */
  lemma {:induction false} RepeatedBack(s: OnboardingStep, k: nat)
    ensures var r := StepRawValue(s) - k;
      StepRawValue(Navigate(s, seq(k, _ => Back))) == if r > 0 then r else 0
    decreases k
  {
    if k > 0 {
      assert seq(k, _ => Back)[1..] == seq(k - 1, _ => Back);
      RepeatedBack(Previous(s), k - 1);
    }
  }

  /** `Route`: the screens the coordinator can show. */
  datatype Route = OnboardingRoute | HomeRoute | WorkoutDetailRoute | SettingsRoute

  /** Pathly/DI/AppContainer.swift, reduced to its one field. */
  class AppContainer {
    var isFirstLaunch: bool

    constructor ()
      ensures isFirstLaunch
    {
      isFirstLaunch := true;
    }
  }

  /** Pathly/Navigation/AppCoordinator.swift, reduced to the navigation path. */
  class AppCoordinator {
    const container: AppContainer
    var path: seq<Route>

    constructor (container: AppContainer)
      ensures this.container == container && path == []
    {
      this.container := container;
      path := [];
    }

    /** `navigateToHome`: the path becomes just the home screen. */
    method NavigateToHome()
      modifies this
      ensures path == [HomeRoute]
    {
      path := [];
      path := path + [HomeRoute];
    }
  }

  class OnboardingViewModel {
    var currentStep: OnboardingStep
    var userGoal: Goal
    var userFrequency: Frequency
    var userExperience: Experience

    constructor ()
      ensures currentStep == GoalStep
      ensures userGoal == BuildEndurance && userFrequency == ThreeDays && userExperience == Beginner
    {
      currentStep := GoalStep;
      userGoal := BuildEndurance;
      userFrequency := ThreeDays;
      userExperience := Beginner;
    }

    method GoToNextStep()
      modifies this`currentStep
      ensures currentStep == Next(old(currentStep))
    {
      currentStep := Next(currentStep);
    }

    method GoToPreviousStep()
      modifies this`currentStep
      ensures currentStep == Previous(old(currentStep))
    {
      currentStep := Previous(currentStep);
    }

    /** `completeOnboarding(coordinator:)`: build the user from the current
        choices, try to save it, try to generate and save the plan, then —
        whatever those two calls did — clear the first-launch flag and go
        home. `userSaved` is the outcome of the foreign user save; the
        remaining parameters are those of plan generation. The user and the
        plan each read the clock once, so their creation instants are two
        parameters, `userCreatedAt` and `planCreatedAt`. */
    method CompleteOnboarding(coordinator: AppCoordinator, planUseCase: GeneratePlanUseCase,
                              userId: Uuid, userCreatedAt: Instant, userSaved: Result<(), StorageError>,
                              planId: Uuid, weekId: int -> Uuid, workoutId: (int, int) -> Uuid,
                              today: Day, planCreatedAt: Instant, encodes: bool)
      returns (user: User)
      modifies coordinator, coordinator.container, planUseCase.repository
      ensures user == NewUser(userId, userGoal, userFrequency, userExperience, userCreatedAt)
      ensures var plan := CreateSamplePlan(user, planId, weekId, workoutId, today, planCreatedAt);
        && planUseCase.repository.saveCalls == old(planUseCase.repository.saveCalls) + [plan]
        && planUseCase.repository.slot == AfterSave(old(planUseCase.repository.slot), plan, encodes)
      ensures !coordinator.container.isFirstLaunch
      ensures coordinator.path == [HomeRoute]
    {
      user := NewUser(userId, userGoal, userFrequency, userExperience, userCreatedAt);
      // The outcome of saving the user (`userSaved`) is only logged.
      var generated := planUseCase.Execute(user, planId, weekId, workoutId, today, planCreatedAt, encodes);
      // A failed generation is only logged as well.
      coordinator.container.isFirstLaunch := false;
      coordinator.NavigateToHome();
    }
  }
}

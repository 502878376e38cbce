/** The three closed enumerations the user picks during onboarding
    (Pathly/Domain/ValueObjects). Each Swift enum is `String`-backed and
    `CaseIterable`: `RawValue` is the backing string, `AllCases` the
    declaration order, and `FromRaw` is Swift's failable `init(rawValue:)`,
    which is also what `Codable` decoding uses. */

module FrequencyInput {
  import opened Wrappers

  datatype Frequency = OneDay | TwoDays | ThreeDays | FourDays | FiveDays | SixDays

  /** `Frequency.allCases`, in declaration order. */
  const AllCases: seq<Frequency> := [OneDay, TwoDays, ThreeDays, FourDays, FiveDays, SixDays]

  /** The raw value spells out the number of workouts a week: the digit,
      then "day" or "days" per week. */
  function RawValue(f: Frequency): (s: string)
    ensures s == [('0' as int + DaysPerWeek(f)) as char]
                 + (if DaysPerWeek(f) == 1 then " day per week" else " days per week")
  {
    match f
    case OneDay => "1 day per week"
    case TwoDays => "2 days per week"
    case ThreeDays => "3 days per week"
    case FourDays => "4 days per week"
    case FiveDays => "5 days per week"
    case SixDays => "6 days per week"
  }

  /** The label shown on the selection screen is the raw value, so showing a
      frequency and reading it back gives the same frequency. */
  function DisplayName(f: Frequency): (s: string)
    ensures FromRaw(s) == Some(f)
  {
    RawValue(f)
  }

  /** How many workouts a week of the plan holds. */
  function DaysPerWeek(f: Frequency): (n: int)
    ensures 1 <= n <= 6
    ensures AllCases[n - 1] == f
  {
    match f
    case OneDay => 1
    case TwoDays => 2
    case ThreeDays => 3
    case FourDays => 4
    case FiveDays => 5
    case SixDays => 6
  }

  /** `Frequency(rawValue:)`: the case whose raw value is `s`, if any. */
  function FromRaw(s: string): (r: Option<Frequency>)
    ensures r.Some? ==> RawValue(r.value) == s
    ensures r.None? ==> forall f: Frequency :: RawValue(f) != s
  {
    if s == "1 day per week" then Some(OneDay)
    else if s == "2 days per week" then Some(TwoDays)
    else if s == "3 days per week" then Some(ThreeDays)
    else if s == "4 days per week" then Some(FourDays)
    else if s == "5 days per week" then Some(FiveDays)
    else if s == "6 days per week" then Some(SixDays)
    else None
  }

  /** Decoding by raw value inverts encoding: the raw values are pairwise distinct. */
  lemma RawValueRoundTrip(f: Frequency)
    ensures FromRaw(RawValue(f)) == Some(f)
  {
  }

  /** Distinct frequencies ask for distinct numbers of workouts a week. */
  lemma DaysPerWeekInjective(f: Frequency, g: Frequency)
    ensures DaysPerWeek(f) == DaysPerWeek(g) <==> f == g
  {
  }

  /** In declaration order the cases ask for 1, 2, ..., 6 workouts a week. */
  lemma DaysPerWeekInDeclarationOrder()
    ensures |AllCases| == 6
    ensures forall i :: 0 <= i < |AllCases| ==> DaysPerWeek(AllCases[i]) == i + 1
  {
  }
}

module GoalInput {
  import opened Wrappers

  datatype Goal = BuildEndurance | LoseWeight | Run5K | Run10K | HalfMarathon | Marathon

  /** `Goal.allCases`, in declaration order. */
  const AllCases: seq<Goal> := [BuildEndurance, LoseWeight, Run5K, Run10K, HalfMarathon, Marathon]

  function RawValue(g: Goal): string
  {
    match g
    case BuildEndurance => "Build Endurance"
    case LoseWeight => "Lose Weight"
    case Run5K => "Run 5K"
    case Run10K => "Run 10K"
    case HalfMarathon => "Half Marathon"
    case Marathon => "Marathon"
  }

  /** The strings a goal is stored and shown as, one per case and pairwise
      distinct in declaration order. */
  lemma RawValues()
    ensures RawValue(BuildEndurance) == "Build Endurance" && RawValue(LoseWeight) == "Lose Weight"
    ensures RawValue(Run5K) == "Run 5K" && RawValue(Run10K) == "Run 10K"
    ensures RawValue(HalfMarathon) == "Half Marathon" && RawValue(Marathon) == "Marathon"
    ensures forall i, j :: 0 <= i < j < |AllCases| ==> RawValue(AllCases[i]) != RawValue(AllCases[j])
  {
  }

  /** The label shown on the selection screen is the raw value. */
  function DisplayName(g: Goal): (s: string)
    ensures FromRaw(s) == Some(g)
  {
    RawValue(g)
  }

  /** `Goal(rawValue:)`: the case whose raw value is `s`, if any. */
  function FromRaw(s: string): (r: Option<Goal>)
    ensures r.Some? ==> RawValue(r.value) == s
    ensures r.None? ==> forall g: Goal :: RawValue(g) != s
  {
    if s == "Build Endurance" then Some(BuildEndurance)
    else if s == "Lose Weight" then Some(LoseWeight)
    else if s == "Run 5K" then Some(Run5K)
    else if s == "Run 10K" then Some(Run10K)
    else if s == "Half Marathon" then Some(HalfMarathon)
    else if s == "Marathon" then Some(Marathon)
    else None
  }

  lemma RawValueRoundTrip(g: Goal)
    ensures FromRaw(RawValue(g)) == Some(g)
  {
  }

  /** Exactly six goals, each listed once. */
  lemma AllCasesComplete(g: Goal)
    ensures |AllCases| == 6
    ensures exists i :: 0 <= i < |AllCases| && AllCases[i] == g
    ensures forall i, j :: 0 <= i < j < |AllCases| ==> AllCases[i] != AllCases[j]
  {
    var i := match g
      case BuildEndurance => 0 case LoseWeight => 1 case Run5K => 2
      case Run10K => 3 case HalfMarathon => 4 case Marathon => 5;
    assert AllCases[i] == g;
  }
}

module ExperienceInput {
  import opened Wrappers

  datatype Experience = Beginner | Intermediate | Advanced

  /** `Experience.allCases`, in declaration order. */
  const AllCases: seq<Experience> := [Beginner, Intermediate, Advanced]

  function RawValue(e: Experience): string
  {
    match e
    case Beginner => "Beginner"
    case Intermediate => "Intermediate"
    case Advanced => "Advanced"
  }

  /** The strings an experience level is stored and shown as, one per case
      and pairwise distinct in declaration order. */
  lemma RawValues()
    ensures RawValue(Beginner) == "Beginner" && RawValue(Intermediate) == "Intermediate"
    ensures RawValue(Advanced) == "Advanced"
    ensures forall i, j :: 0 <= i < j < |AllCases| ==> RawValue(AllCases[i]) != RawValue(AllCases[j])
  {
  }

  /** The label shown on the selection screen is the raw value. */
  function DisplayName(e: Experience): (s: string)
    ensures FromRaw(s) == Some(e)
  {
    RawValue(e)
  }

  /** `Experience(rawValue:)`: the case whose raw value is `s`, if any. */
  function FromRaw(s: string): (r: Option<Experience>)
    ensures r.Some? ==> RawValue(r.value) == s
    ensures r.None? ==> forall e: Experience :: RawValue(e) != s
  {
    if s == "Beginner" then Some(Beginner)
    else if s == "Intermediate" then Some(Intermediate)
    else if s == "Advanced" then Some(Advanced)
    else None
  }

  lemma RawValueRoundTrip(e: Experience)
    ensures FromRaw(RawValue(e)) == Some(e)
  {
  }

  /** Exactly three experience levels, each listed once. */
  lemma AllCasesComplete(e: Experience)
    ensures |AllCases| == 3
    ensures exists i :: 0 <= i < |AllCases| && AllCases[i] == e
    ensures forall i, j :: 0 <= i < j < |AllCases| ==> AllCases[i] != AllCases[j]
  {
    var i := match e case Beginner => 0 case Intermediate => 1 case Advanced => 2;
    assert AllCases[i] == e;
  }
}

/** Pathly/Features/Plan/ViewModels/WorkoutDetailViewModel.swift: the
    read-only accessors of the workout screen and the one-line summary of a
    run segment, e.g. "Walk 2 min, Run 1 min, Repeat 3x". */
module WorkoutDetail {
  import opened Wrappers
  import opened Entities
  import GeneratePlan

  /** Some interval of the list is of this kind. */
  predicate HasKind(intervals: seq<Interval>, kind: IntervalType)
  {
    exists i :: 0 <= i < |intervals| && intervals[i].kind == kind
  }

  /** `first(where: { $0.type == kind })`: the earliest interval of the kind. */
  function FirstOfKind(intervals: seq<Interval>, kind: IntervalType): (r: Option<Interval>)
    ensures r.None? <==> !HasKind(intervals, kind)
    ensures r.Some? ==> exists i :: 0 <= i < |intervals| && intervals[i] == r.value && r.value.kind == kind &&
                                    forall j :: 0 <= j < i ==> intervals[j].kind != kind
  {
    if intervals == [] then None
    else if intervals[0].kind == kind then Some(intervals[0])
    else
      var r := FirstOfKind(intervals[1..], kind);
      assert HasKind(intervals, kind) ==> HasKind(intervals[1..], kind) by {
        if HasKind(intervals, kind) {
          var i :| 0 <= i < |intervals| && intervals[i].kind == kind;
          assert intervals[1..][i - 1] == intervals[i];
        }
      }
      assert r.Some? ==> exists i :: 0 <= i < |intervals| && intervals[i] == r.value && r.value.kind == kind &&
                                     forall j :: 0 <= j < i ==> intervals[j].kind != kind by {
        if r.Some? {
          var i :| 0 <= i < |intervals[1..]| && intervals[1..][i] == r.value && r.value.kind == kind &&
                   forall j :: 0 <= j < i ==> intervals[1..][j].kind != kind;
          assert intervals[i + 1] == r.value;
          assert forall j :: 1 <= j < i + 1 ==> intervals[j] == intervals[1..][j - 1];
        }
      }
      r
  }

  /** `filter { $0.type == kind }.count`. */
  function CountOfKind(intervals: seq<Interval>, kind: IntervalType): (n: nat)
    ensures n <= |intervals|
    ensures n == 0 <==> !HasKind(intervals, kind)
  {
    if intervals == [] then 0
    else
      var rest := CountOfKind(intervals[1..], kind);
      assert HasKind(intervals, kind) <==> intervals[0].kind == kind || HasKind(intervals[1..], kind) by {
        if HasKind(intervals, kind) {
          var i :| 0 <= i < |intervals| && intervals[i].kind == kind;
          if i > 0 { assert intervals[1..][i - 1] == intervals[i]; }
        }
        if HasKind(intervals[1..], kind) {
          var i :| 0 <= i < |intervals[1..]| && intervals[1..][i].kind == kind;
          assert intervals[i + 1] == intervals[1..][i];
        }
      }
      (if intervals[0].kind == kind then 1 else 0) + rest
  }

  /** Counting distributes over concatenation. */
  lemma {:induction false} CountOfKindAppend(a: seq<Interval>, b: seq<Interval>, kind: IntervalType)
    ensures CountOfKind(a + b, kind) == CountOfKind(a, kind) + CountOfKind(b, kind)
  {
    if a == [] {
      assert a + b == b;
    } else {
      assert (a + b)[0] == a[0] && (a + b)[1..] == a[1..] + b;
      CountOfKindAppend(a[1..], b, kind);
    }
  }

  /** `Int(seconds / 60)`: the whole minutes in a duration, truncated. */
  function WholeMinutes(seconds: nat): (m: nat)
    ensures m * 60 <= seconds < (m + 1) * 60
  {
    seconds / 60
  }

  predicate IsDigit(c: char)
  {
    '0' <= c <= '9'
  }

  function DigitValue(c: char): nat
    requires IsDigit(c)
  {
    c as int - '0' as int
  }

  /** The number a string of decimal digits denotes. */
  function DecimalValue(s: string): nat
    requires forall i :: 0 <= i < |s| ==> IsDigit(s[i])
  {
    if s == [] then 0 else DecimalValue(s[..|s| - 1]) * 10 + DigitValue(s[|s| - 1])
  }

  /** String interpolation of a non-negative `Int`: its decimal digits, with
      no leading zero. */
  function NatToString(n: nat): (s: string)
    ensures |s| >= 1 && (s[0] == '0' ==> n == 0)
    ensures forall i :: 0 <= i < |s| ==> IsDigit(s[i])
    ensures DecimalValue(s) == n
  {
    var last := [(n % 10 + '0' as int) as char];
    if n < 10 then last
    else
      var s := NatToString(n / 10) + last;
      assert s[..|s| - 1] == NatToString(n / 10);
      s
  }

  /** Decimal rendering is injective. */
  lemma NatToStringInjective(m: nat, n: nat)
    requires NatToString(m) == NatToString(n)
    ensures m == n
  {
    assert DecimalValue(NatToString(m)) == DecimalValue(NatToString(n));
  }

  const Fallback: string := "Run Segment"

  /** `d` is the decimal rendering of `n`: digits only, denoting `n`. */
  predicate Spells(d: string, n: nat)
  {
    && (forall i :: 0 <= i < |d| ==> IsDigit(d[i]))
    && DecimalValue(d) == n
  }

  /** "Walk W min, " for W > 0, and nothing when W is zero. */
  function WalkPhrase(minutes: nat): (p: string)
    ensures p == "" <==> minutes == 0
    ensures 'u' !in p
  {
    if minutes > 0 then
      var d := NatToString(minutes);
      var p := "Walk " + d + " min, ";
      assert forall i :: 0 <= i < |p| ==> p[i] != 'u' by {
        assert forall i :: 5 <= i < 5 + |d| ==> p[i] == d[i - 5];
      }
      p
    else ""
  }

  /** "Run R min" for R > 0, and nothing when R is zero. */
  function RunPhrase(minutes: nat): (p: string)
    ensures p == "" <==> minutes == 0
  {
    if minutes > 0 then "Run " + NatToString(minutes) + " min" else ""
  }

  /** ", Repeat Nx" for N > 1 runs, and nothing otherwise. */
  function RepeatPhrase(runCount: nat): (p: string)
    ensures p == "" <==> runCount <= 1
    ensures 'u' !in p
  {
    if runCount > 1 then
      var d := NatToString(runCount);
      var p := ", Repeat " + d + "x";
      assert forall i :: 0 <= i < |p| ==> p[i] != 'u' by {
        assert forall i :: 9 <= i < 9 + |d| ==> p[i] == d[i - 9];
      }
      p
    else ""
  }

  /** Each non-empty phrase is its fixed words around the decimal rendering
      of its number, which reads back as that number. */
  lemma PhrasesSpellTheirNumber(m: nat)
    ensures m > 0 ==> var p := WalkPhrase(m);
      |p| > 11 && p[..5] == "Walk " && p[|p| - 6..] == " min, " && Spells(p[5..|p| - 6], m)
    ensures m > 0 ==> var p := RunPhrase(m);
      |p| > 8 && p[..4] == "Run " && p[|p| - 4..] == " min" && Spells(p[4..|p| - 4], m)
    ensures m > 1 ==> var p := RepeatPhrase(m);
      |p| > 10 && p[..9] == ", Repeat " && p[|p| - 1] == 'x' && Spells(p[9..|p| - 1], m)
  {
    var d := NatToString(m);
    if m > 0 {
      var walk, run := WalkPhrase(m), RunPhrase(m);
      assert walk[5..|walk| - 6] == d;
      assert run[4..|run| - 4] == d;
    }
    if m > 1 {
      var repeat := RepeatPhrase(m);
      assert repeat[9..|repeat| - 1] == d;
    }
  }

  /** However the phrases come out, together they never read "Run Segment":
      a joined summary opens with "Walk", with "Run <digit>", with ", Repeat",
      or is empty. */
  lemma PhrasesAreNotFallback(w: nat, r: nat, n: nat)
    ensures WalkPhrase(w) + RunPhrase(r) + RepeatPhrase(n) != Fallback
  {
    var s := WalkPhrase(w) + RunPhrase(r) + RepeatPhrase(n);
    if w > 0 {
      assert s[0] == 'W' != Fallback[0];
    } else if r > 0 {
      var d := NatToString(r);
      assert s[4] == d[0] && IsDigit(d[0]);
      assert Fallback[4] == 'S';
    } else if n > 1 {
      assert s[0] == ',' != Fallback[0];
    } else {
      assert s == "";
    }
  }

  /** `runIntervalSummary`: "Run Segment" unless the list holds both a run
      and a walk; otherwise the phrases for the whole minutes of the first
      walk and of the first run, and for the number of runs. */
  function Summary(intervals: seq<Interval>): (s: string)
    ensures s == Fallback <==> !HasKind(intervals, Run) || !HasKind(intervals, Walk)
  {
    match (FirstOfKind(intervals, Run), FirstOfKind(intervals, Walk))
    case (Some(firstRun), Some(firstWalk)) =>
      var runCount := CountOfKind(intervals, Run);
      var runMinutes := WholeMinutes(firstRun.duration);
      var walkMinutes := WholeMinutes(firstWalk.duration);
      PhrasesAreNotFallback(walkMinutes, runMinutes, runCount);
      WalkPhrase(walkMinutes) + RunPhrase(runMinutes) + RepeatPhrase(runCount)
    case _ => Fallback
  }

  /** `t` occurs in `s` as a contiguous piece. */
  predicate Contains(s: string, t: string)
  {
    exists i | 0 <= i <= |s| :: OccursAt(s, t, i)
  }

  predicate OccursAt(s: string, t: string, i: int)
  {
    0 <= i <= |s| - |t| && s[i..i + |t|] == t
  }

  /** Whole minutes of the first walk and of the first run (0 when absent). */
  function WalkMinutes(intervals: seq<Interval>): nat
  {
    match FirstOfKind(intervals, Walk) case Some(w) => WholeMinutes(w.duration) case None => 0
  }

  function RunMinutes(intervals: seq<Interval>): nat
  {
    match FirstOfKind(intervals, Run) case Some(r) => WholeMinutes(r.duration) case None => 0
  }

  /** With a run and a walk present, the summary is the three phrases in order. */
  lemma SummaryPhrases(intervals: seq<Interval>)
    requires HasKind(intervals, Run) && HasKind(intervals, Walk)
    ensures Summary(intervals) ==
      WalkPhrase(WalkMinutes(intervals)) + RunPhrase(RunMinutes(intervals)) + RepeatPhrase(CountOfKind(intervals, Run))
  {
  }

  /** The joined phrases open with the walk phrase exactly when W > 0. */
  lemma WalkPhraseOpens(w: nat, r: nat, n: nat)
    ensures var s, p := WalkPhrase(w) + RunPhrase(r) + RepeatPhrase(n), "Walk " + NatToString(w) + " min, ";
      w > 0 <==> |p| <= |s| && s[..|p|] == p
  {
    var run, repeat := RunPhrase(r), RepeatPhrase(n);
    var s, p := WalkPhrase(w) + run + repeat, "Walk " + NatToString(w) + " min, ";
    if w == 0 {
      // Without the walk phrase the text starts with "Run" or ", Repeat", never 'W'.
      assert s == run + repeat;
      if r > 0 {
        assert s[0] == run[0] == 'R';
      } else if n > 1 {
        assert s[0] == repeat[0] == ',';
      }
      assert s == [] || s[0] != 'W';
    } else {
      assert s == p + run + repeat;
      assert s[..|p|] == p;
    }
  }

  /** With both kinds present, the summary opens with "Walk W min, " for the
      first walk's whole minutes W exactly when W > 0. */
  lemma SummaryWalkPhrase(intervals: seq<Interval>)
    requires HasKind(intervals, Run) && HasKind(intervals, Walk)
    ensures var s, p := Summary(intervals), "Walk " + NatToString(WalkMinutes(intervals)) + " min, ";
      WalkMinutes(intervals) > 0 <==> |p| <= |s| && s[..|p|] == p
  {
    SummaryPhrases(intervals);
    WalkPhraseOpens(WalkMinutes(intervals), RunMinutes(intervals), CountOfKind(intervals, Run));
  }

  /** "Run R min" occurs in the joined phrases exactly when R > 0: the other
      two phrases have no letter 'u'. */
  lemma RunPhraseOccurs(w: nat, r: nat, n: nat)
    ensures Contains(WalkPhrase(w) + RunPhrase(r) + RepeatPhrase(n), "Run " + NatToString(r) + " min") <==> r > 0
  {
    var walk, repeat := WalkPhrase(w), RepeatPhrase(n);
    var s, t := walk + RunPhrase(r) + repeat, "Run " + NatToString(r) + " min";
    if r > 0 {
      assert s == walk + t + repeat;
      assert s[|walk|..|walk| + |t|] == t;
      assert OccursAt(s, t, |walk|);
    } else {
      // t has a 'u' at index 1, which neither the walk nor the repeat phrase has.
      assert s == walk + repeat;
      forall i | 0 <= i <= |s| - |t| ensures !OccursAt(s, t, i) {
        assert s[i + 1] in walk || s[i + 1] in repeat;
      }
    }
  }

  /** With both kinds present, "Run R min" appears for the first run's whole
      minutes R exactly when R > 0. */
  lemma SummaryRunPhrase(intervals: seq<Interval>)
    requires HasKind(intervals, Run) && HasKind(intervals, Walk)
    ensures Contains(Summary(intervals), "Run " + NatToString(RunMinutes(intervals)) + " min") <==> RunMinutes(intervals) > 0
  {
    SummaryPhrases(intervals);
    RunPhraseOccurs(WalkMinutes(intervals), RunMinutes(intervals), CountOfKind(intervals, Run));
  }

  /** ", Repeat Nx" ends the summary exactly when both kinds are present and
      the number N of runs exceeds one; no other summary ends with 'x'. */
  lemma SummaryRepeatPhrase(intervals: seq<Interval>)
    ensures var s, n := Summary(intervals), CountOfKind(intervals, Run);
      && (|s| > 0 && s[|s| - 1] == 'x' <==> HasKind(intervals, Run) && HasKind(intervals, Walk) && n > 1)
      && (HasKind(intervals, Run) && HasKind(intervals, Walk) && n > 1 ==>
            var t := ", Repeat " + NatToString(n) + "x"; |t| <= |s| && s[|s| - |t|..] == t)
  {
    var s, n := Summary(intervals), CountOfKind(intervals, Run);
    if HasKind(intervals, Run) && HasKind(intervals, Walk) {
      SummaryPhrases(intervals);
      var w, r := WalkMinutes(intervals), RunMinutes(intervals);
      var head := WalkPhrase(w) + RunPhrase(r);
      assert s == head + RepeatPhrase(n);
      if n > 1 {
        var t := ", Repeat " + NatToString(n) + "x";
        assert s[|s| - |t|..] == t;
      } else if r > 0 {
        assert s[|s| - 1] == 'n';
      } else if w > 0 {
        assert s[|s| - 1] == ' ';
      } else {
        assert s == "";
      }
    } else {
      assert s[|s| - 1] == 't';
    }
  }

  /** `k` repetitions of "walk `walk` seconds, run `run` seconds". */
  function Cycles(walk: nat, run: nat, k: nat): seq<Interval>
  {
    if k == 0 then [] else [Interval(walk, Walk), Interval(run, Run)] + Cycles(walk, run, k - 1)
  }

  lemma {:induction false} CyclesRunCount(walk: nat, run: nat, k: nat)
    ensures CountOfKind(Cycles(walk, run, k), Run) == k
  {
    if k > 0 {
      var pair := [Interval(walk, Walk), Interval(run, Run)];
      assert pair[1..][1..] == [];
      CountOfKindAppend(pair, Cycles(walk, run, k - 1), Run);
      CyclesRunCount(walk, run, k - 1);
    }
  }

  /** A segment of k >= 1 walk/run cycles is summarised by its walk and run
      minutes and, when k > 1, by k. */
  lemma CyclesSummary(walk: nat, run: nat, k: nat)
    requires k >= 1
    ensures Summary(Cycles(walk, run, k)) == WalkPhrase(walk / 60) + RunPhrase(run / 60) + RepeatPhrase(k)
  {
    var ivs := Cycles(walk, run, k);
    assert ivs[0] == Interval(walk, Walk) && ivs[1] == Interval(run, Run);
    assert ivs[1..][0] == Interval(run, Run);
    assert FirstOfKind(ivs, Walk) == Some(Interval(walk, Walk));
    assert FirstOfKind(ivs, Run) == Some(Interval(run, Run));
    CyclesRunCount(walk, run, k);
  }

  /** The generator's run segment is three cycles of walk 120 s, run 60 s. */
  lemma SampleIntervalsAreCycles()
    ensures GeneratePlan.SampleIntervals == Cycles(120, 60, 3)
  {
  }

  /** The phrases for walk 2 min, run 1 min and three runs. */
  lemma SamplePhrases()
    ensures WalkPhrase(2) + RunPhrase(1) + RepeatPhrase(3) == "Walk 2 min, Run 1 min, Repeat 3x"
  {
    assert NatToString(2) == "2" && NatToString(1) == "1" && NatToString(3) == "3";
    assert WalkPhrase(2) == "Walk 2 min, ";
    assert RunPhrase(1) == "Run 1 min";
    assert RepeatPhrase(3) == ", Repeat 3x";
  }

  /** The screen of any generated workout summarises its run segment as
      "Walk 2 min, Run 1 min, Repeat 3x". */
  lemma GeneratedWorkoutSummary(w: Workout)
    requires GeneratePlan.HasSampleContent(w)
    ensures Summary(w.run.intervals) == "Walk 2 min, Run 1 min, Repeat 3x"
  {
    var ivs := w.run.intervals;
    SampleIntervalsAreCycles();
    var walk, run, k := ivs[0].duration, ivs[1].duration, |ivs| / 2;
    CyclesSummary(walk, run, k);
    assert walk / 60 == 2 && run / 60 == 1 && k == 3;
    SamplePhrases();
  }

  class WorkoutDetailViewModel {
    var workout: Workout

    constructor (workout: Workout)
      ensures this.workout == workout
    {
      this.workout := workout;
    }

    function WarmUpExercises(): (r: seq<Exercise>)
      reads this
      ensures r == workout.warmUp
    {
      workout.warmUp
    }

    function RunIntervals(): (r: seq<Interval>)
      reads this
      ensures r == workout.run.intervals
    {
      workout.run.intervals
    }

    function CoolDownExercises(): (r: seq<Exercise>)
      reads this
      ensures r == workout.coolDown
    {
      workout.coolDown
    }

    function RunIntervalSummary(): (r: string)
      reads this
      ensures r == Summary(workout.run.intervals)
    {
      Summary(RunIntervals())
    }
  }
}

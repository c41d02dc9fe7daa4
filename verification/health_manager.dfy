/**
 * The parts of the HealthKit manager that compute rather than query: the weekly minutes per
 * workout type and the activity cards built from them, today's stand-hour count, and the
 * sorting of the last twelve months into the year-to-date and one-year step charts. The
 * queries themselves are replaced by their results, passed in as parameters.
 */
module HealthManager {
  import opened Wrappers
  import opened Text
  import opened Numbers
  import opened Palette
  import opened Seqs
  import opened StepModels

  // ---------------------------------------------------------------------------
  // Weekly workout minutes
  // ---------------------------------------------------------------------------

  /** The workout activity types the weekly stats tell apart; any other type is `OtherActivity`. */
  datatype ActivityType =
    Running | TraditionalStrengthTraining | Soccer | Basketball | StairClimbing | Kickboxing | OtherActivity

  /** An `HKWorkout` as the weekly stats see it: its type and its duration in seconds. */
  datatype WorkoutSample = WorkoutSample(kind: ActivityType, duration: real)

  /** `Int(workout.duration) / 60`: the duration truncated to whole seconds, then to whole minutes. */
  function WholeMinutes(duration: real): (m: int)
    ensures duration >= 0.0 ==> m >= 0 && (m * 60) as real <= duration < ((m + 1) * 60) as real
  {
    Quot(Truncate(duration), 60)
  }

  /** The whole minutes the workouts of type `t` add up to. */
  function MinutesOf(ws: seq<WorkoutSample>, t: ActivityType): int {
    if ws == [] then 0
    else MinutesOf(ws[..|ws| - 1], t) + (if ws[|ws| - 1].kind == t then WholeMinutes(ws[|ws| - 1].duration) else 0)
  }

  /** The minutes of a concatenation are the sum of the minutes of its parts. */
  lemma {:induction false} MinutesOfAppend(a: seq<WorkoutSample>, b: seq<WorkoutSample>, t: ActivityType)
    ensures MinutesOf(a + b, t) == MinutesOf(a, t) + MinutesOf(b, t)
    decreases |b|
  {
    if b == [] {
      assert a + b == a;
    } else {
      assert (a + b)[..|a + b| - 1] == a + b[..|b| - 1];
      MinutesOfAppend(a, b[..|b| - 1], t);
    }
  }

  /** The weekly totals do not depend on the order in which HealthKit returns the workouts. */
  lemma MinutesOfSwap(a: seq<WorkoutSample>, b: seq<WorkoutSample>, t: ActivityType)
    ensures MinutesOf(a + b, t) == MinutesOf(b + a, t)
  {
    MinutesOfAppend(a, b, t);
    MinutesOfAppend(b, a, t);
  }

  /** A workout of an untracked type changes none of the six totals. */
  lemma OtherActivityIgnored(ws: seq<WorkoutSample>, duration: real, t: ActivityType)
    requires t != OtherActivity
    ensures MinutesOf(ws + [WorkoutSample(OtherActivity, duration)], t) == MinutesOf(ws, t)
  {
    assert (ws + [WorkoutSample(OtherActivity, duration)])[..|ws|] == ws;
  }

  /** With non-negative durations every total is non-negative and at most the sum of all workouts' minutes. */
  lemma {:induction false} MinutesOfBounds(ws: seq<WorkoutSample>, t: ActivityType)
    requires forall i :: 0 <= i < |ws| ==> ws[i].duration >= 0.0
    ensures 0 <= MinutesOf(ws, t) <= MinutesOf(ws, Running) + MinutesOf(ws, TraditionalStrengthTraining)
      + MinutesOf(ws, Soccer) + MinutesOf(ws, Basketball) + MinutesOf(ws, StairClimbing)
      + MinutesOf(ws, Kickboxing) + MinutesOf(ws, OtherActivity)
  {
    if ws != [] {
      MinutesOfBounds(ws[..|ws| - 1], t);
      var m := WholeMinutes(ws[|ws| - 1].duration);
      assert m >= 0;
    }
  }

  /**
   * The counting loop of `fetchCurrentWeekWorkoutStats`: each workout adds its whole minutes to
   * the counter of its type; workouts of any other type are skipped.
   */
  method WeeklyDurations(workouts: seq<WorkoutSample>)
    returns (running: int, strength: int, soccer: int, basketball: int, stairs: int, kickboxing: int)
    ensures running == MinutesOf(workouts, Running)
    ensures strength == MinutesOf(workouts, TraditionalStrengthTraining)
    ensures soccer == MinutesOf(workouts, Soccer)
    ensures basketball == MinutesOf(workouts, Basketball)
    ensures stairs == MinutesOf(workouts, StairClimbing)
    ensures kickboxing == MinutesOf(workouts, Kickboxing)
  {
    running, strength, soccer, basketball, stairs, kickboxing := 0, 0, 0, 0, 0, 0;
    for i := 0 to |workouts|
      invariant running == MinutesOf(workouts[..i], Running)
      invariant strength == MinutesOf(workouts[..i], TraditionalStrengthTraining)
      invariant soccer == MinutesOf(workouts[..i], Soccer)
      invariant basketball == MinutesOf(workouts[..i], Basketball)
      invariant stairs == MinutesOf(workouts[..i], StairClimbing)
      invariant kickboxing == MinutesOf(workouts[..i], Kickboxing)
    {
      var workout := workouts[i];
      assert workouts[..i + 1][..i] == workouts[..i];
      var duration := WholeMinutes(workout.duration);
      if workout.kind == Running {
        running := running + duration;
      } else if workout.kind == TraditionalStrengthTraining {
        strength := strength + duration;
      } else if workout.kind == Soccer {
        soccer := soccer + duration;
      } else if workout.kind == Basketball {
        basketball := basketball + duration;
      } else if workout.kind == StairClimbing {
        stairs := stairs + duration;
      } else if workout.kind == Kickboxing {
        kickboxing := kickboxing + duration;
      }
    }
    assert workouts[..|workouts|] == workouts;
  }

  // ---------------------------------------------------------------------------
  // Activity cards
  // ---------------------------------------------------------------------------

  /** `Activity`: one card of the home screen's activity grid. */
  datatype Activity = Activity(title: string, subTitle: string, image: string, tinColor: Color, amount: string)

  const ActivityTitles: seq<string> :=
    ["Running", "Strength Training", "Soccer", "Basketball", "Stairstepper", "Kickboxing"]
  const ActivityImages: seq<string> :=
    ["figure.run", "figure.strengthtraining.traditional", "figure.soccer", "figure.basketball",
     "figure.stairs", "figure.kickboxing"]
  const ThisWeek := "This week"
  const Mins := " mins"

  predicate EndsWith(s: string, suffix: string) {
    |suffix| <= |s| && s[|s| - |suffix|..] == suffix
  }

  /** A printed integer ends in a digit, so it never ends with the minutes suffix. */
  lemma IntToStringEndsInDigit(i: int)
    ensures IsDigit(IntToString(i)[|IntToString(i)| - 1])
    ensures !EndsWith(IntToString(i), Mins)
  {
    var r := IntToString(i);
    if i < 0 {
      assert r[|r| - 1] == r[1..][|r| - 2];
    }
    if |Mins| <= |r| {
      assert r[|r| - |Mins|..][|Mins| - 1] == r[|r| - 1];
    }
  }

  /** A printed integer followed by the minutes suffix ends with it. */
  lemma WithMinsEndsWithMins(i: int)
    ensures EndsWith(IntToString(i) + Mins, Mins)
  {
    var s := IntToString(i) + Mins;
    assert s[|s| - |Mins|..] == Mins;
  }

  /**
   * `generateActivitiesFromDurations`: the six weekly cards, each amount the printed minutes of
   * its type; only the Running and Kickboxing amounts carry the " mins" suffix.
   */
  function GenerateActivitiesFromDurations(running: int, strength: int, soccer: int, basketball: int,
                                           stairs: int, kickboxing: int): (r: seq<Activity>)
    ensures |r| == 6
    ensures r[0].amount == IntToString(running) + Mins && r[5].amount == IntToString(kickboxing) + Mins
    ensures r[1].amount == IntToString(strength) && r[2].amount == IntToString(soccer)
    ensures r[3].amount == IntToString(basketball) && r[4].amount == IntToString(stairs)
  {
    [Activity(ActivityTitles[0], ThisWeek, ActivityImages[0], Green, IntToString(running) + Mins),
     Activity(ActivityTitles[1], ThisWeek, ActivityImages[1], Green, IntToString(strength)),
     Activity(ActivityTitles[2], ThisWeek, ActivityImages[2], Green, IntToString(soccer)),
     Activity(ActivityTitles[3], ThisWeek, ActivityImages[3], Green, IntToString(basketball)),
     Activity(ActivityTitles[4], ThisWeek, ActivityImages[4], Green, IntToString(stairs)),
     Activity(ActivityTitles[5], ThisWeek, ActivityImages[5], Green, IntToString(kickboxing) + Mins)]
  }

  /**
   * The cards come in the fixed order Running, Strength Training, Soccer, Basketball,
   * Stairstepper, Kickboxing, each green and labelled "This week".
   */
  lemma ActivityLayout(running: int, strength: int, soccer: int, basketball: int, stairs: int, kickboxing: int)
    ensures var r := GenerateActivitiesFromDurations(running, strength, soccer, basketball, stairs, kickboxing);
      forall i :: 0 <= i < 6 ==>
        r[i].title == ActivityTitles[i] && r[i].image == ActivityImages[i] && r[i].subTitle == ThisWeek && r[i].tinColor == Green
  {
    var r := GenerateActivitiesFromDurations(running, strength, soccer, basketball, stairs, kickboxing);
    forall i | 0 <= i < 6
      ensures r[i].title == ActivityTitles[i] && r[i].image == ActivityImages[i]
        && r[i].subTitle == ThisWeek && r[i].tinColor == Green
    {
      if i == 0 {
      } else if i == 1 {
      } else if i == 2 {
      } else if i == 3 {
      } else if i == 4 {
      }
    }
  }

  /** Only the Running and Kickboxing amounts end with " mins". */
  lemma MinutesSuffixPlacement(running: int, strength: int, soccer: int, basketball: int, stairs: int, kickboxing: int)
    ensures var r := GenerateActivitiesFromDurations(running, strength, soccer, basketball, stairs, kickboxing);
      forall i :: 0 <= i < 6 ==> (EndsWith(r[i].amount, Mins) <==> i == 0 || i == 5)
  {
    var r := GenerateActivitiesFromDurations(running, strength, soccer, basketball, stairs, kickboxing);
    forall i | 0 <= i < 6
      ensures EndsWith(r[i].amount, Mins) <==> i == 0 || i == 5
    {
      if i == 0 {
        WithMinsEndsWithMins(running);
      } else if i == 1 {
        IntToStringEndsInDigit(strength);
      } else if i == 2 {
        IntToStringEndsInDigit(soccer);
      } else if i == 3 {
        IntToStringEndsInDigit(basketball);
      } else if i == 4 {
        IntToStringEndsInDigit(stairs);
      } else {
        WithMinsEndsWithMins(kickboxing);
      }
    }
  }

  /** Every card's amount reads back as the minutes it was built from, once the suffix is cut off. */
  lemma ActivityAmountsReadBack(running: int, strength: int, soccer: int, basketball: int, stairs: int, kickboxing: int)
    ensures var r := GenerateActivitiesFromDurations(running, strength, soccer, basketball, stairs, kickboxing);
      && ParseSignedDigits(r[0].amount[..|r[0].amount| - |Mins|]) == Some(running)
      && ParseSignedDigits(r[1].amount) == Some(strength)
      && ParseSignedDigits(r[2].amount) == Some(soccer)
      && ParseSignedDigits(r[3].amount) == Some(basketball)
      && ParseSignedDigits(r[4].amount) == Some(stairs)
      && ParseSignedDigits(r[5].amount[..|r[5].amount| - |Mins|]) == Some(kickboxing)
  {
    var r := GenerateActivitiesFromDurations(running, strength, soccer, basketball, stairs, kickboxing);
    assert r[0].amount[..|r[0].amount| - |Mins|] == IntToString(running);
    assert r[5].amount[..|r[5].amount| - |Mins|] == IntToString(kickboxing);
    ParseIntToString(running);
    ParseIntToString(strength);
    ParseIntToString(soccer);
    ParseIntToString(basketball);
    ParseIntToString(stairs);
    ParseIntToString(kickboxing);
  }

  /**
   * `fetchCurrentWeekWorkoutStats` once the query has answered: a failed query fails, otherwise
   * the six cards carry the weekly minutes of their types.
   */
  method FetchCurrentWeekWorkoutStats(result: Fetch<seq<WorkoutSample>>) returns (r: Fetch<seq<Activity>>)
    ensures r.Failure? <==> result.Failure?
    ensures result.Success? ==> r.value == GenerateActivitiesFromDurations(
      MinutesOf(result.value, Running), MinutesOf(result.value, TraditionalStrengthTraining),
      MinutesOf(result.value, Soccer), MinutesOf(result.value, Basketball),
      MinutesOf(result.value, StairClimbing), MinutesOf(result.value, Kickboxing))
  {
    match result {
      case Failure =>
        r := Failure;
      case Success(workouts) =>
        var running, strength, soccer, basketball, stairs, kickboxing := WeeklyDurations(workouts);
        r := Success(GenerateActivitiesFromDurations(running, strength, soccer, basketball, stairs, kickboxing));
    }
  }

  // ---------------------------------------------------------------------------
  // Stand hours
  // ---------------------------------------------------------------------------

  /** An `appleStandHour` sample whose value is 0 (`stood`). */
  predicate Stood(value: int) {
    value == 0
  }

  /** `fetchTodayStandHours` once the query has answered: the number of samples with value 0. */
  function StandHours(result: Fetch<seq<int>>): (r: Fetch<int>)
    ensures r.Failure? <==> result.Failure?
    ensures result.Success? ==> 0 <= r.value <= |result.value|
    ensures result.Success? ==> r.value == Count(result.value, Stood)
  {
    match result
    case Failure => Failure
    case Success(samples) =>
      KeepCount(samples, Stood);
      Success(|Keep(samples, Stood)|)
  }

  /** Every sample counts exactly when every sample has value 0; none counts when none has. */
  lemma {:induction false} StandHoursExtremes(samples: seq<int>)
    ensures StandHours(Success(samples)).value == |samples| <==> forall i :: 0 <= i < |samples| ==> samples[i] == 0
    ensures StandHours(Success(samples)).value == 0 <==> forall i :: 0 <= i < |samples| ==> samples[i] != 0
  {
    if samples != [] {
      var init := samples[..|samples| - 1];
      StandHoursExtremes(init);
      assert forall i :: 0 <= i < |init| ==> init[i] == samples[i];
    }
  }

  // ---------------------------------------------------------------------------
  // Year-to-date and one-year step charts
  // ---------------------------------------------------------------------------

  /** `YearChartDataResult`. */
  datatype YearChartData = YearChartData(ytd: seq<MonthlyStep>, oneYear: seq<MonthlyStep>)

  /**
   * How many calendar years month `-i` lies after the current one, when the current month is
   * `currentMonth` (1 for January); `/` is floor division here, as the calendar's is.
   */
  function YearOffset(i: int, currentMonth: int): int {
    (currentMonth - 1 - i) / 12
  }

  /** Month `-i` is in the current calendar year exactly when fewer than `currentMonth` months back. */
  lemma SameYearIff(i: int, currentMonth: int)
    requires 0 <= i && 1 <= currentMonth <= 12
    ensures YearOffset(i, currentMonth) == 0 <==> i < currentMonth
  {
  }

  /** The chart point of month `-i` with step total `steps`. */
  function MonthPoint(i: int, steps: real): MonthlyStep {
    MonthlyStep(-i, Truncate(steps))
  }

  /** The one-year list after the callbacks of months 0 to |ms| - 1 ran in order; `None` is a failed query. */
  function OneYearMonths(ms: seq<Option<real>>): (r: seq<MonthlyStep>)
    ensures |r| <= |ms|
  {
    if ms == [] then []
    else
      var i := |ms| - 1;
      OneYearMonths(ms[..i]) + (if ms[i].Some? then [MonthPoint(i, ms[i].value)] else [])
  }

  /** The year-to-date list after the same callbacks: month 0, and every other month of this year. */
  function YtdMonths(ms: seq<Option<real>>, currentMonth: int): (r: seq<MonthlyStep>)
    ensures |r| <= |ms|
  {
    if ms == [] then []
    else
      var i := |ms| - 1;
      YtdMonths(ms[..i], currentMonth)
        + (if ms[i].Some? && (i == 0 || YearOffset(i, currentMonth) == 0) then [MonthPoint(i, ms[i].value)] else [])
  }

  /** When every month's query succeeds, the one-year list holds all months from now backwards. */
  lemma {:induction false} OneYearComplete(ms: seq<Option<real>>)
    requires forall i :: 0 <= i < |ms| ==> ms[i].Some?
    ensures |OneYearMonths(ms)| == |ms|
    ensures forall i :: 0 <= i < |ms| ==> OneYearMonths(ms)[i] == MonthPoint(i, ms[i].value)
  {
    if ms != [] {
      OneYearComplete(ms[..|ms| - 1]);
    }
  }

  /**
   * When every month's query succeeds, the year-to-date list is the first `currentMonth` months
   * of the one-year list: exactly the months of the current calendar year.
   */
  lemma {:induction false} YtdIsPrefix(ms: seq<Option<real>>, currentMonth: int)
    requires forall i :: 0 <= i < |ms| ==> ms[i].Some?
    requires 1 <= currentMonth <= 12
    ensures |OneYearMonths(ms)| == |ms|
    ensures |ms| <= currentMonth ==> YtdMonths(ms, currentMonth) == OneYearMonths(ms)
    ensures |ms| >= currentMonth ==> YtdMonths(ms, currentMonth) == OneYearMonths(ms)[..currentMonth]
  {
    if ms != [] {
      var i := |ms| - 1;
      YtdIsPrefix(ms[..i], currentMonth);
      SameYearIff(i, currentMonth);
      OneYearComplete(ms);
      OneYearComplete(ms[..i]);
      if i >= currentMonth {
        assert OneYearMonths(ms)[..currentMonth] == OneYearMonths(ms[..i])[..currentMonth];
      }
    }
  }

  /**
   * `fetchYTDAndOneYearChartData`, with the twelve month queries answered in the order they were
   * issued (`monthSteps[i]` for month `-i`; `None` when the query failed). Each failed query
   * reports a failure; the callback of month `-11`, when it succeeds, reports both lists.
   */
  method FetchYTDAndOneYearChartData(monthSteps: seq<Option<real>>, currentMonth: int)
    returns (completions: seq<Fetch<YearChartData>>)
    requires |monthSteps| == 12
    ensures |completions| == Count(monthSteps, (o: Option<real>) => o.None?) + (if monthSteps[11].Some? then 1 else 0)
    ensures forall k :: 0 <= k < |completions| && (monthSteps[11].None? || k < |completions| - 1) ==>
      completions[k].Failure?
    ensures monthSteps[11].Some? ==>
      completions[|completions| - 1] == Success(YearChartData(YtdMonths(monthSteps, currentMonth), OneYearMonths(monthSteps)))
  {
    var onYearMonths: seq<MonthlyStep> := [];
    var ytdMonths: seq<MonthlyStep> := [];
    completions := [];
    for i := 0 to 12
      invariant onYearMonths == OneYearMonths(monthSteps[..i])
      invariant ytdMonths == YtdMonths(monthSteps[..i], currentMonth)
      invariant var reported := if i == 12 && monthSteps[11].Some? then 1 else 0;
        && |completions| == Count(monthSteps[..i], (o: Option<real>) => o.None?) + reported
        && (forall k :: 0 <= k < |completions| - reported ==> completions[k].Failure?)
        && (reported == 1 ==> completions[|completions| - 1] == Success(YearChartData(ytdMonths, onYearMonths)))
    {
      assert monthSteps[..i + 1][..i] == monthSteps[..i];
      match monthSteps[i] {
        case None =>
          completions := completions + [Failure];
        case Some(steps) =>
          if i == 0 {
            onYearMonths := onYearMonths + [MonthPoint(i, steps)];
            ytdMonths := ytdMonths + [MonthPoint(i, steps)];
          } else {
            onYearMonths := onYearMonths + [MonthPoint(i, steps)];
            if YearOffset(i, currentMonth) == 0 {
              ytdMonths := ytdMonths + [MonthPoint(i, steps)];
            }
          }
          if i == 11 {
            assert monthSteps[..12] == monthSteps;
            completions := completions + [Success(YearChartData(ytdMonths, onYearMonths))];
          }
      }
    }
    assert monthSteps[..12] == monthSteps;
  }
}

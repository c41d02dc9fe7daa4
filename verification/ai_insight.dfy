/**
 * The home screen's insight generator: it gathers today's metrics and the month's workouts,
 * then derives goal, workout-pattern, trend, achievement and recommendation cards from them.
 */
module AIInsights {
  import opened Wrappers
  import opened Text
  import opened Numbers
  import opened Palette
  import opened WorkoutModel
  import opened FitnessInsights
  import Seqs

  // ---------------------------------------------------------------------------
  // Daily progress
  // ---------------------------------------------------------------------------

  const StepGoalReached := FitnessInsight(
    "Daily Step Goal Achieved!",
    "Congratulations! You've reached your daily step goal of 10000 steps.",
    Some("Keep up the great work! Consider increasing your goal to 11000 steps for an extra challenge."),
    "figure.walk", Green, Achievement)
  const AlmostAdvice := "A short evening walk could help you reach your target of 10000 steps."
  const UpdateAdvice := "Try to incorporate more walking into your day to reach your goal of 10000 steps."
  const DailyGoalTail := "% of your daily goal."
  const CalorieGoalTail := " active calories today, exceeding your goal of 600 calories."
  const ExerciseGoalTail := " minutes of exercise today, meeting the recommended daily activity level."
  const ExerciseGoalAdvice := "Regular exercise contributes to better cardiovascular health and mood."

  /**
   * `Int(Float(steps) / 10000 * 100)`: the step goal percentage, truncated toward zero like
   * the conversion.
   */
  function StepPercent(steps: int): int {
    Quot(steps, 100)
  }

  /** Exactly one step card: the goal reached at 10000, "Almost There!" from 7000, else an update. */
  function StepInsight(steps: int): (r: FitnessInsight)
    ensures r == StepGoalReached <==> steps >= 10000
    ensures r.title == "Almost There!" <==> 7000 <= steps < 10000
    ensures r.title == "Step Count Update" <==> steps < 7000
    ensures r.icon == "figure.walk"
    ensures r.kind == Achievement <==> steps >= 10000
  {
    if steps >= 10000 then StepGoalReached
    else if steps >= 7000 then
      FitnessInsight("Almost There!",
        "You're at " + IntToString(steps) + " steps, which is " + IntToString(StepPercent(steps)) + DailyGoalTail,
        Some(AlmostAdvice), "figure.walk", Orange, Observation)
    else
      FitnessInsight("Step Count Update",
        "You've taken " + IntToString(steps) + " steps today, which is " + IntToString(StepPercent(steps)) + DailyGoalTail,
        Some(UpdateAdvice), "figure.walk", Blue, Observation)
  }

  /** The "Almost There!" card shows a percentage of 70 to 99. */
  lemma AlmostTherePercent(steps: int)
    requires 7000 <= steps < 10000
    ensures 70 <= StepPercent(steps) <= 99
  {
  }

  function CalorieCard(calories: int): FitnessInsight {
    FitnessInsight("Calorie Goal Achieved!", "You've burned " + IntToString(calories) + CalorieGoalTail,
      None, "flame.fill", Red, Achievement)
  }

  function ExerciseCard(minutes: int): FitnessInsight {
    FitnessInsight("Exercise Goal Achieved!", "You've completed " + IntToString(minutes) + ExerciseGoalTail,
      Some(ExerciseGoalAdvice), "heart.fill", Green, Achievement)
  }

  /**
   * `generateDailyProgressInsights`: the step card, then a calorie card when at least 600 were
   * burned, then an exercise card when at least 30 minutes were logged.
   */
  function DailyProgressInsights(steps: int, calories: int, exerciseMinutes: int): (r: seq<FitnessInsight>)
    ensures |r| == 1 + (if calories >= 600 then 1 else 0) + (if exerciseMinutes >= 30 then 1 else 0)
    ensures r[0] == StepInsight(steps)
    ensures calories >= 600 ==> r[1] == CalorieCard(calories)
    ensures exerciseMinutes >= 30 ==> r[|r| - 1] == ExerciseCard(exerciseMinutes)
  {
    [StepInsight(steps)]
      + (if calories >= 600 then [CalorieCard(calories)] else [])
      + (if exerciseMinutes >= 30 then [ExerciseCard(exerciseMinutes)] else [])
  }

  // ---------------------------------------------------------------------------
  // Workout patterns
  // ---------------------------------------------------------------------------

  /** How many workouts carry the title `t`. */
  function TitleCount(ws: seq<Workout>, t: string): (n: nat)
    ensures n <= |ws|
  {
    if ws == [] then 0 else TitleCount(ws[..|ws| - 1], t) + (if ws[|ws| - 1].title == t then 1 else 0)
  }

  /** A title is counted exactly when some workout carries it. */
  lemma {:induction false} TitleCountPositive(ws: seq<Workout>, t: string)
    ensures TitleCount(ws, t) > 0 <==> exists i :: 0 <= i < |ws| && ws[i].title == t
  {
    if ws != [] {
      TitleCountPositive(ws[..|ws| - 1], t);
      if TitleCount(ws[..|ws| - 1], t) > 0 {
        var i :| 0 <= i < |ws| - 1 && ws[..|ws| - 1][i].title == t;
        assert ws[i].title == t;
      }
    }
  }

  /** `t` is a workout title no other title outnumbers. */
  ghost predicate MostFrequent(ws: seq<Workout>, t: string) {
    TitleCount(ws, t) > 0 && forall u :: TitleCount(ws, u) <= TitleCount(ws, t)
  }

  /** A non-empty finite tally has a largest entry. */
  lemma MapHasMax(m: map<string, nat>)
    requires |m| > 0
    ensures exists t :: t in m && forall u :: u in m ==> m[u] <= m[t]
    decreases |m|
  {
    var k :| k in m;
    var rest := m - {k};
    assert |rest| == |m| - 1;
    var best := k;
    if |rest| > 0 {
      MapHasMax(rest);
      var t :| t in rest && forall u :: u in rest ==> rest[u] <= rest[t];
      if m[k] <= m[t] {
        best := t;
      }
    }
    forall u | u in m
      ensures m[u] <= m[best]
    {
      if u != k {
        assert u in rest && rest[u] == m[u];
      }
    }
  }

  const PreferenceAdvice := "For balanced fitness, consider incorporating different types of workouts into your routine."
  const ConsistentAdvice := "Consistency is key to long-term fitness success. Keep up the great work!"
  const ExcellentPace := " workouts per week, which is excellent for fitness progress."
  const BuildingAdvice := "Try to aim for 3-4 workouts per week for optimal fitness benefits."
  const StartedAdvice := "Aim for consistency by scheduling regular workout sessions throughout the week."

  function PreferenceCard(title: string, count: int): FitnessInsight {
    FitnessInsight("Workout Preference",
      "You seem to enjoy " + title + " the most, with " + IntToString(count) + " sessions in the past month.",
      Some(PreferenceAdvice), "chart.bar.fill", Purple, Observation)
  }

  function ConsistentCard(perWeek: string): FitnessInsight {
    FitnessInsight("Consistent Training", "You're averaging about " + perWeek + ExcellentPace,
      Some(ConsistentAdvice), "calendar.badge.clock", Green, Achievement)
  }

  function BuildingCard(perWeek: string): FitnessInsight {
    FitnessInsight("Building Consistency", "You're averaging about " + perWeek + " workouts per week.",
      Some(BuildingAdvice), "calendar.badge.clock", Orange, Recommendation)
  }

  function StartedCard(count: int): FitnessInsight {
    FitnessInsight("Getting Started",
      "You've logged " + IntToString(count) + " workout(s) recently. Great start!",
      Some(StartedAdvice), "figure.walk", Blue, Recommendation)
  }

  /**
   * `generateWorkoutPatternInsights` once the most frequent title `favourite` is chosen.
   * `oneDecimal` is the `%.1f` formatter; the weekly rate is the month's count over 4, so the
   * "3 per week" and "1 per week" tests are counts of 12 and 4.
   */
  function WorkoutPatternInsights(ws: seq<Workout>, favourite: string, oneDecimal: real -> string): (r: seq<FitnessInsight>)
    ensures |ws| >= 3 ==> |r| >= 1 && r[0] == PreferenceCard(favourite, TitleCount(ws, favourite))
    ensures |ws| >= 12 ==> |r| == 2 && r[1] == ConsistentCard(oneDecimal(|ws| as real / 4.0))
    ensures 4 <= |ws| < 12 ==> |r| == 2 && r[1] == BuildingCard(oneDecimal(|ws| as real / 4.0))
    ensures |ws| == 3 ==> |r| == 1
    ensures 1 <= |ws| <= 2 ==> r == [StartedCard(|ws|)]
    ensures ws == [] ==> r == []
  {
    if |ws| >= 3 then
      var perWeek := |ws| as real / 4.0;
      [PreferenceCard(favourite, TitleCount(ws, favourite))]
        + (if perWeek >= 3.0 then [ConsistentCard(oneDecimal(perWeek))]
           else if perWeek >= 1.0 then [BuildingCard(oneDecimal(perWeek))]
           else [])
    else if |ws| > 0 then [StartedCard(|ws|)]
    else []
  }

  /** `r` is the pattern cards for `ws` with some most frequent title. */
  ghost predicate IsPatternInsights(r: seq<FitnessInsight>, ws: seq<Workout>, oneDecimal: real -> string) {
    exists t :: (|ws| >= 3 ==> MostFrequent(ws, t)) && r == WorkoutPatternInsights(ws, t, oneDecimal)
  }

  /** Which title is named does not change how many cards appear. */
  lemma PatternInsightCount(ws: seq<Workout>, a: string, b: string, oneDecimal: real -> string)
    ensures |WorkoutPatternInsights(ws, a, oneDecimal)| == |WorkoutPatternInsights(ws, b, oneDecimal)|
    ensures |WorkoutPatternInsights(ws, a, oneDecimal)| == if |ws| >= 4 then 2 else if |ws| >= 1 then 1 else 0
  {
  }

  // ---------------------------------------------------------------------------
  // Weekly trends
  // ---------------------------------------------------------------------------

  const StepsKey := "steps"
  const CaloriesKey := "calories"
  const ExerciseKey := "exercise"
  const StandKey := "stand"

  /** The integer average of the first three days. */
  function EarlyAverage(s: seq<int>): int
    requires |s| >= 7
  {
    Quot(Sum(s[..3]), 3)
  }

  /** The integer average of the last three days. */
  function LateAverage(s: seq<int>): int
    requires |s| >= 7
  {
    Quot(Sum(s[|s| - 3..]), 3)
  }

  /**
   * The steps comparison does not trap: `Int(_)` of an infinite percentage (a zero early
   * average with a non-zero late one) would.
   */
  predicate StepsTrendDefined(trends: map<string, seq<int>>) {
    StepsKey in trends && |trends[StepsKey]| >= 7 ==>
      EarlyAverage(trends[StepsKey]) != 0 || LateAverage(trends[StepsKey]) == 0
  }

  const PositiveAdvice := "Keep up this positive trend to improve your cardiovascular health and energy levels."
  const DecreasingAdvice := "Try to incorporate more walking into your daily routine, such as taking the stairs or parking farther away."
  const WeekTail := "% over the past week."

  function PositiveCard(percent: int): FitnessInsight {
    FitnessInsight("Positive Steps Trend",
      "Your daily step count has increased by approximately " + IntToString(percent) + WeekTail,
      Some(PositiveAdvice), "chart.line.uptrend.xyaxis", Green, TrendAnalysis)
  }

  function DecreasingCard(percent: int): FitnessInsight {
    FitnessInsight("Decreasing Steps Trend",
      "Your daily step count has decreased by approximately " + IntToString(percent) + WeekTail,
      Some(DecreasingAdvice), "chart.line.downtrend.xyaxis", Orange, TrendAnalysis)
  }

  /**
   * The steps part of `generateTrendAnalysisInsights`: with a week or more of data, a rise of
   * more than 10% from the early to the late average gives the positive card, a fall of more
   * than 10% the decreasing card, and anything else nothing.
   */
  function StepsTrendInsights(trends: map<string, seq<int>>): (r: seq<FitnessInsight>)
    requires StepsTrendDefined(trends)
    ensures |r| <= 1
    ensures !(StepsKey in trends && |trends[StepsKey]| >= 7) ==> r == []
    ensures StepsKey in trends && |trends[StepsKey]| >= 7 ==>
      var s := trends[StepsKey];
      var change := Classify(EarlyAverage(s), LateAverage(s));
      && (|r| == 1 && r[0].title == "Positive Steps Trend" <==> change == Rise)
      && (|r| == 1 && r[0].title == "Decreasing Steps Trend" <==> change == Fall)
      && (r == [] <==> change == Flat)
  {
    if StepsKey in trends && |trends[StepsKey]| >= 7 then
      var s := trends[StepsKey];
      var early, late := EarlyAverage(s), LateAverage(s);
      match Classify(early, late)
      case Rise => [PositiveCard(Truncate(PercentChange(early, late)))]
      case Fall => [DecreasingCard(Abs(Truncate(PercentChange(early, late))))]
      case Flat => []
    else []
  }

  /** On positive step counts the 10% test is an integer comparison and a shown change is at least 10%. */
  lemma StepsTrendPositive(trends: map<string, seq<int>>)
    requires StepsKey in trends && |trends[StepsKey]| >= 7
    requires forall i :: 0 <= i < |trends[StepsKey]| ==> trends[StepsKey][i] > 0
    ensures StepsTrendDefined(trends)
    ensures var s := trends[StepsKey];
      var early, late := EarlyAverage(s), LateAverage(s);
      && early > 0
      && (StepsTrendInsights(trends) == [PositiveCard(Truncate(PercentChange(early, late)))] <==> 10 * (late - early) > early)
      && (StepsTrendInsights(trends) == [] <==> -early <= 10 * (late - early) <= early)
      && (10 * (late - early) > early ==> Truncate(PercentChange(early, late)) >= 10)
      && (10 * (late - early) < -early ==> Abs(Truncate(PercentChange(early, late))) >= 10)
  {
    var s := trends[StepsKey];
    var first := s[..3];
    AverageBetweenMinAndMax(first);
    ClassifyPositiveBase(EarlyAverage(s), LateAverage(s));
  }

  /** How many days met the 30-minute exercise goal. */
  function DaysMeetingGoal(e: seq<int>): (n: nat)
    ensures n <= |e|
  {
    if e == [] then 0 else DaysMeetingGoal(e[..|e| - 1]) + (if e[|e| - 1] >= 30 then 1 else 0)
  }

  lemma {:induction false} AllDaysMeetGoal(e: seq<int>)
    requires forall i :: 0 <= i < |e| ==> e[i] >= 30
    ensures DaysMeetingGoal(e) == |e|
  {
    if e != [] {
      AllDaysMeetGoal(e[..|e| - 1]);
    }
  }

  const ExcellentAdvice := "Consistent exercise is key to improving fitness and overall health."
  const GoodAdvice := "Try to be active on most days of the week for optimal health benefits."

  function ConsistencyDescription(days: int): string {
    "You've met your exercise goal on " + IntToString(days) + " days this week."
  }

  /** The exercise part: 5 or more goal days are excellent, 3 or 4 good, fewer say nothing. */
  function ExerciseTrendInsights(trends: map<string, seq<int>>): (r: seq<FitnessInsight>)
    ensures |r| <= 1
    ensures !(ExerciseKey in trends && |trends[ExerciseKey]| >= 7) ==> r == []
    ensures ExerciseKey in trends && |trends[ExerciseKey]| >= 7 ==>
      var days := DaysMeetingGoal(trends[ExerciseKey]);
      && (|r| == 1 && r[0].title == "Excellent Exercise Consistency" <==> days >= 5)
      && (|r| == 1 && r[0].title == "Good Exercise Frequency" <==> 3 <= days < 5)
      && (|r| == 1 ==> r[0].description == ConsistencyDescription(days))
  {
    if ExerciseKey in trends && |trends[ExerciseKey]| >= 7 then
      var days := DaysMeetingGoal(trends[ExerciseKey]);
      if days >= 5 then
        [FitnessInsight("Excellent Exercise Consistency", ConsistencyDescription(days), Some(ExcellentAdvice),
                        "heart.text.square.fill", Green, Achievement)]
      else if days >= 3 then
        [FitnessInsight("Good Exercise Frequency", ConsistencyDescription(days), Some(GoodAdvice),
                        "heart.text.square.fill", Blue, Observation)]
      else []
    else []
  }

  // ---------------------------------------------------------------------------
  // Mock weekly trends
  // ---------------------------------------------------------------------------

  /** Seven days of steps rising by 500 a day from about 6000, each within 500 of the line. */
  predicate StepsMock(s: seq<int>) {
    |s| == 7 && forall i :: 0 <= i < 7 ==> 5500 + 500 * i <= s[i] <= 6500 + 500 * i
  }

  /** Seven days of about 400 calories, 200 more on the last two days, each within 50. */
  predicate CaloriesMock(s: seq<int>) {
    |s| == 7 && forall i :: 0 <= i < 7 ==> (if i >= 5 then 550 <= s[i] <= 650 else 350 <= s[i] <= 450)
  }

  predicate RangeMock(s: seq<int>, lo: int, hi: int) {
    |s| == 7 && forall i :: 0 <= i < 7 ==> lo <= s[i] <= hi
  }

  /** The four mock series are (re)placed under their keys; every other key keeps its series. */
  predicate MockTrends(m: map<string, seq<int>>, before: map<string, seq<int>>) {
    && m.Keys == before.Keys + {StepsKey, CaloriesKey, ExerciseKey, StandKey}
    && (forall k :: k in before && k !in {StepsKey, CaloriesKey, ExerciseKey, StandKey} ==> m[k] == before[k])
    && StepsMock(m[StepsKey]) && CaloriesMock(m[CaloriesKey])
    && RangeMock(m[ExerciseKey], 30, 60) && RangeMock(m[StandKey], 10, 14)
  }

  lemma SumOfThree(s: seq<int>)
    requires |s| == 3
    ensures Sum(s) == s[0] + s[1] + s[2]
  {
    assert s[..1][..0] == [];
    assert Sum(s[..1]) == s[0];
    assert s[..2][..1] == s[..1];
    assert Sum(s[..2]) == s[0] + s[1];
    assert s[..|s| - 1] == s[..2];
  }

  /** The mock step series averages 6000 to 7000 over its first three days and 8000 to 9000 over its last three. */
  lemma MockStepsAverages(s: seq<int>)
    requires StepsMock(s)
    ensures 6000 <= EarlyAverage(s) <= 7000 && 8000 <= LateAverage(s) <= 9000
  {
    SumOfThree(s[..3]);
    SumOfThree(s[4..]);
    assert s[|s| - 3..] == s[4..];
    QuotBetween(Sum(s[..3]), 3, 6000, 7000);
    QuotBetween(Sum(s[4..]), 3, 8000, 9000);
  }

  /** The mock step series always rises by more than 10%, so it always gives the positive card. */
  lemma MockStepsAlwaysPositive(trends: map<string, seq<int>>)
    requires StepsKey in trends && StepsMock(trends[StepsKey])
    ensures StepsTrendDefined(trends)
    ensures |StepsTrendInsights(trends)| == 1 && StepsTrendInsights(trends)[0].title == "Positive Steps Trend"
  {
    var s := trends[StepsKey];
    MockStepsAverages(s);
    ClassifyPositiveBase(EarlyAverage(s), LateAverage(s));
  }

  /** Every mock exercise day meets the goal, so the mock always earns the excellent card. */
  lemma MockExerciseAlwaysExcellent(trends: map<string, seq<int>>)
    requires ExerciseKey in trends && RangeMock(trends[ExerciseKey], 30, 60)
    ensures |ExerciseTrendInsights(trends)| == 1
    ensures ExerciseTrendInsights(trends)[0].title == "Excellent Exercise Consistency"
    ensures ExerciseTrendInsights(trends)[0].description == ConsistencyDescription(7)
  {
    AllDaysMeetGoal(trends[ExerciseKey]);
  }

  // ---------------------------------------------------------------------------
  // Achievements and recommendations
  // ---------------------------------------------------------------------------

  const StreakAdvice := "Maintaining consistent exercise habits leads to long-term health benefits."
  const NewRecordCard := FitnessInsight(
    "New Personal Record!",
    "You've set a new personal record for daily steps this week.",
    Some("Setting and breaking personal records is a great way to stay motivated."),
    "trophy.fill", Yellow, Achievement)

  function StreakCard(days: int): FitnessInsight {
    FitnessInsight("Exercise Streak: " + IntToString(days) + " Days!",
      "You've met your exercise goal for " + IntToString(days) + " consecutive days.",
      Some(StreakAdvice), "flame.fill", Orange, Achievement)
  }

  /** The coin flips and the streak length the source draws at random. */
  datatype Draws = Draws(streakDays: Option<int>, newRecord: bool, needsRecovery: bool)

  predicate DrawsInRange(d: Draws) {
    d.streakDays.Some? ==> 3 <= d.streakDays.value <= 10
  }

  /** `generateAchievementInsights`: a streak card, a record card, both, or neither. */
  function AchievementInsights(d: Draws): (r: seq<FitnessInsight>)
    ensures |r| == (if d.streakDays.Some? then 1 else 0) + (if d.newRecord then 1 else 0)
    ensures forall i :: 0 <= i < |r| ==> r[i].kind == Achievement
  {
    (match d.streakDays case Some(n) => [StreakCard(n)] case None => [])
      + (if d.newRecord then [NewRecordCard] else [])
  }

  const ActivityBalanceCard := FitnessInsight(
    "Activity Balance",
    "Based on your recent activity patterns, you might benefit from more variety in your workouts.",
    Some("Try incorporating both cardio and strength training for a well-rounded fitness routine."),
    "scale.3d", Blue, Recommendation)
  const RecoveryCard := FitnessInsight(
    "Recovery Reminder",
    "Your recent activity levels suggest you might benefit from a recovery day.",
    Some("Consider light activities like walking or yoga today to allow your body to recover."),
    "bed.double.fill", Purple, Recommendation)
  const WorkoutSuggestionCard := FitnessInsight(
    "Workout Suggestion",
    "Based on your fitness profile and recent activity, here's a personalized workout suggestion.",
    Some("Try a 30-minute HIIT session focusing on full-body movements to efficiently burn calories and build strength."),
    "figure.highintensity.intervaltraining", Green, Recommendation)

  /** `generateRecommendationInsights`: balance first, suggestion last, recovery between when drawn. */
  function RecommendationInsights(needsRecovery: bool): (r: seq<FitnessInsight>)
    ensures 2 <= |r| <= 3 && r[0] == ActivityBalanceCard && r[|r| - 1] == WorkoutSuggestionCard
    ensures |r| == 3 <==> needsRecovery
    ensures |r| == 3 ==> r[1] == RecoveryCard
  {
    [ActivityBalanceCard] + (if needsRecovery then [RecoveryCard] else []) + [WorkoutSuggestionCard]
  }

  /** The full card list of `generateInsights`, in generation order. */
  function AllInsights(steps: int, calories: int, exerciseMinutes: int, ws: seq<Workout>,
                       trends: map<string, seq<int>>, favourite: string, oneDecimal: real -> string, d: Draws): seq<FitnessInsight>
    requires StepsTrendDefined(trends)
  {
    DailyProgressInsights(steps, calories, exerciseMinutes)
      + WorkoutPatternInsights(ws, favourite, oneDecimal)
      + StepsTrendInsights(trends) + ExerciseTrendInsights(trends)
      + AchievementInsights(d) + RecommendationInsights(d.needsRecovery)
  }

  /** The list always starts with the step card and ends with the workout suggestion. */
  lemma AllInsightsBookends(steps: int, calories: int, exerciseMinutes: int, ws: seq<Workout>,
                            trends: map<string, seq<int>>, favourite: string, oneDecimal: real -> string, d: Draws)
    requires StepsTrendDefined(trends)
    ensures var r := AllInsights(steps, calories, exerciseMinutes, ws, trends, favourite, oneDecimal, d);
      3 <= |r| <= 12 && r[0] == StepInsight(steps) && r[|r| - 1] == WorkoutSuggestionCard
  {
    var daily := DailyProgressInsights(steps, calories, exerciseMinutes);
    var pre := daily + WorkoutPatternInsights(ws, favourite, oneDecimal)
      + StepsTrendInsights(trends) + ExerciseTrendInsights(trends) + AchievementInsights(d);
    var rec := RecommendationInsights(d.needsRecovery);
    PatternInsightCount(ws, favourite, favourite, oneDecimal);
    assert AllInsights(steps, calories, exerciseMinutes, ws, trends, favourite, oneDecimal, d) == pre + rec;
    assert pre[0] == daily[0];
  }

  /** `r` is what `generateInsights` appends, for some most frequent workout title. */
  ghost predicate IsGenerated(r: seq<FitnessInsight>, steps: int, calories: int, exerciseMinutes: int, ws: seq<Workout>,
                        trends: map<string, seq<int>>, oneDecimal: real -> string, d: Draws)
    requires StepsTrendDefined(trends)
  {
    exists t :: (|ws| >= 3 ==> MostFrequent(ws, t))
      && r == AllInsights(steps, calories, exerciseMinutes, ws, trends, t, oneDecimal, d)
  }

  // ---------------------------------------------------------------------------
  // Fetch results
  // ---------------------------------------------------------------------------

  /** Steps after a fetch: 0 on failure; the comma-free amount when it parses; otherwise unchanged. */
  function StepsAfter(result: Fetch<string>, before: int): int {
    match result
    case Failure => 0
    case Success(a) => match ParseInt(RemoveChar(a, ',')) { case Some(v) => v case None => before }
  }

  /** A quantity after a fetch: its truncated value, or 0 on failure. */
  function WholeAfter(result: Fetch<real>): int {
    match result
    case Failure => 0
    case Success(x) => Truncate(x)
  }

  /** A formatted step count reads back as the count. */
  lemma StepsAfterFormatted(n: int, before: int)
    requires INT64_MIN <= n <= INT64_MAX
    ensures StepsAfter(Success(FormatDecimal(n)), before) == n
  {
    FormatDecimalRoundTrip(n);
  }

  /** Every published and private field at once. */
  datatype ModelState = ModelState(
    insights: seq<FitnessInsight>, isLoading: bool,
    steps: int, calories: int, exerciseMinutes: int, standHours: int,
    recentWorkouts: seq<Workout>, weeklyActivityTrends: map<string, seq<int>>)

  class AIInsightViewModel {
    var insights: seq<FitnessInsight>
    var isLoading: bool
    var steps: int
    var calories: int
    var exerciseMinutes: int
    var standHours: int
    var recentWorkouts: seq<Workout>
    var weeklyActivityTrends: map<string, seq<int>>

    function State(): ModelState
      reads this
    {
      ModelState(insights, isLoading, steps, calories, exerciseMinutes, standHours, recentWorkouts, weeklyActivityTrends)
    }

    constructor ()
      ensures State() == ModelState([], false, 0, 0, 0, 0, [], map[])
    {
      insights, isLoading := [], false;
      steps, calories, exerciseMinutes, standHours := 0, 0, 0, 0;
      recentWorkouts, weeklyActivityTrends := [], map[];
    }

    /**
     * `loadInsights` with the fetches completed in place: the cards are cleared, the metrics
     * refreshed from the fetch results, the cards regenerated, and loading ends.
     */
    method LoadInsights(stepsResult: Fetch<string>, caloriesResult: Fetch<real>, exerciseResult: Fetch<real>,
                        standResult: Fetch<int>, workoutsResult: Fetch<seq<Workout>>,
                        oneDecimal: real -> string, d: Draws)
      requires DrawsInRange(d)
      modifies this
      ensures steps == StepsAfter(stepsResult, old(steps)) && calories == WholeAfter(caloriesResult)
      ensures exerciseMinutes == WholeAfter(exerciseResult)
      ensures standHours == (match standResult case Success(h) => h case Failure => 0)
      ensures recentWorkouts == (match workoutsResult case Success(ws) => ws case Failure => [])
      ensures MockTrends(weeklyActivityTrends, old(weeklyActivityTrends))
      ensures StepsTrendDefined(weeklyActivityTrends)
      ensures IsGenerated(insights, steps, calories, exerciseMinutes, recentWorkouts, weeklyActivityTrends, oneDecimal, d)
      ensures !isLoading
    {
      isLoading := true;
      insights := [];
      FetchHealthData(stepsResult, caloriesResult, exerciseResult, standResult, workoutsResult);
      MockStepsAverages(weeklyActivityTrends[StepsKey]);
      GenerateInsights(oneDecimal, d);
      Seqs.FromStart(insights);
      isLoading := false;
    }

    /** `fetchHealthData`: each metric takes its fetch result; the mock weekly trends are refreshed. */
    method FetchHealthData(stepsResult: Fetch<string>, caloriesResult: Fetch<real>, exerciseResult: Fetch<real>,
                           standResult: Fetch<int>, workoutsResult: Fetch<seq<Workout>>)
      modifies this
      ensures steps == StepsAfter(stepsResult, old(steps)) && calories == WholeAfter(caloriesResult)
      ensures exerciseMinutes == WholeAfter(exerciseResult)
      ensures standHours == (match standResult case Success(h) => h case Failure => 0)
      ensures recentWorkouts == (match workoutsResult case Success(ws) => ws case Failure => [])
      ensures MockTrends(weeklyActivityTrends, old(weeklyActivityTrends))
      ensures insights == old(insights) && isLoading == old(isLoading)
    {
      match stepsResult {
        case Success(amount) =>
          match ParseInt(RemoveChar(amount, ',')) {
            case Some(v) => steps := v;
            case None =>
          }
        case Failure => steps := 0;
      }
      calories := WholeAfter(caloriesResult);
      exerciseMinutes := WholeAfter(exerciseResult);
      match standResult {
        case Success(h) => standHours := h;
        case Failure => standHours := 0;
      }
      match workoutsResult {
        case Success(ws) => recentWorkouts := ws;
        case Failure => recentWorkouts := [];
      }
      GenerateMockWeeklyTrends();
    }

    /** `generateMockWeeklyTrends`: four seven-day series drawn around their baselines. */
    method GenerateMockWeeklyTrends()
      modifies this
      ensures MockTrends(weeklyActivityTrends, old(weeklyActivityTrends))
      ensures State() == old(State()).(weeklyActivityTrends := weeklyActivityTrends)
    {
      var stepsTrend := StepsSeries();
      weeklyActivityTrends := weeklyActivityTrends[StepsKey := stepsTrend];
      var caloriesTrend := CaloriesSeries();
      weeklyActivityTrends := weeklyActivityTrends[CaloriesKey := caloriesTrend];
      var exerciseTrend := RangeSeries(30, 60);
      weeklyActivityTrends := weeklyActivityTrends[ExerciseKey := exerciseTrend];
      var standTrend := RangeSeries(10, 14);
      weeklyActivityTrends := weeklyActivityTrends[StandKey := standTrend];
    }

    /** `generateInsights`: the five generators, in order. */
    method GenerateInsights(oneDecimal: real -> string, d: Draws)
      requires StepsTrendDefined(weeklyActivityTrends) && DrawsInRange(d)
      modifies this
      ensures State() == old(State()).(insights := insights)
      ensures |insights| >= |old(insights)| && insights[..|old(insights)|] == old(insights)
      ensures IsGenerated(insights[|old(insights)|..], steps, calories, exerciseMinutes, recentWorkouts,
                          weeklyActivityTrends, oneDecimal, d)
    {
      ghost var before := insights;
      GenerateDailyProgressInsights();
      assert insights == before + DailyProgressInsights(steps, calories, exerciseMinutes);
      ghost var favourite := GenerateWorkoutPatternInsights(oneDecimal);
      assert insights == before + DailyProgressInsights(steps, calories, exerciseMinutes) + WorkoutPatternInsights(recentWorkouts, favourite, oneDecimal);
      GenerateTrendAnalysisInsights();
      assert insights == before + DailyProgressInsights(steps, calories, exerciseMinutes) + WorkoutPatternInsights(recentWorkouts, favourite, oneDecimal)
        + StepsTrendInsights(weeklyActivityTrends) + ExerciseTrendInsights(weeklyActivityTrends);
      GenerateAchievementInsights(d);
      GenerateRecommendationInsights(d.needsRecovery);
      assert insights == before + DailyProgressInsights(steps, calories, exerciseMinutes) + WorkoutPatternInsights(recentWorkouts, favourite, oneDecimal)
        + StepsTrendInsights(weeklyActivityTrends) + ExerciseTrendInsights(weeklyActivityTrends)
        + AchievementInsights(d) + RecommendationInsights(d.needsRecovery);
      ghost var all := AllInsights(steps, calories, exerciseMinutes, recentWorkouts, weeklyActivityTrends, favourite, oneDecimal, d);
      Seqs.AppendSix(before, DailyProgressInsights(steps, calories, exerciseMinutes), WorkoutPatternInsights(recentWorkouts, favourite, oneDecimal),
                StepsTrendInsights(weeklyActivityTrends), ExerciseTrendInsights(weeklyActivityTrends),
                AchievementInsights(d), RecommendationInsights(d.needsRecovery));
      assert insights[|before|..] == all;
    }

    method GenerateDailyProgressInsights()
      modifies this
      ensures State() == old(State()).(insights := old(insights) + DailyProgressInsights(steps, calories, exerciseMinutes))
    {
      var cards := [StepInsight(steps)];
      if calories >= 600 {
        cards := cards + [CalorieCard(calories)];
      }
      if exerciseMinutes >= 30 {
        cards := cards + [ExerciseCard(exerciseMinutes)];
      }
      assert cards == DailyProgressInsights(steps, calories, exerciseMinutes);
      insights := insights + cards;
    }

    /**
     * `generateWorkoutPatternInsights`: tallies the titles of the recent workouts and names
     * one with the largest tally.
     */
    method GenerateWorkoutPatternInsights(oneDecimal: real -> string) returns (ghost favourite: string)
      modifies this
      ensures |recentWorkouts| >= 3 ==> MostFrequent(recentWorkouts, favourite)
      ensures State() == old(State()).(insights := old(insights) + WorkoutPatternInsights(recentWorkouts, favourite, oneDecimal))
    {
      favourite := "";
      if |recentWorkouts| >= 3 {
        var counts := TallyTitles(recentWorkouts);
        TitleCountPositive(recentWorkouts, recentWorkouts[0].title);
        assert recentWorkouts[0].title in counts;
        MapHasMax(counts);
        var mostFrequent :| mostFrequent in counts && forall u :: u in counts ==> counts[u] <= counts[mostFrequent];
        favourite := mostFrequent;
        assert MostFrequent(recentWorkouts, favourite) by {
          forall u ensures TitleCount(recentWorkouts, u) <= TitleCount(recentWorkouts, favourite) {
            if TitleCount(recentWorkouts, u) > 0 {
              assert u in counts;
            }
          }
        }
        insights := insights + [PreferenceCard(mostFrequent, counts[mostFrequent])];
        var perWeek := |recentWorkouts| as real / 4.0;
        if perWeek >= 3.0 {
          insights := insights + [ConsistentCard(oneDecimal(perWeek))];
        } else if perWeek >= 1.0 {
          insights := insights + [BuildingCard(oneDecimal(perWeek))];
        }
        assert insights == old(insights) + WorkoutPatternInsights(recentWorkouts, favourite, oneDecimal);
      } else {
        if |recentWorkouts| > 0 {
          insights := insights + [StartedCard(|recentWorkouts|)];
        }
        assert insights == old(insights) + WorkoutPatternInsights(recentWorkouts, "", oneDecimal);
      }
    }

    /** `generateTrendAnalysisInsights`: the steps comparison, then the exercise consistency. */
    method GenerateTrendAnalysisInsights()
      requires StepsTrendDefined(weeklyActivityTrends)
      modifies this
      ensures State() == old(State()).(insights := old(insights) + StepsTrendInsights(old(weeklyActivityTrends))
                                                   + ExerciseTrendInsights(old(weeklyActivityTrends)))
    {
      insights := insights + StepsTrendInsights(weeklyActivityTrends);
      if ExerciseKey in weeklyActivityTrends && |weeklyActivityTrends[ExerciseKey]| >= 7 {
        var exerciseTrend := weeklyActivityTrends[ExerciseKey];
        var daysWithExercise := DaysMeetingGoal(exerciseTrend);
        if daysWithExercise >= 5 {
          insights := insights + [FitnessInsight("Excellent Exercise Consistency", ConsistencyDescription(daysWithExercise),
                                                 Some(ExcellentAdvice), "heart.text.square.fill", Green, Achievement)];
        } else if daysWithExercise >= 3 {
          insights := insights + [FitnessInsight("Good Exercise Frequency", ConsistencyDescription(daysWithExercise),
                                                 Some(GoodAdvice), "heart.text.square.fill", Blue, Observation)];
        }
      }
    }

    method GenerateAchievementInsights(d: Draws)
      requires DrawsInRange(d)
      modifies this
      ensures State() == old(State()).(insights := old(insights) + AchievementInsights(d))
    {
      if d.streakDays.Some? {
        insights := insights + [StreakCard(d.streakDays.value)];
      }
      if d.newRecord {
        insights := insights + [NewRecordCard];
      }
    }

    method GenerateRecommendationInsights(needsRecovery: bool)
      modifies this
      ensures State() == old(State()).(insights := old(insights) + RecommendationInsights(needsRecovery))
    {
      insights := insights + [ActivityBalanceCard];
      if needsRecovery {
        insights := insights + [RecoveryCard];
      }
      insights := insights + [WorkoutSuggestionCard];
    }
  }

  /** The title tally: each title of `ws` mapped to how many workouts carry it. */
  method TallyTitles(ws: seq<Workout>) returns (counts: map<string, nat>)
    ensures forall t :: t in counts <==> TitleCount(ws, t) > 0
    ensures forall t :: t in counts ==> counts[t] == TitleCount(ws, t)
  {
    counts := map[];
    for i := 0 to |ws|
      invariant forall t :: t in counts <==> TitleCount(ws[..i], t) > 0
      invariant forall t :: t in counts ==> counts[t] == TitleCount(ws[..i], t)
    {
      var title := ws[i].title;
      assert ws[..i + 1][..i] == ws[..i];
      counts := counts[title := (if title in counts then counts[title] else 0) + 1];
    }
    assert ws[..|ws|] == ws;
  }

  /** Day `i` of the steps series: 6000 + 500 * i, give or take 500. */
  method StepsSeries() returns (s: seq<int>)
    ensures StepsMock(s)
  {
    s := [];
    for i := 0 to 7
      invariant |s| == i && forall j :: 0 <= j < i ==> 5500 + 500 * j <= s[j] <= 6500 + 500 * j
    {
      var variation :| -500 <= variation <= 500;
      s := s + [6000 + i * 500 + variation];
    }
  }

  /** Day `i` of the calories series: 400, plus 200 on days 5 and 6, give or take 50. */
  method CaloriesSeries() returns (s: seq<int>)
    ensures CaloriesMock(s)
  {
    s := [];
    for i := 0 to 7
      invariant |s| == i && forall j :: 0 <= j < i ==> (if j >= 5 then 550 <= s[j] <= 650 else 350 <= s[j] <= 450)
    {
      var isWeekend := i >= 5;
      var weekendBonus := if isWeekend then 200 else 0;
      var variation :| -50 <= variation <= 50;
      s := s + [400 + weekendBonus + variation];
    }
  }

  /** Seven values drawn from `lo..hi`. */
  method RangeSeries(lo: int, hi: int) returns (s: seq<int>)
    requires lo <= hi
    ensures RangeMock(s, lo, hi)
  {
    s := [];
    for i := 0 to 7
      invariant |s| == i && forall j :: 0 <= j < i ==> lo <= s[j] <= hi
    {
      var value :| lo <= value <= hi;
      s := s + [value];
    }
  }
}

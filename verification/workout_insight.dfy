/**
 * The workout detail screen's insight view model: mock heart-rate statistics, a history of
 * five earlier sessions of the same type, the improvement message comparing the two first
 * entries of that history, and the insight cards chosen by workout type.
 */
module WorkoutInsights {
  import opened Wrappers
  import opened Text
  import opened Numbers
  import opened Palette
  import opened WorkoutModel
  import opened PreviousWorkouts
  import WorkoutList

  // ---------------------------------------------------------------------------
  // Insight cards
  // ---------------------------------------------------------------------------

  datatype InsightKind = Achievement | Observation | Recommendation

  /** A card; its UUID is not modelled. */
  datatype WorkoutInsight = WorkoutInsight(
    title: string,
    description: string,
    recommendation: Option<string>,
    icon: string,
    color: Color,
    kind: InsightKind)

  /** Every generator yields an achievement, an observation and a recommendation, in that order. */
  predicate ThreeCards(r: seq<WorkoutInsight>) {
    |r| == 3 && r[0].kind == Achievement && r[1].kind == Observation && r[2].kind == Recommendation
  }

  const PaceHead := "Your average pace of "
  const PaceTail := " is excellent for your fitness level."
  const PeakHead := "Your heart rate peaked at "
  const PeakTail := " during this run, which is within your target zone."
  const PeakAdvice := "For optimal cardiovascular benefits, aim to maintain 70-80% of your max heart rate during runs."

  const RecoverySuggestion := WorkoutInsight("Recovery Suggestion",
    "Based on your running intensity, we recommend a recovery day tomorrow with light stretching or yoga.",
    Some("Hydrate well and consider foam rolling to prevent muscle soreness."),
    "figure.mind.and.body", Blue, Recommendation)

  function RunningInsights(pace: string, maxHeartRate: string): (r: seq<WorkoutInsight>)
    ensures ThreeCards(r) && r[0].title == "Great Pace!"
  {
    [ WorkoutInsight("Great Pace!", PaceHead + pace + PaceTail,
        Some("Try interval training to improve your speed further."), "bolt.fill", Green, Achievement),
      WorkoutInsight("Heart Rate Analysis", PeakHead + maxHeartRate + PeakTail,
        Some(PeakAdvice), "heart.fill", Red, Observation),
      RecoverySuggestion ]
  }

  const ConsistentTraining := WorkoutInsight("Consistent Training",
    "You've been consistent with strength training, which is key to building muscle and strength.",
    Some("Consider increasing weights by 5-10% for continued progress."),
    "figure.strengthtraining.traditional", Orange, Achievement)
  const WorkoutIntensity := WorkoutInsight("Workout Intensity",
    "Your heart rate during this workout indicates a moderate intensity level.",
    Some("To build more strength, try reducing rest periods between sets to 60-90 seconds."),
    "chart.line.uptrend.xyaxis", Purple, Observation)
  const NutritionTip := WorkoutInsight("Nutrition Tip",
    "For optimal muscle recovery after strength training, consume protein within 30 minutes of your workout.",
    Some("Aim for 20-30g of protein and include some carbohydrates to replenish glycogen stores."),
    "fork.knife", Blue, Recommendation)

  function StrengthTrainingInsights(): (r: seq<WorkoutInsight>)
    ensures ThreeCards(r) && r[0].title == "Consistent Training"
  {
    [ConsistentTraining, WorkoutIntensity, NutritionTip]
  }

  const EfficientSwimming := WorkoutInsight("Efficient Swimming",
    "You maintained a steady pace throughout your swim, which is great for endurance building.",
    Some("Try incorporating different strokes to engage different muscle groups."),
    "figure.pool.swim", Blue, Achievement)
  const CalorieBurn := WorkoutInsight("Calorie Burn",
    "Swimming is a full-body workout that efficiently burns calories while being gentle on joints.",
    Some("For variety, try interval swimming with alternating fast and recovery laps."),
    "flame.fill", Red, Observation)
  const TechniqueFocus := WorkoutInsight("Technique Focus",
    "Focusing on technique can improve your efficiency and speed in the water.",
    Some("Consider a session with a swim coach to refine your stroke mechanics."),
    "hand.raised.fill", Green, Recommendation)

  function SwimmingInsights(): (r: seq<WorkoutInsight>)
    ensures ThreeCards(r) && r[0].title == "Efficient Swimming"
  {
    [EfficientSwimming, CalorieBurn, TechniqueFocus]
  }

  const CompletedAdvice := "Regular exercise contributes to improved mood, energy levels, and overall health."
  const ActivityAnalysis := WorkoutInsight("Activity Analysis",
    "Your heart rate during this workout indicates you were working at a moderate intensity level.",
    Some("For cardiovascular health, aim for at least 150 minutes of moderate-intensity activity per week."),
    "heart.text.square.fill", Red, Observation)
  const RecoveryReminder := WorkoutInsight("Recovery Reminder",
    "Proper recovery is essential for fitness progress and injury prevention.",
    Some("Make sure to stay hydrated and get adequate sleep tonight to maximize recovery."),
    "bed.double.fill", Blue, Recommendation)

  function GenericInsights(w: Workout): (r: seq<WorkoutInsight>)
    ensures ThreeCards(r) && r[0].title == "Workout Completed!"
  {
    [ WorkoutInsight("Workout Completed!",
        "You've completed a " + w.duration + " " + w.title + " session, burning approximately " + w.calories + ".",
        Some(CompletedAdvice), "checkmark.circle.fill", Green, Achievement),
      ActivityAnalysis,
      RecoveryReminder ]
  }

  /**
   * The type dispatch of `generateInsights`, on the lower-cased title: three cards, led by the
   * running, strength-training or swimming card for exactly those titles, the generic one otherwise.
   */
  function TypeInsights(w: Workout, pace: string, maxHeartRate: string): (r: seq<WorkoutInsight>)
    ensures ThreeCards(r)
    ensures r[0].title == "Great Pace!" <==> Lower(w.title) == "running"
    ensures r[0].title == "Consistent Training" <==> Lower(w.title) == "strength training"
    ensures r[0].title == "Efficient Swimming" <==> Lower(w.title) == "swimming"
    ensures r[0].title == "Workout Completed!" <==>
      Lower(w.title) != "running" && Lower(w.title) != "strength training" && Lower(w.title) != "swimming"
  {
    var t := Lower(w.title);
    if t == "running" then RunningInsights(pace, maxHeartRate)
    else if t == "strength training" then StrengthTrainingInsights()
    else if t == "swimming" then SwimmingInsights()
    else GenericInsights(w)
  }

  // ---------------------------------------------------------------------------
  // Comparison with the previous session
  // ---------------------------------------------------------------------------

  /** The current session did better than the previous one on duration or on calories. */
  predicate Progressed(current: PreviousWorkout, previous: PreviousWorkout) {
    current.durationInMinutes - previous.durationInMinutes > 0 || current.caloriesBurned - previous.caloriesBurned > 0
  }

  /** Which of the four messages `generateImprovementText` writes, with the numbers it shows. */
  datatype Improvement = LongerAndMore(minutes: int, kcal: int) | LongerOnly(minutes: int) | MoreOnly(kcal: int) | Shorter(minutes: int)

  /** The message is chosen by the signs of the duration and calorie differences. */
  function ImprovementOf(current: PreviousWorkout, previous: PreviousWorkout): (r: Improvement)
    ensures var dd, cd := current.durationInMinutes - previous.durationInMinutes, current.caloriesBurned - previous.caloriesBurned;
      && (r.LongerAndMore? <==> dd > 0 && cd > 0)
      && (r.LongerOnly? <==> dd > 0 && cd <= 0)
      && (r.MoreOnly? <==> dd <= 0 && cd > 0)
      && (r.Shorter? <==> !Progressed(current, previous))
      && (r.LongerAndMore? ==> r.minutes == dd && r.kcal == cd)
      && (r.LongerOnly? ==> r.minutes == dd)
      && (r.MoreOnly? ==> r.kcal == cd)
      && (r.Shorter? ==> r.minutes == Abs(dd) && r.minutes == previous.durationInMinutes - current.durationInMinutes)
  {
    var dd := current.durationInMinutes - previous.durationInMinutes;
    var cd := current.caloriesBurned - previous.caloriesBurned;
    if dd > 0 && cd > 0 then LongerAndMore(dd, cd)
    else if dd > 0 then LongerOnly(dd)
    else if cd > 0 then MoreOnly(cd)
    else Shorter(Abs(dd))
  }

  /** The text of each message. */
  function ImprovementText(i: Improvement): string {
    match i
    case LongerAndMore(m, k) =>
      "Great progress! You worked out " + IntToString(m) + " minutes longer and burned " + IntToString(k) + KcalTail
    case LongerOnly(m) => "You increased your workout duration by " + IntToString(m) + DurationTail
    case MoreOnly(k) => "You burned " + IntToString(k) + KcalTail
    case Shorter(m) => "This workout was " + IntToString(m) + ShorterTail
  }

  const KcalTail := " more calories than your last session."
  const DurationTail := " minutes compared to your last session."
  const ShorterTail := " minutes shorter than your last session. Keep pushing!"

  const ProgressDefault := "You're making good progress compared to your previous workout."
  const KeepPushing := "Keep pushing to reach your previous performance levels."

  /**
   * `generateComparisonInsights`: nothing with fewer than two sessions; otherwise one card,
   * "Progress Detected!" exactly when the first session did better than the second.
   */
  function ComparisonInsights(history: seq<PreviousWorkout>, isImproved: bool, improvementText: Option<string>): (r: seq<WorkoutInsight>)
    ensures |history| < 2 ==> r == []
    ensures |history| >= 2 ==> |r| == 1
    ensures |history| >= 2 ==> (r[0].title == "Progress Detected!" <==> Progressed(history[0], history[1]))
    ensures |history| >= 2 ==> (r[0].title == "Workout Variation" <==> !Progressed(history[0], history[1]))
    ensures |history| >= 2 && Progressed(history[0], history[1]) && !isImproved ==> r[0].description == KeepPushing
  {
    if |history| < 2 then []
    else if Progressed(history[0], history[1]) then
      [ProgressCard(if isImproved then (match improvementText case Some(t) => t case None => ProgressDefault) else KeepPushing)]
    else
      [WorkoutVariation]
  }

  function ProgressCard(description: string): WorkoutInsight {
    WorkoutInsight("Progress Detected!", description, Some(ProgressAdvice), "arrow.up.right.circle.fill", Green, Achievement)
  }

  const ProgressAdvice := "Consistent improvement is key to long-term fitness success."
  const WorkoutVariation := WorkoutInsight("Workout Variation",
    "This workout was different from your last session. Variation is normal and can be beneficial for overall fitness.",
    Some("Focus on consistency over time rather than comparing individual workouts."),
    "arrow.left.arrow.right.circle.fill", Orange, Observation)

  /**
   * Once `generateImprovementText` has run on the same history, a "Progress Detected!" card
   * shows the improvement message itself.
   */
  lemma ProgressCardShowsImprovement(history: seq<PreviousWorkout>)
    requires |history| >= 2 && Progressed(history[0], history[1])
    ensures var text := ImprovementText(ImprovementOf(history[0], history[1]));
      ComparisonInsights(history, Progressed(history[0], history[1]), Some(text))[0].description == text
  {
  }

  // ---------------------------------------------------------------------------
  // Heart rate
  // ---------------------------------------------------------------------------

  function BpmText(n: int): string {
    IntToString(n) + " BPM"
  }

  /**
   * The figures shown for a non-empty series read back in order: the truncated average lies
   * between the minimum and the maximum.
   */
  lemma HeartRateStatsOrdered(hr: seq<int>)
    requires |hr| > 0
    ensures Min(hr) <= LeadingNumber(BpmText(Quot(Sum(hr), |hr|))) <= LeadingNumber(BpmText(Max(hr))) == Max(hr)
  {
    AverageBetweenMinAndMax(hr);
    BpmRoundTrip(Quot(Sum(hr), |hr|));
    BpmRoundTrip(Max(hr));
  }

  lemma BpmRoundTrip(n: int)
    ensures LeadingNumber(BpmText(n)) == n
  {
    LeadingNumberOfText(n, "BPM");
    assert BpmText(n) == IntToString(n) + " " + "BPM";
  }

  // ---------------------------------------------------------------------------
  // Image and colour lookups
  // ---------------------------------------------------------------------------

  /** The workout types the two lookups know, lower-cased. */
  const KnownTypes: seq<string> :=
    ["running", "strength training", "swimming", "cycling", "walking", "basketball", "soccer", "kickboxing", "yoga"]

  /** `getWorkoutImage`: "figure.walk" exactly for walking and for unknown types. */
  function WorkoutImage(kind: string): (r: string)
    ensures r == "figure.walk" <==> Lower(kind) !in KnownTypes || Lower(kind) == "walking"
  {
    var t := Lower(kind);
    if t == "running" then "figure.run"
    else if t == "strength training" then "figure.strengthtraining.traditional"
    else if t == "swimming" then "figure.pool.swim"
    else if t == "cycling" then "figure.outdoor.cycle"
    else if t == "walking" then "figure.walk"
    else if t == "basketball" then "figure.basketball"
    else if t == "soccer" then "figure.soccer"
    else if t == "kickboxing" then "figure.kickboxing"
    else if t == "yoga" then "figure.mind.and.body"
    else "figure.walk"
  }

  /** `getWorkoutColor`: gray exactly for the unknown types. */
  function WorkoutColor(kind: string): (r: Color)
    ensures r == Gray <==> Lower(kind) !in KnownTypes
  {
    var t := Lower(kind);
    if t == "running" then Green
    else if t == "strength training" then Orange
    else if t == "swimming" then Blue
    else if t == "cycling" then Purple
    else if t == "walking" then Teal
    else if t == "basketball" then Red
    else if t == "soccer" then Blue
    else if t == "kickboxing" then Purple
    else if t == "yoga" then Indigo
    else Gray
  }

  /** Both lookups ignore letter case. */
  lemma LookupsIgnoreCase(kind: string)
    ensures WorkoutImage(Lower(kind)) == WorkoutImage(kind) && WorkoutColor(Lower(kind)) == WorkoutColor(kind)
  {
    LowerIdempotent(kind);
  }

  // ---------------------------------------------------------------------------
  // The history, sorted by its date text
  // ---------------------------------------------------------------------------

  /** `sort { $0.date > $1.date }`: no entry's date text is below a later entry's. */
  predicate DateSorted(ws: seq<PreviousWorkout>) {
    forall i, j :: 0 <= i < j < |ws| ==> !Less(ws[i].date, ws[j].date)
  }

  function InsertByDate(x: PreviousWorkout, s: seq<PreviousWorkout>): (r: seq<PreviousWorkout>)
    ensures multiset(r) == multiset(s) + multiset{x}
  {
    if s == [] then [x]
    else if !Less(x.date, s[0].date) then [x] + s
    else
      assert s == [s[0]] + s[1..];
      [s[0]] + InsertByDate(x, s[1..])
  }

  lemma {:induction false} InsertByDateSorted(x: PreviousWorkout, s: seq<PreviousWorkout>)
    requires DateSorted(s)
    ensures DateSorted(InsertByDate(x, s))
  {
    if s == [] {
    } else if !Less(x.date, s[0].date) {
      var r := [x] + s;
      forall i, j | 0 <= i < j < |r|
        ensures !Less(r[i].date, r[j].date)
      {
        if i == 0 && j > 1 {
          NotLessTransitive(x.date, s[0].date, s[j - 1].date);
        }
      }
    } else {
      var rest := InsertByDate(x, s[1..]);
      InsertByDateSorted(x, s[1..]);
      LessAsymmetric(x.date, s[0].date);
      forall k | 0 <= k < |rest|
        ensures !Less(s[0].date, rest[k].date)
      {
        assert rest[k] in multiset(rest);
        if rest[k] != x {
          assert rest[k] in multiset(s[1..]);
          var m :| 0 <= m < |s[1..]| && s[1..][m] == rest[k];
          assert s[m + 1] == rest[k];
        }
      }
    }
  }

  /** An insertion sort, used only to show that a sorted reordering always exists. */
  function SortByDate(s: seq<PreviousWorkout>): (r: seq<PreviousWorkout>)
    ensures multiset(r) == multiset(s) && DateSorted(r)
  {
    if s == [] then []
    else
      assert s == s[..|s| - 1] + [s[|s| - 1]];
      var r := SortByDate(s[..|s| - 1]);
      InsertByDateSorted(s[|s| - 1], r);
      InsertByDate(s[|s| - 1], r)
  }

  /**
   * The sort compares date texts, not dates: the entry sorted first is never one whose date
   * text is below another entry's, even when that text names the later day.
   */
  lemma SortedFirstNotBelow(ws: seq<PreviousWorkout>, a: string, b: string, k: int)
    requires DateSorted(ws) && 0 <= k < |ws| && ws[k].date == b && Less(a, b)
    ensures ws[0].date != a
  {
    LessIrreflexive(a);
  }

  /** "May-12" is below "May-9" as text, since '1' comes before '9'. */
  lemma DayTwelveBelowDayNine(a: string, b: string)
    requires a == "May-12" && b == "May-9"
    ensures Less(a, b)
  {
    assert a[..4] == b[..4] && a[4] == '1' && b[4] == '9';
    assert Less(a[1..], b[1..]) by {
      assert Less(a[2..], b[2..]) by {
        assert Less(a[3..], b[3..]) by {
          assert Less(a[4..], b[4..]);
        }
      }
    }
  }

  // ---------------------------------------------------------------------------
  // The mock history
  // ---------------------------------------------------------------------------

  /** The session being viewed, as `fetchPreviousWorkouts` fakes it: 30 minutes, 300 kcal, dated today. */
  function CurrentSession(kind: string, today: string): Workout {
    Workout(Some(0), kind, WorkoutImage(kind), WorkoutColor(kind), MinutesText(30), today, KcalText(300))
  }

  /** The i-th earlier session (1 to 4): id 100 + i, dated 3 * i days ago, 20 to 60 minutes, 150 to 500 kcal. */
  predicate EarlierSession(p: PreviousWorkout, i: int, dateLabel: int -> string) {
    && p.id == Some(100 + i) && p.date == dateLabel(3 * i)
    && 20 <= p.durationInMinutes <= 60 && 150 <= p.caloriesBurned <= 500
  }

  /** The five sessions before sorting: the current one (as `CurrentSessionNumbers` reads it back), then four earlier ones. */
  predicate MockHistory(u: seq<PreviousWorkout>, kind: string, dateLabel: int -> string) {
    && |u| == 5
    && u[0] == PreviousWorkout(Some(0), dateLabel(0), 30, 300)
    && (forall i :: 1 <= i < 5 ==> EarlierSession(u[i], i, dateLabel))
  }

  /**
   * The entry compared as "current" need not be the current session: when today prints as
   * "May-12" and three days ago as "May-9", the session dated today is not sorted first.
   */
  lemma CurrentNotFirstAcrossDigitCounts(ws: seq<PreviousWorkout>, u: seq<PreviousWorkout>, kind: string, dateLabel: int -> string)
    requires MockHistory(u, kind, dateLabel) && multiset(u) == multiset(ws) && DateSorted(ws)
    requires dateLabel(0) == "May-12" && dateLabel(3) == "May-9"
    ensures ws[0].date != dateLabel(0)
  {
    assert EarlierSession(u[1], 1, dateLabel);
    assert u[1] in multiset(ws);
    var k :| 0 <= k < |ws| && ws[k] == u[1];
    DayTwelveBelowDayNine(dateLabel(0), dateLabel(3));
    SortedFirstNotBelow(ws, dateLabel(0), dateLabel(3), k);
  }

  /** The current session reads back as 30 minutes and 300 kcal. */
  lemma CurrentSessionNumbers(kind: string, today: string)
    ensures FromWorkout(CurrentSession(kind, today)) == PreviousWorkout(Some(0), today, 30, 300)
  {
    FromWorkoutRoundTrip(CurrentSession(kind, today), 30, 300);
  }

  /** The looks the mock workout list gives each kind agree with the two lookups. */
  lemma MockLooksAgree()
    ensures forall k :: 0 <= k < |WorkoutList.MockTypes| ==>
      var (title, image, color) := WorkoutList.MockTypes[k];
      WorkoutImage(title) == image && WorkoutColor(title) == color
  {
    assert Lower("Running") == "running";
    assert Lower("Strength Training") == "strength training";
    assert Lower("Swimming") == "swimming";
    assert Lower("Cycling") == "cycling";
    assert Lower("Walking") == "walking";
    assert Lower("Basketball") == "basketball";
    assert Lower("Yoga") == "yoga";
  }

  // ---------------------------------------------------------------------------
  // The view model
  // ---------------------------------------------------------------------------

  /** `text` ends with `suffix`. */
  predicate EndsWith(text: string, suffix: string) {
    |suffix| <= |text| && text[|text| - |suffix|..] == suffix
  }

  /** `String(format: "%02d", n)` for 0 to 59. */
  function TwoDigits(n: nat): string {
    if n < 10 then "0" + NatToString(n) else NatToString(n)
  }

  /**
   * The mock distance and pace by lower-cased workout type, starting from the shown values
   * `d0` and `p0`. Running needs a numeric duration; other types may keep the old values.
   */
  predicate MockDistancePace(workout: Workout, d0: string, p0: string, distance: string, pace: string) {
    var t := Lower(workout.title);
    && (t == "running" && ParseSignedDigits(FirstComponent(workout.duration)).None? ==> distance == d0 && pace == p0)
    && (t == "running" && ParseSignedDigits(FirstComponent(workout.duration)).Some? ==> EndsWith(distance, " km") && EndsWith(pace, " min/km"))
    && (t == "swimming" ==> (exists m :: 500 <= m <= 2000 && distance == IntToString(m) + " m") && EndsWith(pace, " /100m"))
    && (t == "cycling" ==> EndsWith(distance, " km") && EndsWith(pace, " km/h"))
    && (t != "running" && t != "swimming" && t != "cycling" ==>
         (distance == d0 && pace == p0) || (EndsWith(distance, " km") && pace == "N/A"))
  }

  /**
   * The distance and pace part of `generateMockWorkoutStats`. The floating-point amounts are
   * printed by `String(format:)`, which is not modelled: only the unit each text ends with is.
   */
  method MockDistanceAndPace(workout: Workout, d0: string, p0: string) returns (distance: string, pace: string)
    ensures MockDistancePace(workout, d0, p0, distance, pace)
  {
    distance, pace := d0, p0;
    var t := Lower(workout.title);
    if t == "running" {
      if ParseSignedDigits(FirstComponent(workout.duration)).Some? {
        var kilometres: string :| true;
        var minutesPerKm: string :| true;
        distance := kilometres + " km";
        pace := minutesPerKm + " min/km";
      }
    } else if t == "swimming" {
      var metres :| 500 <= metres <= 2000;
      var minutes :| 2 <= minutes <= 4;
      var seconds :| 0 <= seconds <= 59;
      distance := IntToString(metres) + " m";
      pace := IntToString(minutes) + ":" + TwoDigits(seconds) + " /100m";
    } else if t == "cycling" {
      var kilometres: string :| true;
      var speed: string :| true;
      distance := kilometres + " km";
      pace := speed + " km/h";
    } else {
      var coin: bool :| true;
      if coin {
        var kilometres: string :| true;
        distance := kilometres + " km";
        pace := "N/A";
      }
    }
  }

  /**
   * The heart-rate part of `generateMockWorkoutStats`: the truncated average and the maximum
   * of the readings as "<n> BPM"; `avg0` and `max0` stay when there are no readings.
   */
  method HeartRateStats(hr: seq<int>, avg0: string, max0: string) returns (average: string, maximum: string)
    ensures hr == [] ==> average == avg0 && maximum == max0
    ensures hr != [] ==> average == BpmText(Quot(Sum(hr), |hr|)) && maximum == BpmText(Max(hr))
    ensures hr != [] ==> Min(hr) <= LeadingNumber(average) <= LeadingNumber(maximum) == Max(hr)
  {
    average, maximum := avg0, max0;
    if hr != [] {
      var sum := Sum(hr);
      var avg := Quot(sum, |hr|);
      average := BpmText(avg);
      maximum := BpmText(Max(hr));
      HeartRateStatsOrdered(hr);
    }
  }

  /** The five unsorted sessions of `fetchPreviousWorkouts`. */
  method MockHistoryOf(kind: string, dateLabel: int -> string) returns (history: seq<PreviousWorkout>)
    ensures MockHistory(history, kind, dateLabel)
  {
    var first := CurrentEntry(kind, dateLabel(0));
    history := [first];
    for i := 1 to 5
      invariant |history| == i && history[0] == PreviousWorkout(Some(0), dateLabel(0), 30, 300)
      invariant forall j :: 1 <= j < i ==> EarlierSession(history[j], j, dateLabel)
    {
      var p := EarlierEntry(i, kind, dateLabel(3 * i));
      history := history + [p];
    }
  }

  /** The record of the faked current session. */
  method CurrentEntry(kind: string, today: string) returns (p: PreviousWorkout)
    ensures p == PreviousWorkout(Some(0), today, 30, 300)
  {
    p := FromWorkout(CurrentSession(kind, today));
    CurrentSessionNumbers(kind, today);
  }

  /** The record of the i-th earlier session, with a random duration and calorie count. */
  method EarlierEntry(i: int, kind: string, date: string) returns (p: PreviousWorkout)
    ensures p.id == Some(100 + i) && p.date == date
    ensures 20 <= p.durationInMinutes <= 60 && 150 <= p.caloriesBurned <= 500
  {
    var minutes :| 20 <= minutes <= 60;
    var kcal :| 150 <= kcal <= 500;
    var mock := Workout(Some(100 + i), kind, "figure.run", Green, MinutesText(minutes), date, KcalText(kcal));
    FromWorkoutRoundTrip(mock, minutes, kcal);
    p := FromWorkout(mock);
  }

  /** `sort { $0.date > $1.date }`: some reordering with the date texts descending. */
  method SortByDateDescending(history: seq<PreviousWorkout>) returns (sorted: seq<PreviousWorkout>)
    ensures DateSorted(sorted) && multiset(sorted) == multiset(history) && |sorted| == |history|
  {
    assert DateSorted(SortByDate(history)) && multiset(SortByDate(history)) == multiset(history);
    sorted :| DateSorted(sorted) && multiset(sorted) == multiset(history);
    assert |sorted| == |multiset(sorted)| == |multiset(history)| == |history|;
  }

  class WorkoutAIInsightViewModel {
    var heartRateData: seq<int>
    var previousWorkouts: seq<PreviousWorkout>
    var insights: seq<WorkoutInsight>
    var isImproved: bool
    var improvementText: Option<string>
    var averageHeartRate: string
    var maxHeartRate: string
    var distance: string
    var pace: string

    constructor ()
      ensures heartRateData == [] && previousWorkouts == [] && insights == []
      ensures !isImproved && improvementText == None
      ensures averageHeartRate == "N/A" && maxHeartRate == "N/A" && distance == "N/A" && pace == "N/A"
    {
      heartRateData, previousWorkouts, insights := [], [], [];
      isImproved, improvementText := false, None;
      averageHeartRate, maxHeartRate, distance, pace := "N/A", "N/A", "N/A", "N/A";
    }

    /**
     * `loadWorkoutDetails`: mock heart rates, their statistics, and the mock history of the
     * workout's type. `dateLabel(d)` is the formatted date `d` days ago.
     */
    method LoadWorkoutDetails(workout: Workout, dateLabel: int -> string)
      modifies this
      ensures |heartRateData| == 30 && (forall i :: 0 <= i < 30 ==> 120 <= heartRateData[i] <= 160)
      ensures averageHeartRate == BpmText(Quot(Sum(heartRateData), 30)) && maxHeartRate == BpmText(Max(heartRateData))
      ensures |previousWorkouts| == 5 && DateSorted(previousWorkouts)
      ensures exists u :: MockHistory(u, workout.title, dateLabel) && multiset(u) == multiset(previousWorkouts)
      ensures improvementText == Some(ImprovementText(ImprovementOf(previousWorkouts[0], previousWorkouts[1])))
      ensures isImproved == Progressed(previousWorkouts[0], previousWorkouts[1])
      ensures MockDistancePace(workout, old(distance), old(pace), distance, pace)
      ensures insights == old(insights)
    {
      GenerateMockHeartRateData();
      GenerateMockWorkoutStats(workout);
      FetchPreviousWorkouts(workout.title, dateLabel);
    }

    /** `generateMockHeartRateData`: thirty readings, each 120 plus a random 0 to 40. */
    method GenerateMockHeartRateData()
      modifies this
      ensures |heartRateData| == 30 && (forall i :: 0 <= i < 30 ==> 120 <= heartRateData[i] <= 160)
      ensures previousWorkouts == old(previousWorkouts) && insights == old(insights)
      ensures isImproved == old(isImproved) && improvementText == old(improvementText)
      ensures averageHeartRate == old(averageHeartRate) && maxHeartRate == old(maxHeartRate)
      ensures distance == old(distance) && pace == old(pace)
    {
      heartRateData := [];
      for i := 0 to 30
        invariant |heartRateData| == i && (forall j :: 0 <= j < i ==> 120 <= heartRateData[j] <= 160)
        invariant previousWorkouts == old(previousWorkouts) && insights == old(insights)
        invariant isImproved == old(isImproved) && improvementText == old(improvementText)
        invariant averageHeartRate == old(averageHeartRate) && maxHeartRate == old(maxHeartRate)
        invariant distance == old(distance) && pace == old(pace)
      {
        var variation :| 0 <= variation <= 40;
        heartRateData := heartRateData + [120 + variation];
      }
    }

    /**
     * `generateMockWorkoutStats`: the average (truncated) and the maximum of the readings, left
     * as they were when there are none; then a mock distance and pace by workout type.
     */
    method GenerateMockWorkoutStats(workout: Workout)
      modifies this
      ensures heartRateData == [] ==> averageHeartRate == old(averageHeartRate) && maxHeartRate == old(maxHeartRate)
      ensures heartRateData != [] ==>
        averageHeartRate == BpmText(Quot(Sum(heartRateData), |heartRateData|)) && maxHeartRate == BpmText(Max(heartRateData))
      ensures MockDistancePace(workout, old(distance), old(pace), distance, pace)
      ensures heartRateData == old(heartRateData) && previousWorkouts == old(previousWorkouts) && insights == old(insights)
      ensures isImproved == old(isImproved) && improvementText == old(improvementText)
    {
      averageHeartRate, maxHeartRate := HeartRateStats(heartRateData, averageHeartRate, maxHeartRate);
      distance, pace := MockDistanceAndPace(workout, distance, pace);
    }

    /**
     * `fetchPreviousWorkouts(of:)`: the current session and four earlier ones, sorted by date
     * text, descending; then the improvement message for the first two.
     */
    method FetchPreviousWorkouts(kind: string, dateLabel: int -> string)
      modifies this
      ensures |previousWorkouts| == 5 && DateSorted(previousWorkouts)
      ensures exists u :: MockHistory(u, kind, dateLabel) && multiset(u) == multiset(previousWorkouts)
      ensures improvementText == Some(ImprovementText(ImprovementOf(previousWorkouts[0], previousWorkouts[1])))
      ensures isImproved == Progressed(previousWorkouts[0], previousWorkouts[1])
      ensures heartRateData == old(heartRateData) && insights == old(insights)
      ensures averageHeartRate == old(averageHeartRate) && maxHeartRate == old(maxHeartRate)
      ensures distance == old(distance) && pace == old(pace)
    {
      var history := MockHistoryOf(kind, dateLabel);
      var sorted := SortByDateDescending(history);
      previousWorkouts := sorted;
      GenerateImprovementText();
    }

    /**
     * `generateImprovementText`: with fewer than two sessions the message is cleared and
     * `isImproved` is left alone; otherwise both describe the first session against the second.
     */
    method GenerateImprovementText()
      modifies this
      ensures |previousWorkouts| < 2 ==> improvementText == None && isImproved == old(isImproved)
      ensures |previousWorkouts| >= 2 ==>
        && improvementText == Some(ImprovementText(ImprovementOf(previousWorkouts[0], previousWorkouts[1])))
        && isImproved == Progressed(previousWorkouts[0], previousWorkouts[1])
      ensures heartRateData == old(heartRateData) && previousWorkouts == old(previousWorkouts) && insights == old(insights)
      ensures averageHeartRate == old(averageHeartRate) && maxHeartRate == old(maxHeartRate)
      ensures distance == old(distance) && pace == old(pace)
    {
      if |previousWorkouts| < 2 {
        improvementText := None;
        return;
      }
      var current, previous := previousWorkouts[0], previousWorkouts[1];
      isImproved := Progressed(current, previous);
      improvementText := Some(ImprovementText(ImprovementOf(current, previous)));
    }

    /**
     * `generateInsights(for:)`: clears the cards, adds the three cards of the workout's type,
     * then the comparison card when there is a history.
     */
    method GenerateInsights(workout: Workout)
      modifies this
      ensures insights == TypeInsights(workout, pace, maxHeartRate)
        + (if previousWorkouts != [] then ComparisonInsights(previousWorkouts, isImproved, improvementText) else [])
      ensures heartRateData == old(heartRateData) && previousWorkouts == old(previousWorkouts)
      ensures isImproved == old(isImproved) && improvementText == old(improvementText)
      ensures averageHeartRate == old(averageHeartRate) && maxHeartRate == old(maxHeartRate)
      ensures distance == old(distance) && pace == old(pace)
    {
      insights := [];
      insights := insights + TypeInsights(workout, pace, maxHeartRate);
      if previousWorkouts != [] {
        GenerateComparisonInsights();
      }
    }

    /** `generateComparisonInsights`: appends the comparison card, if any. */
    method GenerateComparisonInsights()
      modifies this
      ensures insights == old(insights) + ComparisonInsights(previousWorkouts, isImproved, improvementText)
      ensures heartRateData == old(heartRateData) && previousWorkouts == old(previousWorkouts)
      ensures isImproved == old(isImproved) && improvementText == old(improvementText)
      ensures averageHeartRate == old(averageHeartRate) && maxHeartRate == old(maxHeartRate)
      ensures distance == old(distance) && pace == old(pace)
    {
      insights := insights + ComparisonInsights(previousWorkouts, isImproved, improvementText);
    }
  }
}

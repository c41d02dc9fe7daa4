/**
 * The step-chart detail screen's view model: it fills a series for the chosen time range,
 * summarises it (total, average, highest, lowest), compares its two halves for a trend, and
 * produces the range's insight cards.
 *
 * Dates are whole numbers relative to today in the series' own unit: day offsets for the daily
 * ranges, month offsets for the one-year range, and whatever the calendar builds for the
 * year-to-date range (a parameter).
 */
module ChartDetail {
  import opened Wrappers
  import opened Text
  import opened Numbers
  import opened Palette
  import opened Seqs

  /** The chart's time range (`ChartOptions`). */
  datatype ChartOption = OneWeek | OneMonth | ThreeMonth | YearToDate | OneYear

  datatype DisplayType = Bar | Line

  /** One bar of the chart. */
  datatype Point = Point(date: int, value: int)

  datatype InsightType = TrendInsight | PatternInsight | AchievementInsight | RecommendationInsight

  /** `ChartInsight`; its UUID is not modelled. */
  datatype ChartInsight = ChartInsight(
    title: string, description: string, recommendation: Option<string>,
    icon: string, color: Color, kind: InsightType)

  /** The four statistics strings. */
  datatype Summary = Summary(average: string, total: string, highest: string, lowest: string)

  /** The trend description with its icon and colour. */
  datatype Trend = Trend(description: string, icon: string, color: Color)

  /** Every published field of the view model at once. */
  datatype ViewState = ViewState(
    chartData: seq<Point>, summary: Summary, trend: Trend,
    patternDescription: string, goalProgressDescription: string,
    insights: seq<ChartInsight>, isLoadingInsights: bool,
    chartDisplayType: DisplayType, chartType: ChartOption)

  /** The values of a series, in order. */
  function Values(points: seq<Point>): (r: seq<int>)
    ensures |r| == |points| && forall i :: 0 <= i < |points| ==> r[i] == points[i].value
  {
    seq(|points|, i requires 0 <= i < |points| => points[i].value)
  }

  /** The dates of a series, in order. */
  function Dates(points: seq<Point>): (r: seq<int>)
    ensures |r| == |points| && forall i :: 0 <= i < |points| ==> r[i] == points[i].date
  {
    seq(|points|, i requires 0 <= i < |points| => points[i].date)
  }

  // ---------------------------------------------------------------------------
  // Series shapes
  // ---------------------------------------------------------------------------

  /** Dates strictly increase along the series (the generated dates are all distinct). */
  predicate DateAscending(points: seq<Point>) {
    forall i, j :: 0 <= i < j < |points| ==> points[i].date < points[j].date
  }

  /**
   * `count` points, one per unit back from today, oldest first: point `i` is `count - 1 - i`
   * units ago, and every value lies in `lo..hi`.
   */
  predicate RecentSeries(points: seq<Point>, count: nat, lo: int, hi: int) {
    && |points| == count
    && (forall i :: 0 <= i < count ==> points[i].date == i - (count - 1))
    && (forall i :: 0 <= i < count ==> lo <= points[i].value <= hi)
  }

  /** The dates of the months `1..n` that the calendar could build, in month order. */
  function MonthDates(n: nat, monthDate: int -> Option<int>): (r: seq<int>)
    ensures |r| <= n
  {
    if n == 0 then []
    else MonthDates(n - 1, monthDate) + (match monthDate(n) case Some(d) => [d] case None => [])
  }

  /** When every month can be built there is exactly one point per month so far. */
  lemma {:induction false} MonthDatesComplete(n: nat, monthDate: int -> Option<int>)
    requires forall m :: 1 <= m <= n ==> monthDate(m).Some?
    ensures |MonthDates(n, monthDate)| == n
  {
    if n > 0 {
      MonthDatesComplete(n - 1, monthDate);
    }
  }

  /** The year-to-date series: one point per buildable month, monthly values in 150000..300000. */
  predicate YearToDateSeries(points: seq<Point>, currentMonth: nat, monthDate: int -> Option<int>) {
    && Dates(points) == MonthDates(currentMonth, monthDate)
    && (forall i :: 0 <= i < |points| ==> 150000 <= points[i].value <= 300000)
  }

  /** What `loadData` leaves in `chartData` for each range. */
  predicate SeriesShape(option: ChartOption, points: seq<Point>, currentMonth: nat, monthDate: int -> Option<int>) {
    match option
    case OneWeek => RecentSeries(points, 7, 5000, 15000)
    case OneMonth => RecentSeries(points, 30, 5000, 15000)
    case ThreeMonth => RecentSeries(points, 90, 5000, 15000)
    case YearToDate => YearToDateSeries(points, currentMonth, monthDate)
    case OneYear => RecentSeries(points, 12, 150000, 300000)
  }

  /** Every series the screen generates is positive, so each half has a positive average. */
  lemma ShapePositive(option: ChartOption, points: seq<Point>, currentMonth: nat, monthDate: int -> Option<int>)
    requires SeriesShape(option, points, currentMonth, monthDate)
    ensures forall i :: 0 <= i < |points| ==> points[i].value > 0
  {
  }

  /** Distinct ascending dates grow by at least one per step. */
  lemma {:induction false} AscendingGaps(t: seq<Point>, i: nat, j: nat)
    requires DateAscending(t) && i <= j < |t|
    ensures t[j].date - t[i].date >= j - i
    decreases j - i
  {
    if i < j {
      AscendingGaps(t, i, j - 1);
    }
  }

  /**
   * Sorting the freshly generated series, whose point `k` is `k` units ago, puts it oldest
   * first with one point per unit: the sorted series is a `RecentSeries`.
   */
  lemma SortedRecent(gen: seq<Point>, t: seq<Point>, count: nat, lo: int, hi: int)
    requires |gen| == count
    requires forall k :: 0 <= k < count ==> gen[k].date == -k && lo <= gen[k].value <= hi
    requires DateAscending(t) && multiset(t) == multiset(gen)
    ensures RecentSeries(t, count, lo, hi)
  {
    PermutationMembers(gen, t);
    forall j | 0 <= j < count
      ensures -(count - 1) <= t[j].date <= 0 && lo <= t[j].value <= hi
    {
      var k :| 0 <= k < |gen| && gen[k] == t[j];
    }
    forall j | 0 <= j < count
      ensures t[j].date == j - (count - 1)
    {
      AscendingGaps(t, 0, j);
      AscendingGaps(t, j, count - 1);
    }
  }

  /** Generation runs from today backwards, so reversing it gives a sorted order. */
  lemma BackwardsReversed(gen: seq<Point>, count: nat)
    requires |gen| == count
    requires forall k :: 0 <= k < count ==> gen[k].date == -k
    ensures DateAscending(Reverse(gen)) && multiset(Reverse(gen)) == multiset(gen)
  {
    ReversePermutation(gen);
  }

  // ---------------------------------------------------------------------------
  // Statistics
  // ---------------------------------------------------------------------------

  /**
   * The number a statistics string stands for, as the insights read it back: grouping commas
   * removed, then parsed, with 0 when that fails.
   */
  function ReadBack(s: string): int {
    match ParseSignedDigits(RemoveChar(s, ','))
    case Some(v) => v
    case None => 0
  }

  /**
   * `calculateStatistics`: all four strings are "0" for an empty series; otherwise they show,
   * with grouping commas, the truncated average, the sum, the maximum and the minimum.
   */
  function SummaryOf(values: seq<int>): (r: Summary)
    ensures values == [] ==> r == Summary("0", "0", "0", "0")
    ensures values != [] ==>
      && ReadBack(r.average) == Quot(Sum(values), |values|)
      && ReadBack(r.total) == Sum(values)
      && ReadBack(r.highest) == Max(values)
      && ReadBack(r.lowest) == Min(values)
  {
    if values == [] then Summary("0", "0", "0", "0")
    else
      var sum := Sum(values);
      var avg := Quot(sum, |values|);
      FormatDecimalRoundTrip(avg);
      FormatDecimalRoundTrip(sum);
      FormatDecimalRoundTrip(Max(values));
      FormatDecimalRoundTrip(Min(values));
      Summary(FormatDecimal(avg), FormatDecimal(sum), FormatDecimal(Max(values)), FormatDecimal(Min(values)))
  }

  /** The lowest figure shown never exceeds the average, which never exceeds the highest. */
  lemma StatisticsOrdered(values: seq<int>)
    requires values != []
    ensures var r := SummaryOf(values);
      ReadBack(r.lowest) <= ReadBack(r.average) <= ReadBack(r.highest)
  {
    AverageBetweenMinAndMax(values);
  }

  // ---------------------------------------------------------------------------
  // Trend
  // ---------------------------------------------------------------------------

  const NotEnoughData := "Not enough data to determine a trend."
  const StableText := "Your activity has remained relatively stable over this period."
  const EarlierTail := "% compared to the earlier period."

  function FirstHalf(values: seq<int>): seq<int> {
    values[..|values| / 2]
  }

  function SecondHalf(values: seq<int>): seq<int> {
    values[|values| - |values| / 2..]
  }

  /** Both halves have `count / 2` points; an odd count leaves the middle point out of both. */
  lemma HalvesSkipMiddle(values: seq<int>)
    ensures |FirstHalf(values)| == |SecondHalf(values)| == |values| / 2
    ensures |values| % 2 == 0 ==> values == FirstHalf(values) + SecondHalf(values)
    ensures |values| % 2 == 1 ==> values == FirstHalf(values) + [values[|values| / 2]] + SecondHalf(values)
  {
  }

  function FirstAverage(values: seq<int>): int
    requires |values| >= 2
  {
    Quot(Sum(FirstHalf(values)), |values| / 2)
  }

  function SecondAverage(values: seq<int>): int
    requires |values| >= 2
  {
    Quot(Sum(SecondHalf(values)), |values| / 2)
  }

  /**
   * The trend computation does not trap: `Int(_)` of an infinite percentage (a zero first-half
   * average with a non-zero second half) would.
   */
  predicate TrendDefined(values: seq<int>) {
    |values| < 2 || FirstAverage(values) != 0 || SecondAverage(values) == 0
  }

  /** The whole-number percentage printed in a rise or fall description. */
  function ShownPercent(base: int, now: int): int
    requires base != 0
  {
    var p := PercentChange(base, now);
    Truncate(if p < 0.0 then -p else p)
  }

  /** A printed change is always at least 10 percent. */
  lemma ShownPercentAtLeastTen(base: int, now: int)
    requires base != 0 && Classify(base, now) != Flat
    ensures ShownPercent(base, now) >= 10
  {
  }

  function IncreasedText(percent: int): string {
    "Your activity has increased by " + IntToString(percent) + EarlierTail
  }

  function DecreasedText(percent: int): string {
    "Your activity has decreased by " + IntToString(percent) + EarlierTail
  }

  /**
   * The trend part of `generateTrendDescriptions`: fewer than two points only replace the
   * description; otherwise the halves' averages choose up/green, down/red or stable/blue.
   */
  function TrendOf(values: seq<int>, current: Trend): (r: Trend)
    requires TrendDefined(values)
    ensures |values| < 2 ==> r == current.(description := NotEnoughData)
    ensures |values| >= 2 ==>
      var change := Classify(FirstAverage(values), SecondAverage(values));
      && (r.icon == "arrow.up.right" && r.color == Green <==> change == Rise)
      && (r.icon == "arrow.down.right" && r.color == Red <==> change == Fall)
      && (r == Trend(StableText, "arrow.right", Blue) <==> change == Flat)
  {
    if |values| < 2 then current.(description := NotEnoughData)
    else
      var base, now := FirstAverage(values), SecondAverage(values);
      match Classify(base, now)
      case Rise => Trend(IncreasedText(ShownPercent(base, now)), "arrow.up.right", Green)
      case Fall => Trend(DecreasedText(ShownPercent(base, now)), "arrow.down.right", Red)
      case Flat => Trend(StableText, "arrow.right", Blue)
  }

  /**
   * On a positive series the 10% test is an integer comparison of the half averages, and a
   * rise or fall description prints a percentage of at least 10.
   */
  lemma TrendOfPositive(values: seq<int>, current: Trend)
    requires |values| >= 2 && forall i :: 0 <= i < |values| ==> values[i] > 0
    ensures TrendDefined(values)
    ensures var base, now := FirstAverage(values), SecondAverage(values);
      && base > 0
      && (TrendOf(values, current).color == Green <==> 10 * (now - base) > base)
      && (TrendOf(values, current).color == Red <==> 10 * (now - base) < -base)
      && (10 * (now - base) > base ==> TrendOf(values, current).description == IncreasedText(ShownPercent(base, now)))
      && (10 * (now - base) < -base ==> TrendOf(values, current).description == DecreasedText(ShownPercent(base, now)))
      && (-base <= 10 * (now - base) <= base ==> TrendOf(values, current).description == StableText)
      && (Classify(base, now) != Flat ==> ShownPercent(base, now) >= 10)
  {
    var first := FirstHalf(values);
    assert forall i :: 0 <= i < |first| ==> first[i] == values[i];
    AverageBetweenMinAndMax(first);
    var base, now := FirstAverage(values), SecondAverage(values);
    ClassifyPositiveBase(base, now);
    if Classify(base, now) != Flat {
      ShownPercentAtLeastTen(base, now);
    }
  }

  /** Any series the screen generates gets a trend without trapping. */
  lemma ShapeTrendDefined(option: ChartOption, points: seq<Point>, currentMonth: nat, monthDate: int -> Option<int>)
    requires SeriesShape(option, points, currentMonth, monthDate)
    ensures TrendDefined(Values(points))
  {
    ShapePositive(option, points, currentMonth, monthDate);
    if |points| >= 2 {
      TrendOfPositive(Values(points), Trend("", "", Gray));
    }
  }

  const WeekPattern := "You tend to be more active on weekdays, with peaks on Tuesday and Thursday."
  const MonthPattern := "Your activity levels are higher during the middle of the week and lower on weekends."
  const QuarterPattern := "Your activity shows a gradual increase over the past three months, with occasional dips."
  const YearPattern := "Your activity is higher during spring and summer months, with a noticeable decrease during winter."

  /** The pattern sentence of each range; the year-to-date and one-year ranges share one. */
  function PatternOf(option: ChartOption): (r: string)
    ensures r == YearPattern <==> option == YearToDate || option == OneYear
    ensures r == WeekPattern <==> option == OneWeek
  {
    match option
    case OneWeek => WeekPattern
    case OneMonth => MonthPattern
    case ThreeMonth => QuarterPattern
    case YearToDate => YearPattern
    case OneYear => YearPattern
  }

  /** The whole percentage a goal progress sentence prints: above goal by 0..20, or at 60..99. */
  function GoalPercent(goal: real): (k: int)
    requires 0.6 <= goal <= 1.2
    ensures goal >= 1.0 ==> 0 <= k <= 20
    ensures goal < 1.0 ==> 60 <= k <= 99
  {
    if goal >= 1.0 then Truncate((goal - 1.0) * 100.0) else Truncate(goal * 100.0)
  }

  /** The goal progress sentence for a progress ratio drawn from 0.6..1.2. */
  function GoalText(goal: real): string
    requires 0.6 <= goal <= 1.2
  {
    if goal >= 1.0 then "You're on track to exceed your goal by " + IntToString(GoalPercent(goal)) + "%."
    else "You're currently at " + IntToString(GoalPercent(goal)) + "% of your target goal."
  }

  // ---------------------------------------------------------------------------
  // Insight cards
  // ---------------------------------------------------------------------------

  const WeeklyPatternCard := ChartInsight(
    "Weekly Pattern Detected",
    "Your activity levels tend to be higher on weekdays and lower on weekends.",
    Some("Try to maintain consistent activity levels throughout the week for optimal health benefits."),
    "chart.xyaxis.line", Blue, PatternInsight)
  const PeakAdvice := "Understanding your natural activity patterns can help you optimize your fitness routine."
  const GoalAdvice := "Aim for at least 10,000 steps daily for cardiovascular health and weight management."

  const MonthlyTrendAdvice := "Consistent activity over time leads to better fitness outcomes than occasional intense bursts."
  const ActivityPatternsCard := ChartInsight(
    "Activity Patterns",
    "Your activity shows a cyclical pattern with peaks every 7 days, suggesting a weekly routine.",
    Some("Consider adding variety to your routine to prevent plateaus and maintain motivation."),
    "waveform.path", Purple, PatternInsight)
  const ConsistencyCard := ChartInsight(
    "Consistency Opportunity",
    "There are 5 days this month where your activity dropped below 5,000 steps.",
    Some("Try to maintain a minimum of 7,500 steps even on rest days to support overall health."),
    "calendar.badge.exclamationmark", Orange, RecommendationInsight)

  const QuarterlyAdvice := "Long-term trends are more important than daily fluctuations for health outcomes."
  const SeasonalCard := ChartInsight(
    "Seasonal Impact",
    "Your activity levels show correlation with seasonal changes, with higher activity during warmer months.",
    Some("Plan indoor activities for colder or inclement weather to maintain consistency year-round."),
    "sun.max.fill", Orange, PatternInsight)
  const QuarterlyAchievementAdvice := "This level of consistency contributes significantly to long-term health benefits."
  const QuarterTail := "% over the past three months."
  const MaintainedTail := " steps daily for three consecutive months."

  const AnnualAdvice := "Planning for seasonal variations can help maintain consistent activity levels year-round."
  const StrategyCard := ChartInsight(
    "Long-term Strategy",
    "Based on your annual activity patterns, we've identified opportunities to improve your fitness routine.",
    Some("Consider setting monthly goals that adapt to seasonal changes and your personal schedule."),
    "brain.head.profile", Purple, RecommendationInsight)

  /** The index of the first occurrence of `x`. */
  function FirstIndexOf(values: seq<int>, x: int): (k: nat)
    requires x in values
    ensures k < |values| && values[k] == x
    ensures forall j :: 0 <= j < k ==> values[j] != x
  {
    if values[0] == x then 0 else 1 + FirstIndexOf(values[1..], x)
  }

  /** The first point holding the series maximum: every earlier point is strictly lower. */
  function PeakIndex(values: seq<int>): (k: nat)
    requires values != []
    ensures k < |values| && values[k] == Max(values)
    ensures forall j :: 0 <= j < |values| ==> values[j] <= values[k]
    ensures forall j :: 0 <= j < k ==> values[j] < values[k]
  {
    FirstIndexOf(values, Max(values))
  }

  function PeakCard(dayName: string, maxValue: int): ChartInsight {
    ChartInsight(
      "Peak Activity Day",
      "Your most active day this week was " + dayName + " with " + FormatDecimal(maxValue) + " steps.",
      Some(PeakAdvice), "star.fill", Yellow, AchievementInsight)
  }

  function GoalCard(goalProgressDescription: string): ChartInsight {
    ChartInsight("Weekly Goal Progress", goalProgressDescription, Some(GoalAdvice), "target", Green, RecommendationInsight)
  }

  /**
   * The one-week cards: the pattern card, the peak day card when there is any data, and the
   * goal card carrying the current goal progress sentence.
   */
  function WeeklyInsights(points: seq<Point>, dayName: int -> string, goalProgressDescription: string): (r: seq<ChartInsight>)
    ensures |r| == if points == [] then 2 else 3
    ensures r[0] == WeeklyPatternCard && r[|r| - 1] == GoalCard(goalProgressDescription)
    ensures points != [] ==>
      var k := PeakIndex(Values(points));
      r[1] == PeakCard(dayName(points[k].date), Max(Values(points)))
  {
    if points == [] then [WeeklyPatternCard, GoalCard(goalProgressDescription)]
    else
      var values := Values(points);
      var k := PeakIndex(values);
      [WeeklyPatternCard, PeakCard(dayName(points[k].date), values[k]), GoalCard(goalProgressDescription)]
  }

  /** The one-month cards: the trend card repeats the current trend, then two fixed cards. */
  function MonthlyInsights(trend: Trend): (r: seq<ChartInsight>)
    ensures |r| == 3 && r[1] == ActivityPatternsCard && r[2] == ConsistencyCard
    ensures r[0].description == trend.description && r[0].icon == trend.icon && r[0].color == trend.color
  {
    [ChartInsight("Monthly Activity Trend", trend.description, Some(MonthlyTrendAdvice), trend.icon, trend.color, TrendInsight),
     ActivityPatternsCard, ConsistencyCard]
  }

  /** "increased" only for a green (rising) trend; any other colour reads "decreased". */
  function Direction(color: Color): (r: string)
    ensures r == "increased" <==> color == Green
  {
    if color == Green then "increased" else "decreased"
  }

  function QuarterlyProgressCard(trendColor: Color, percent: int): ChartInsight {
    ChartInsight(
      "Quarterly Progress",
      "Your average daily activity has " + Direction(trendColor) + " by approximately " + IntToString(percent) + QuarterTail,
      Some(QuarterlyAdvice), "chart.line.uptrend.xyaxis", trendColor, TrendInsight)
  }

  function QuarterlyAchievementCard(average: string): ChartInsight {
    ChartInsight(
      "Quarterly Achievement",
      "You've maintained an average of over " + FormatDecimal(ReadBack(average)) + MaintainedTail,
      Some(QuarterlyAchievementAdvice), "medal.fill", Yellow, AchievementInsight)
  }

  /** The three-month cards, given the percentage drawn from 5..20. */
  function QuarterlyInsights(trendColor: Color, average: string, percent: int): (r: seq<ChartInsight>)
    ensures |r| == 3 && r[1] == SeasonalCard
    ensures r[0].color == trendColor && r[2] == QuarterlyAchievementCard(average)
  {
    [QuarterlyProgressCard(trendColor, percent), SeasonalCard, QuarterlyAchievementCard(average)]
  }

  /** The achievement card prints the same average the statistics show. */
  lemma QuarterlyEchoesAverage(values: seq<int>)
    requires values != []
    ensures QuarterlyAchievementCard(SummaryOf(values).average).description ==
      "You've maintained an average of over " + SummaryOf(values).average + MaintainedTail
  {
  }

  /** A stable trend is reported as a decrease on the quarterly card. */
  lemma QuarterlyStableReadsDecreased(values: seq<int>, current: Trend)
    requires |values| >= 2 && TrendDefined(values)
    requires Classify(FirstAverage(values), SecondAverage(values)) == Flat
    ensures Direction(TrendOf(values, current).color) == "decreased"
  {
  }

  function AnnualCard(springFirst: bool): ChartInsight {
    ChartInsight(
      "Annual Activity Pattern",
      "Your activity shows seasonal variation with peaks in " + (if springFirst then "spring and summer" else "summer and fall") + " months.",
      Some(AnnualAdvice), "calendar", Blue, TrendInsight)
  }

  function YearInReviewCard(total: string, miles: int): ChartInsight {
    ChartInsight(
      "Year in Review",
      "You've taken approximately " + FormatDecimal(ReadBack(total)) + " steps this year, equivalent to about " + IntToString(miles) + " miles.",
      None, "figure.walk", Green, AchievementInsight)
  }

  /** The year-to-date and one-year cards, given the coin flip and the miles drawn from 1500..3000. */
  function YearlyInsights(total: string, springFirst: bool, miles: int): (r: seq<ChartInsight>)
    ensures |r| == 3 && r[0] == AnnualCard(springFirst) && r[2] == StrategyCard
    ensures r[1] == YearInReviewCard(total, miles) && r[1].recommendation == None
  {
    [AnnualCard(springFirst), YearInReviewCard(total, miles), StrategyCard]
  }

  /** The review card prints the same total the statistics show. */
  lemma YearlyEchoesTotal(values: seq<int>, miles: int)
    requires values != []
    ensures YearInReviewCard(SummaryOf(values).total, miles).description ==
      "You've taken approximately " + SummaryOf(values).total + " steps this year, equivalent to about " + IntToString(miles) + " miles."
  {
  }

  /** The random draws the insight cards use. */
  datatype Draws = Draws(dayName: int -> string, percent: int, springFirst: bool, miles: int)

  predicate DrawsInRange(d: Draws) {
    5 <= d.percent <= 20 && 1500 <= d.miles <= 3000
  }

  /** The cards of `generateInsights` for the view's current state. */
  function InsightsFor(s: ViewState, d: Draws): (r: seq<ChartInsight>)
    ensures s.chartType == OneWeek ==> r == WeeklyInsights(s.chartData, d.dayName, s.goalProgressDescription)
    ensures s.chartType == OneMonth ==> r == MonthlyInsights(s.trend)
    ensures s.chartType == ThreeMonth ==> r == QuarterlyInsights(s.trend.color, s.summary.average, d.percent)
    ensures s.chartType in {YearToDate, OneYear} ==> r == YearlyInsights(s.summary.total, d.springFirst, d.miles)
    ensures 2 <= |r| <= 3 && (|r| == 2 <==> s.chartType == OneWeek && s.chartData == [])
  {
    match s.chartType
    case OneWeek => WeeklyInsights(s.chartData, d.dayName, s.goalProgressDescription)
    case OneMonth => MonthlyInsights(s.trend)
    case ThreeMonth => QuarterlyInsights(s.trend.color, s.summary.average, d.percent)
    case YearToDate => YearlyInsights(s.summary.total, d.springFirst, d.miles)
    case OneYear => YearlyInsights(s.summary.total, d.springFirst, d.miles)
  }

  /** Year-to-date and one-year views with the same state get the same cards. */
  lemma YearlyShared(s: ViewState, d: Draws)
    ensures InsightsFor(s.(chartType := YearToDate), d) == InsightsFor(s.(chartType := OneYear), d)
  {
  }

  // ---------------------------------------------------------------------------
  // The view model
  // ---------------------------------------------------------------------------

  class ChartDetailViewModel {
    var chartData: seq<Point>
    var average: string
    var total: string
    var highest: string
    var lowest: string
    var weeklyTrendDescription: string
    var weeklyTrendIcon: string
    var weeklyTrendColor: Color
    var patternDescription: string
    var goalProgressDescription: string
    var insights: seq<ChartInsight>
    var isLoadingInsights: bool
    var chartDisplayType: DisplayType
    var chartType: ChartOption

    function Statistics(): Summary
      reads this
    {
      Summary(average, total, highest, lowest)
    }

    function TrendState(): Trend
      reads this
    {
      Trend(weeklyTrendDescription, weeklyTrendIcon, weeklyTrendColor)
    }

    function State(): ViewState
      reads this
    {
      ViewState(chartData, Statistics(), TrendState(), patternDescription, goalProgressDescription,
                insights, isLoadingInsights, chartDisplayType, chartType)
    }

    /** The published defaults: an empty one-week bar chart with "0" statistics and a gray arrow. */
    constructor ()
      ensures State() == ViewState([], Summary("0", "0", "0", "0"), Trend("", "arrow.right", Gray),
                                   "", "", [], false, Bar, OneWeek)
    {
      chartData := [];
      average, total, highest, lowest := "0", "0", "0", "0";
      weeklyTrendDescription, weeklyTrendIcon, weeklyTrendColor := "", "arrow.right", Gray;
      patternDescription, goalProgressDescription := "", "";
      insights := [];
      isLoadingInsights := false;
      chartDisplayType := Bar;
      chartType := OneWeek;
    }

    /**
     * `loadData`: records the range, generates its series, then recomputes the statistics and
     * the trend, pattern and goal sentences. `currentMonth` and `monthDate` are the calendar's
     * answers; `goal` is the progress ratio drawn from 0.6..1.2.
     */
    method LoadData(option: ChartOption, currentMonth: int, monthDate: int -> Option<int>, goal: real)
      requires 1 <= currentMonth <= 12 && 0.6 <= goal <= 1.2
      modifies this
      ensures chartType == option && SeriesShape(option, chartData, currentMonth, monthDate)
      ensures TrendDefined(Values(chartData))
      ensures State() == old(State()).(
        chartData := chartData, chartType := option,
        summary := SummaryOf(Values(chartData)),
        trend := TrendOf(Values(chartData), old(TrendState())),
        patternDescription := PatternOf(option), goalProgressDescription := GoalText(goal))
    {
      chartType := option;
      match option {
        case OneWeek => GenerateWeeklyData();
        case OneMonth => GenerateMonthlyData();
        case ThreeMonth => GenerateThreeMonthData();
        case YearToDate => GenerateYTDData(currentMonth, monthDate);
        case OneYear => GenerateYearlyData();
      }
      assert State() == old(State()).(chartData := chartData, chartType := option);
      ShapeTrendDefined(option, chartData, currentMonth, monthDate);
      CalculateStatistics();
      GenerateTrendDescriptions(goal);
    }

    /**
     * Replaces the series by `count` random values in `lo..hi`, generated from today backwards
     * and then sorted by ascending date.
     */
    method GenerateRecentSeries(count: nat, lo: int, hi: int)
      requires lo <= hi
      modifies this
      ensures RecentSeries(chartData, count, lo, hi)
      ensures State() == old(State()).(chartData := chartData)
    {
      chartData := [];
      for k := 0 to count
        invariant |chartData| == k
        invariant forall i :: 0 <= i < k ==> chartData[i].date == -i && lo <= chartData[i].value <= hi
        invariant State() == old(State()).(chartData := chartData)
      {
        var value :| lo <= value <= hi;
        chartData := chartData + [Point(-k, value)];
      }
      BackwardsReversed(chartData, count);
      var sorted :| DateAscending(sorted) && multiset(sorted) == multiset(chartData);
      SortedRecent(chartData, sorted, count, lo, hi);
      chartData := sorted;
    }

    /** The past 7 days, oldest first, 5000..15000 steps each. */
    method GenerateWeeklyData()
      modifies this
      ensures RecentSeries(chartData, 7, 5000, 15000)
      ensures State() == old(State()).(chartData := chartData)
    {
      GenerateRecentSeries(7, 5000, 15000);
    }

    /** The past 30 days, oldest first, 5000..15000 steps each. */
    method GenerateMonthlyData()
      modifies this
      ensures RecentSeries(chartData, 30, 5000, 15000)
      ensures State() == old(State()).(chartData := chartData)
    {
      GenerateRecentSeries(30, 5000, 15000);
    }

    /** The past 90 days, oldest first, 5000..15000 steps each. */
    method GenerateThreeMonthData()
      modifies this
      ensures RecentSeries(chartData, 90, 5000, 15000)
      ensures State() == old(State()).(chartData := chartData)
    {
      GenerateRecentSeries(90, 5000, 15000);
    }

    /** The past 12 months, oldest first, 150000..300000 steps each. */
    method GenerateYearlyData()
      modifies this
      ensures RecentSeries(chartData, 12, 150000, 300000)
      ensures State() == old(State()).(chartData := chartData)
    {
      GenerateRecentSeries(12, 150000, 300000);
    }

    /**
     * One point per month of the current year up to `currentMonth`, skipping any month whose
     * mid-month date cannot be built; this series is not re-sorted.
     */
    method GenerateYTDData(currentMonth: int, monthDate: int -> Option<int>)
      requires 1 <= currentMonth
      modifies this
      ensures YearToDateSeries(chartData, currentMonth, monthDate)
      ensures |chartData| <= currentMonth
      ensures State() == old(State()).(chartData := chartData)
    {
      chartData := [];
      for month := 1 to currentMonth + 1
        invariant Dates(chartData) == MonthDates(month - 1, monthDate)
        invariant forall i :: 0 <= i < |chartData| ==> 150000 <= chartData[i].value <= 300000
        invariant State() == old(State()).(chartData := chartData)
      {
        match monthDate(month) {
          case Some(date) =>
            var value :| 150000 <= value <= 300000;
            assert Dates(chartData + [Point(date, value)]) == Dates(chartData) + [date];
            chartData := chartData + [Point(date, value)];
          case None =>
        }
      }
    }

    /** `calculateStatistics`: only the four statistics strings change. */
    method CalculateStatistics()
      modifies this
      ensures State() == old(State()).(summary := SummaryOf(Values(chartData)))
    {
      if chartData == [] {
        average, total, highest, lowest := "0", "0", "0", "0";
        return;
      }
      var values := Values(chartData);
      var sum := Sum(values);
      var avg := Quot(sum, |chartData|);
      average := FormatDecimal(avg);
      total := FormatDecimal(sum);
      highest := FormatDecimal(Max(values));
      lowest := FormatDecimal(Min(values));
    }

    /**
     * `generateTrendDescriptions`: the trend, the range's pattern sentence and the goal
     * sentence for the drawn progress ratio `goal`.
     */
    method GenerateTrendDescriptions(goal: real)
      requires TrendDefined(Values(chartData)) && 0.6 <= goal <= 1.2
      modifies this
      ensures State() == old(State()).(
        trend := TrendOf(Values(old(chartData)), old(TrendState())),
        patternDescription := PatternOf(chartType), goalProgressDescription := GoalText(goal))
    {
      UpdateTrend();
      patternDescription := PatternOf(chartType);
      goalProgressDescription := GoalText(goal);
    }

    /** The trend part of `generateTrendDescriptions`. */
    method UpdateTrend()
      requires TrendDefined(Values(chartData))
      modifies this
      ensures State() == old(State()).(trend := TrendOf(Values(old(chartData)), old(TrendState())))
    {
      var values := Values(chartData);
      if |values| >= 2 {
        var firstAvg := FirstAverage(values);
        var secondAvg := SecondAverage(values);
        match Classify(firstAvg, secondAvg) {
          case Rise =>
            weeklyTrendDescription := IncreasedText(ShownPercent(firstAvg, secondAvg));
            weeklyTrendIcon := "arrow.up.right";
            weeklyTrendColor := Green;
          case Fall =>
            weeklyTrendDescription := DecreasedText(ShownPercent(firstAvg, secondAvg));
            weeklyTrendIcon := "arrow.down.right";
            weeklyTrendColor := Red;
          case Flat =>
            weeklyTrendDescription := StableText;
            weeklyTrendIcon := "arrow.right";
            weeklyTrendColor := Blue;
        }
      } else {
        weeklyTrendDescription := NotEnoughData;
      }
    }

    /**
     * `generateInsights` with its delayed part run at once: the cards are cleared, the
     * range's cards are appended, and loading ends.
     */
    method GenerateInsights(draws: Draws)
      requires DrawsInRange(draws)
      modifies this
      ensures State() == old(State()).(insights := InsightsFor(old(State()), draws), isLoadingInsights := false)
    {
      isLoadingInsights := true;
      insights := [];
      match chartType {
        case OneWeek => AppendWeeklyInsights(draws.dayName);
        case OneMonth => AppendMonthlyInsights();
        case ThreeMonth => AppendQuarterlyInsights(draws.percent);
        case YearToDate => AppendYearlyInsights(draws.springFirst, draws.miles);
        case OneYear => AppendYearlyInsights(draws.springFirst, draws.miles);
      }
      isLoadingInsights := false;
    }

    method AppendWeeklyInsights(dayName: int -> string)
      modifies this
      ensures State() == old(State()).(insights := old(insights) + WeeklyInsights(chartData, dayName, goalProgressDescription))
    {
      insights := insights + [WeeklyPatternCard];
      if chartData != [] {
        var values := Values(chartData);
        var maxValue := Max(values);
        var maxDay := chartData[FirstIndexOf(values, maxValue)].date;
        insights := insights + [PeakCard(dayName(maxDay), maxValue)];
      }
      insights := insights + [GoalCard(goalProgressDescription)];
    }

    method AppendMonthlyInsights()
      modifies this
      ensures State() == old(State()).(insights := old(insights) + MonthlyInsights(TrendState()))
    {
      insights := insights + [ChartInsight("Monthly Activity Trend", weeklyTrendDescription, Some(MonthlyTrendAdvice),
                                           weeklyTrendIcon, weeklyTrendColor, TrendInsight)];
      insights := insights + [ActivityPatternsCard];
      insights := insights + [ConsistencyCard];
    }

    method AppendQuarterlyInsights(percent: int)
      requires 5 <= percent <= 20
      modifies this
      ensures State() == old(State()).(insights := old(insights) + QuarterlyInsights(weeklyTrendColor, average, percent))
    {
      insights := insights + [QuarterlyProgressCard(weeklyTrendColor, percent)];
      insights := insights + [SeasonalCard];
      insights := insights + [QuarterlyAchievementCard(average)];
    }

    method AppendYearlyInsights(springFirst: bool, miles: int)
      requires 1500 <= miles <= 3000
      modifies this
      ensures State() == old(State()).(insights := old(insights) + YearlyInsights(total, springFirst, miles))
    {
      insights := insights + [AnnualCard(springFirst)];
      insights := insights + [YearInReviewCard(total, miles)];
      insights := insights + [StrategyCard];
    }
  }
}

/**
 * The charts screen's view model: mock daily series for the one- and three-month charts, and
 * the totals and averages of the year-to-date and one-year charts, filled in from the
 * health manager's monthly step totals.
 */
module Charts {
  import opened Wrappers
  import opened Numbers
  import opened Seqs
  import opened StepModels
  import HealthManager

  /** Entry `k` of a mock series is `k` days back and counts 5000 to 15000 steps. */
  predicate MockDays(s: seq<DailyStep>, days: int) {
    |s| == days && forall k :: 0 <= k < |s| ==> s[k].date == -k && 5000 <= s[k].count <= 15000
  }

  /** A mock series of `days` entries totals between 5000 and 15000 steps per day. */
  lemma MockTotalBounds(s: seq<DailyStep>, days: int)
    requires MockDays(s, days)
    ensures 5000 * days <= Sum(DayCounts(s)) <= 15000 * days
  {
    SumBounds(DayCounts(s), 5000, 15000);
  }

  /** The fixed year-to-date sample series (two entries share the offset -6, as written). */
  const MockYTDChartData: seq<MonthlyStep> := [
    MonthlyStep(0, 12344), MonthlyStep(-1, 9876), MonthlyStep(-2, 8776), MonthlyStep(-3, 9876),
    MonthlyStep(-4, 9877), MonthlyStep(-5, 9877), MonthlyStep(-6, 8776), MonthlyStep(-6, 9876)
  ]

  /** The fixed one-week sample series. */
  const MockWeekChartData: seq<DailyStep> := [
    DailyStep(0, 12344), DailyStep(-1, 98776), DailyStep(-2, 98776), DailyStep(-3, 98776)
  ]

  /** Every published and private field at once. */
  datatype ChartsState = ChartsState(
    mockYTDChartData: seq<MonthlyStep>, mockWeekChartData: seq<DailyStep>,
    mockOneMonthData: seq<DailyStep>, mockThreeMonthData: seq<DailyStep>,
    ytdChartData: seq<MonthlyStep>, oneYearChartData: seq<MonthlyStep>,
    oneWeekAverage: int, oneWeekTotal: int, oneMonthAverage: int, oneMonthTotal: int,
    threeMonthAverage: int, threeMonthTotal: int,
    ytdAverage: int, ytdTotal: int, oneYearAverage: int, oneYearTotal: int)

  /**
   * The state after one completion of the year chart query: a failure changes nothing; a
   * success takes both lists, their totals, the year-to-date total per elapsed month and the
   * one-year total per month (both divisions truncating).
   */
  function Received(s: ChartsState, result: Fetch<HealthManager.YearChartData>, currentMonth: int): (r: ChartsState)
    requires 1 <= currentMonth <= 12
    ensures result.Failure? ==> r == s
    ensures result.Success? ==>
      && r.ytdChartData == result.value.ytd && r.oneYearChartData == result.value.oneYear
      && r.ytdTotal == Sum(MonthCounts(result.value.ytd)) && r.oneYearTotal == Sum(MonthCounts(result.value.oneYear))
      && r.ytdAverage == Quot(r.ytdTotal, currentMonth) && r.oneYearAverage == Quot(r.oneYearTotal, 12)
      && r.(ytdChartData := s.ytdChartData, oneYearChartData := s.oneYearChartData,
            ytdTotal := s.ytdTotal, oneYearTotal := s.oneYearTotal,
            ytdAverage := s.ytdAverage, oneYearAverage := s.oneYearAverage) == s
  {
    match result
    case Failure => s
    case Success(data) =>
      var ytdTotal := Sum(MonthCounts(data.ytd));
      var oneYearTotal := Sum(MonthCounts(data.oneYear));
      s.(ytdChartData := data.ytd, oneYearChartData := data.oneYear,
         ytdTotal := ytdTotal, oneYearTotal := oneYearTotal,
         ytdAverage := Quot(ytdTotal, currentMonth), oneYearAverage := Quot(oneYearTotal, 12))
  }

  /**
   * When all twelve monthly queries succeed, the year-to-date list holds exactly the months of
   * this year, so its average per elapsed month lies between its smallest and largest month;
   * likewise the one-year average over twelve months.
   */
  lemma YearAveragesInRange(ms: seq<Option<real>>, currentMonth: int)
    requires |ms| == 12 && forall i :: 0 <= i < 12 ==> ms[i].Some?
    requires 1 <= currentMonth <= 12
    ensures var ytd := MonthCounts(HealthManager.YtdMonths(ms, currentMonth));
      |ytd| == currentMonth && Min(ytd) <= Quot(Sum(ytd), currentMonth) <= Max(ytd)
    ensures var year := MonthCounts(HealthManager.OneYearMonths(ms));
      |year| == 12 && Min(year) <= Quot(Sum(year), 12) <= Max(year)
  {
    HealthManager.YtdIsPrefix(ms, currentMonth);
    HealthManager.OneYearComplete(ms);
    AverageBetweenMinAndMax(MonthCounts(HealthManager.YtdMonths(ms, currentMonth)));
    AverageBetweenMinAndMax(MonthCounts(HealthManager.OneYearMonths(ms)));
  }

  class ChartsViewModel {
    var mockYTDChartData: seq<MonthlyStep>
    var mockWeekChartData: seq<DailyStep>
    var mockOneMonthData: seq<DailyStep>
    var mockThreeMonthData: seq<DailyStep>
    var ytdChartData: seq<MonthlyStep>
    var oneYearChartData: seq<MonthlyStep>
    var oneWeekAverage: int
    var oneWeekTotal: int
    var oneMonthAverage: int
    var oneMonthTotal: int
    var threeMonthAverage: int
    var threeMonthTotal: int
    var ytdAverage: int
    var ytdTotal: int
    var oneYearAverage: int
    var oneYearTotal: int

    function State(): ChartsState
      reads this
    {
      ChartsState(mockYTDChartData, mockWeekChartData, mockOneMonthData, mockThreeMonthData,
                  ytdChartData, oneYearChartData, oneWeekAverage, oneWeekTotal, oneMonthAverage, oneMonthTotal,
                  threeMonthAverage, threeMonthTotal, ytdAverage, ytdTotal, oneYearAverage, oneYearTotal)
    }

    /**
     * `init`: the one- and three-month mock series, then the year chart query, whose month
     * results (`monthSteps[i]` for month `-i`) arrive in the order issued. The week, month and
     * three-month totals and averages are never assigned and stay 0.
     */
    constructor (monthSteps: seq<Option<real>>, currentMonth: int)
      requires |monthSteps| == 12 && 1 <= currentMonth <= 12
      ensures MockDays(mockOneMonthData, 30) && MockDays(mockThreeMonthData, 90)
      ensures mockYTDChartData == MockYTDChartData && mockWeekChartData == MockWeekChartData
      ensures oneWeekAverage == oneWeekTotal == oneMonthAverage == oneMonthTotal == 0
      ensures threeMonthAverage == threeMonthTotal == 0
      ensures monthSteps[11].None? ==>
        ytdChartData == oneYearChartData == [] && ytdTotal == oneYearTotal == 0 && ytdAverage == oneYearAverage == 0
      ensures monthSteps[11].Some? ==>
        && ytdChartData == HealthManager.YtdMonths(monthSteps, currentMonth)
        && oneYearChartData == HealthManager.OneYearMonths(monthSteps)
        && ytdTotal == Sum(MonthCounts(ytdChartData)) && ytdAverage == Quot(ytdTotal, currentMonth)
        && oneYearTotal == Sum(MonthCounts(oneYearChartData)) && oneYearAverage == Quot(oneYearTotal, 12)
    {
      mockYTDChartData, mockWeekChartData := MockYTDChartData, MockWeekChartData;
      mockOneMonthData, mockThreeMonthData := [], [];
      ytdChartData, oneYearChartData := [], [];
      oneWeekAverage, oneWeekTotal, oneMonthAverage, oneMonthTotal := 0, 0, 0, 0;
      threeMonthAverage, threeMonthTotal := 0, 0;
      ytdAverage, ytdTotal, oneYearAverage, oneYearTotal := 0, 0, 0, 0;
      new;
      var mockOneMonth := MockDataForDays(30);
      var mockThreeMonths := MockDataForDays(90);
      mockOneMonthData := mockOneMonth;
      mockThreeMonthData := mockThreeMonths;
      FetchYTDAndOneYearChartData(monthSteps, currentMonth);
    }

    /** `mockDataForDays`: entry `k` is `k` days back with a step count drawn from 5000..15000. */
    method MockDataForDays(days: int) returns (mockData: seq<DailyStep>)
      requires days >= 0
      ensures MockDays(mockData, days)
    {
      mockData := [];
      for day := 0 to days
        invariant MockDays(mockData, day)
      {
        var currentDate := -day;
        var randomStepCount :| 5000 <= randomStepCount <= 15000;
        mockData := mockData + [DailyStep(currentDate, randomStepCount)];
      }
    }

    /** The completion handler of the year chart query. */
    method Receive(result: Fetch<HealthManager.YearChartData>, currentMonth: int)
      requires 1 <= currentMonth <= 12
      modifies this
      ensures State() == Received(old(State()), result, currentMonth)
    {
      match result {
        case Success(data) =>
          ytdChartData := data.ytd;
          oneYearChartData := data.oneYear;
          ytdTotal := Sum(MonthCounts(ytdChartData));
          oneYearTotal := Sum(MonthCounts(oneYearChartData));
          ytdAverage := Quot(ytdTotal, currentMonth);
          oneYearAverage := Quot(oneYearTotal, 12);
        case Failure =>
      }
    }

    /**
     * `fetchYTDAndOneYearChartData`: the health manager's completions handled in turn. Only the
     * last one can be a success, so the fields end as that success leaves them, or unchanged.
     */
    method FetchYTDAndOneYearChartData(monthSteps: seq<Option<real>>, currentMonth: int)
      requires |monthSteps| == 12 && 1 <= currentMonth <= 12
      modifies this
      ensures monthSteps[11].None? ==> State() == old(State())
      ensures monthSteps[11].Some? ==> State() == Received(old(State()), Success(HealthManager.YearChartData(
        HealthManager.YtdMonths(monthSteps, currentMonth), HealthManager.OneYearMonths(monthSteps))), currentMonth)
    {
      var completions := HealthManager.FetchYTDAndOneYearChartData(monthSteps, currentMonth);
      ghost var reported := if monthSteps[11].Some? then 1 else 0;
      for k := 0 to |completions|
        invariant k < |completions| || reported == 0 ==> State() == old(State())
        invariant k == |completions| && reported == 1 ==>
          State() == Received(old(State()), completions[|completions| - 1], currentMonth)
      {
        Receive(completions[k], currentMonth);
      }
    }
  }
}

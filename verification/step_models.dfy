/**
 * The two point types of the charts screen. Dates are offsets from the moment the data is
 * produced: a daily point is `date` days from today, a monthly point `date` months from the
 * current month (so `0` is now and `-k` is k days or months back). Their UUIDs are not modelled.
 */
module StepModels {

  /** `DailyStepModel`. */
  datatype DailyStep = DailyStep(date: int, count: int)

  /** `MonthlyStepModel`. */
  datatype MonthlyStep = MonthlyStep(date: int, count: int)

  /** The step counts of a daily series, in order. */
  function DayCounts(s: seq<DailyStep>): (r: seq<int>)
    ensures |r| == |s| && forall i :: 0 <= i < |s| ==> r[i] == s[i].count
  {
    seq(|s|, i requires 0 <= i < |s| => s[i].count)
  }

  /** The step counts of a monthly series, in order. */
  function MonthCounts(s: seq<MonthlyStep>): (r: seq<int>)
    ensures |r| == |s| && forall i :: 0 <= i < |s| ==> r[i] == s[i].count
  {
    seq(|s|, i requires 0 <= i < |s| => s[i].count)
  }
}

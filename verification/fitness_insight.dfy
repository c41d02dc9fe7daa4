/** The insight cards of the home screen's insight list. */
module FitnessInsights {
  import opened Wrappers
  import opened Palette

  /** `FitnessInsight.InsightType`. */
  datatype InsightType = Achievement | Observation | Recommendation | TrendAnalysis

  /** `FitnessInsight`; its UUID is not modelled. */
  datatype FitnessInsight = FitnessInsight(
    title: string, description: string, recommendation: Option<string>,
    icon: string, color: Color, kind: InsightType)
}

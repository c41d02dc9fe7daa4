/** The insight list screen's filter: all cards, or only the cards of one insight type. */
module InsightsView {
  import opened FitnessInsights
  import opened Seqs

  /** `InsightFilter`. */
  datatype InsightFilter = All | Achievements | Observations | Recommendations | Trends

  /** The filter's label in the segmented control. */
  function DisplayName(f: InsightFilter): (name: string)
    ensures |name| > 0
  {
    match f
    case All => "All Insights"
    case Achievements => "Achievements"
    case Observations => "Observations"
    case Recommendations => "Recommendations"
    case Trends => "Trends"
  }

  /** No two filters share a label. */
  lemma DisplayNamesDistinct(f: InsightFilter, g: InsightFilter)
    ensures DisplayName(f) == DisplayName(g) <==> f == g
  {
  }

  /** The insight type a typed filter selects. */
  function TypeOf(f: InsightFilter): InsightType
    requires f != All
  {
    match f
    case Achievements => Achievement
    case Observations => Observation
    case Recommendations => Recommendation
    case Trends => TrendAnalysis
  }

  /** The typed filter that selects insight type `t`. */
  function FilterFor(t: InsightType): (f: InsightFilter)
    ensures f != All && TypeOf(f) == t
  {
    match t
    case Achievement => Achievements
    case Observation => Observations
    case Recommendation => Recommendations
    case TrendAnalysis => Trends
  }

  /** `filteredInsights`: every insight for `All`, otherwise the insights of the filter's type, in order. */
  function FilteredInsights(f: InsightFilter, insights: seq<FitnessInsight>): (r: seq<FitnessInsight>)
    ensures |r| <= |insights|
    ensures f == All ==> r == insights
    ensures f != All ==> forall x :: x in r ==> x.kind == TypeOf(f)
  {
    match f
    case All => insights
    case Achievements =>
      KeepMembers(insights, (i: FitnessInsight) => i.kind == Achievement);
      Keep(insights, (i: FitnessInsight) => i.kind == Achievement)
    case Observations =>
      KeepMembers(insights, (i: FitnessInsight) => i.kind == Observation);
      Keep(insights, (i: FitnessInsight) => i.kind == Observation)
    case Recommendations =>
      KeepMembers(insights, (i: FitnessInsight) => i.kind == Recommendation);
      Keep(insights, (i: FitnessInsight) => i.kind == Recommendation)
    case Trends =>
      KeepMembers(insights, (i: FitnessInsight) => i.kind == TrendAnalysis);
      Keep(insights, (i: FitnessInsight) => i.kind == TrendAnalysis)
  }

  /** Whether the typed filter `f` lets an insight through. */
  function Selects(f: InsightFilter): FitnessInsight -> bool
    requires f != All
  {
    (i: FitnessInsight) => i.kind == TypeOf(f)
  }

  /** A typed filter is the order-preserving selection of the insights of its type. */
  lemma TypedFilterIsKeep(f: InsightFilter, insights: seq<FitnessInsight>)
    requires f != All
    ensures FilteredInsights(f, insights) == Keep(insights, Selects(f))
  {
    match f
    case Achievements => KeepSame(insights, (i: FitnessInsight) => i.kind == Achievement, Selects(f));
    case Observations => KeepSame(insights, (i: FitnessInsight) => i.kind == Observation, Selects(f));
    case Recommendations => KeepSame(insights, (i: FitnessInsight) => i.kind == Recommendation, Selects(f));
    case Trends => KeepSame(insights, (i: FitnessInsight) => i.kind == TrendAnalysis, Selects(f));
  }

  /** A typed filter shows exactly the insights of its type: all of them, and nothing else. */
  lemma TypedFilterExact(f: InsightFilter, insights: seq<FitnessInsight>)
    requires f != All
    ensures forall x :: x in FilteredInsights(f, insights) <==> x in insights && x.kind == TypeOf(f)
  {
    TypedFilterIsKeep(f, insights);
    KeepMembers(insights, Selects(f));
  }

  /** Filtering never reorders: the result of filtering a concatenation is the concatenation of the results. */
  lemma FilterPreservesOrder(f: InsightFilter, a: seq<FitnessInsight>, b: seq<FitnessInsight>)
    ensures FilteredInsights(f, a + b) == FilteredInsights(f, a) + FilteredInsights(f, b)
  {
    if f != All {
      TypedFilterIsKeep(f, a + b);
      TypedFilterIsKeep(f, a);
      TypedFilterIsKeep(f, b);
      KeepAppend(a, b, Selects(f));
    }
  }

  /** Each insight is shown by exactly one typed filter. */
  lemma TypedFiltersPartition(insights: seq<FitnessInsight>, x: FitnessInsight)
    requires x in insights
    ensures x in FilteredInsights(FilterFor(x.kind), insights)
    ensures forall f :: f != All && f != FilterFor(x.kind) ==> x !in FilteredInsights(f, insights)
  {
    forall f | f != All
      ensures x in FilteredInsights(f, insights) <==> TypeOf(f) == x.kind
    {
      TypedFilterExact(f, insights);
    }
  }

  /** The four typed filters together show as many cards as the whole list holds. */
  lemma {:induction false} TypedFiltersCount(insights: seq<FitnessInsight>)
    ensures |FilteredInsights(Achievements, insights)| + |FilteredInsights(Observations, insights)|
      + |FilteredInsights(Recommendations, insights)| + |FilteredInsights(Trends, insights)| == |insights|
  {
    if insights != [] {
      var init := insights[..|insights| - 1];
      var last := insights[|insights| - 1];
      assert insights == init + [last];
      TypedFiltersCount(init);
      FilterPreservesOrder(Achievements, init, [last]);
      FilterPreservesOrder(Observations, init, [last]);
      FilterPreservesOrder(Recommendations, init, [last]);
      FilterPreservesOrder(Trends, init, [last]);
    }
  }
}

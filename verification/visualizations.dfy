/** The advanced visualizations page: dimension tabs over a list of chart
    configurations, a chart placeholder whose icon and colour are guessed
    from the chart's type and title, and the filter badges under the
    controls. */
module Visualizations {
  import opened Common
  import opened Text

  datatype Config = Config(id: string, title: string, chartType: string, dimension: string, recommended: bool)

  /** The icon kinds of the chart placeholder. */
  datatype Kind = LineKind | BarKind | PieKind

  /** The colour classes of the chart placeholder. */
  datatype Colour = SpeedColour | EffectivenessColour | QualityColour | ImpactColour | Mixed

  /** `visualizationConfigs` (descriptions left out). */
  const Configs: seq<Config> := [
    Config("speed-trend", "Speed Metrics Trend", "line-chart", "speed", true),
    Config("speed-comparison", "Team Speed Comparison", "bar-chart", "speed", false),
    Config("speed-pr-size", "PR Size Impact on Lead Time", "scatter-chart", "speed", false),
    Config("effectiveness-focus", "Focus Time Analysis", "area-chart", "effectiveness", true),
    Config("effectiveness-satisfaction", "Developer Satisfaction Trend", "line-chart", "effectiveness", false),
    Config("effectiveness-meetings", "Meeting Load Distribution", "stacked-bar-chart", "effectiveness", false),
    Config("quality-defects", "Defect Rate Trend", "line-chart", "quality", true),
    Config("quality-coverage", "Test Coverage Heatmap", "heatmap", "quality", false),
    Config("quality-debt", "Technical Debt Allocation", "treemap", "quality", false),
    Config("impact-feature", "Feature Adoption Rates", "bar-chart", "impact", true),
    Config("impact-business", "Engineering Impact on Revenue", "combo-chart", "impact", false),
    Config("impact-customer", "Customer Satisfaction Trend", "line-chart", "impact", false),
    Config("multi-radar", "Core 4 Dimensions Radar", "radar-chart", "multi", true),
    Config("multi-correlation", "Cross-Dimension Correlations", "correlation-matrix", "multi", false),
    Config("multi-team", "Team Balance Analysis", "stacked-bar-chart", "multi", false)
  ]

  /** `getFilteredVisualizations`: the recommended configurations, all of
      them, or those of one dimension together with the cross-dimension
      (`multi`) ones, always in list order. */
  function FilteredVisualizations(configs: seq<Config>, tab: string): (r: seq<Config>)
    ensures tab == "recommended" ==> forall c :: c in r <==> c in configs && c.recommended
    ensures tab == "all" ==> r == configs
    ensures tab != "recommended" && tab != "all" ==>
      forall c :: c in r <==> c in configs && (c.dimension == tab || c.dimension == "multi")
    ensures IsSubsequence(r, configs)
  {
    if tab == "recommended" then Filter(configs, (c: Config) => c.recommended)
    else if tab == "all" then
      FilterAll(configs, (c: Config) => true);
      configs
    else Filter(configs, (c: Config) => c.dimension == tab || c.dimension == "multi")
  }

  /** Every cross-dimension configuration appears under every dimension tab. */
  lemma MultiUnderEveryDimensionTab(configs: seq<Config>, c: Config, tab: string)
    requires c in configs && c.dimension == "multi"
    requires tab != "recommended"
    ensures c in FilteredVisualizations(configs, tab)
  {
  }

  /** The placeholder icon: `line` if the type mentions "line", else `bar` if
      it mentions "bar", else `pie`. */
  function ChartKind(chartType: string): (k: Kind)
    ensures k == LineKind <==> Contains(chartType, "line")
    ensures k == BarKind <==> !Contains(chartType, "line") && Contains(chartType, "bar")
    ensures k == PieKind <==> !Contains(chartType, "line") && !Contains(chartType, "bar")
  {
    if Contains(chartType, "line") then LineKind
    else if Contains(chartType, "bar") then BarKind
    else PieKind
  }

  /** The line-chart type gets the line icon. */
  lemma LineTypes(t: string)
    requires t == "line-chart"
    ensures ChartKind(t) == LineKind
  {
    assert IsPrefix("line", t);
  }

  /** The bar-chart types, stacked or not, get the bar icon. */
  lemma BarTypes(t: string)
    requires t == "bar-chart" || t == "stacked-bar-chart"
    ensures ChartKind(t) == BarKind
  {
    AbsentCharNoContains(t, "line");
    if t == "bar-chart" {
      assert IsPrefix("bar", t);
    } else {
      ContainsSlice(t, 8, 11);
      assert t[8..11] == "bar";
    }
  }

  /** The scatter, heatmap and combo types fall through to the pie icon. */
  lemma PieTypes(t: string)
    requires t == "scatter-chart" || t == "heatmap" || t == "combo-chart"
    ensures ChartKind(t) == PieKind
  {
    AbsentCharNoContains(t, "line");
    if t == "combo-chart" {
      NoPairNoContains(t, "bar");
    } else {
      AbsentCharNoContains(t, "bar");
    }
  }

  /** So do the area, treemap and radar types. */
  lemma OtherPieTypes(t: string)
    requires t == "area-chart" || t == "treemap" || t == "radar-chart"
    ensures ChartKind(t) == PieKind
  {
    AbsentCharNoContains(t, "line");
    AbsentCharNoContains(t, "bar");
  }

  /** And the correlation matrix, whose "l" is never followed by "i". */
  lemma CorrelationMatrixIsPie(t: string)
    requires t == "correlation-matrix"
    ensures ChartKind(t) == PieKind
  {
    NoPairNoContains(t, "line");
    AbsentCharNoContains(t, "bar");
  }

  /** The placeholder colour: the first of speed, effectiveness, quality and
      impact that the lower-cased title mentions, else the mixed colour. */
  function ChartColour(title: string): (c: Colour)
    ensures c == SpeedColour <==> Contains(ToLower(title), "speed")
    ensures c == EffectivenessColour <==>
      !Contains(ToLower(title), "speed") && Contains(ToLower(title), "effectiveness")
    ensures c == QualityColour <==>
      !Contains(ToLower(title), "speed") && !Contains(ToLower(title), "effectiveness")
      && Contains(ToLower(title), "quality")
    ensures c == ImpactColour <==>
      !Contains(ToLower(title), "speed") && !Contains(ToLower(title), "effectiveness")
      && !Contains(ToLower(title), "quality") && Contains(ToLower(title), "impact")
    ensures c == Mixed <==>
      !Contains(ToLower(title), "speed") && !Contains(ToLower(title), "effectiveness")
      && !Contains(ToLower(title), "quality") && !Contains(ToLower(title), "impact")
  {
    var lower := ToLower(title);
    if Contains(lower, "speed") then SpeedColour
    else if Contains(lower, "effectiveness") then EffectivenessColour
    else if Contains(lower, "quality") then QualityColour
    else if Contains(lower, "impact") then ImpactColour
    else Mixed
  }

  /** The colour does not depend on the case of the title. */
  lemma ColourIgnoresCase(title: string)
    ensures ChartColour(ToLower(title)) == ChartColour(title)
  {
    ToLowerIdempotent(title);
  }

  /** The time-range badge. */
  function TimeRangeLabel(range: string): (badge: string)
    ensures badge == "Custom Range" <==> range != "30d" && range != "90d" && range != "6m" && range != "1y"
  {
    if range == "30d" then "Last 30 Days"
    else if range == "90d" then "Last 90 Days"
    else if range == "6m" then "Last 6 Months"
    else if range == "1y" then "Last Year"
    else "Custom Range"
  }

  /** The team badge: "All Teams", or the capitalised team name. */
  function TeamLabel(team: string): (badge: string)
    ensures team == "all" ==> badge == "All Teams"
    ensures team != "all" ==> |badge| == |team| + 5 && badge[|team|..] == " Team"
    ensures team != "all" && |team| > 0 ==> badge[0] == UpperChar(team[0]) && badge[1..|team|] == team[1..]
  {
    if team == "all" then "All Teams" else Capitalize(team) + " Team"
  }

  /** The time-range badge repeats the label of the option picked in the
      drop-down. */
  lemma TimeRangeBadgeMatchesOption(range: string)
    requires range == "30d" || range == "90d" || range == "6m" || range == "1y" || range == "custom"
    ensures range == "30d" ==> TimeRangeLabel(range) == "Last 30 Days"
    ensures range == "90d" ==> TimeRangeLabel(range) == "Last 90 Days"
    ensures range == "6m" ==> TimeRangeLabel(range) == "Last 6 Months"
    ensures range == "1y" ==> TimeRangeLabel(range) == "Last Year"
    ensures range == "custom" ==> TimeRangeLabel(range) == "Custom Range"
  {
  }

  /** The team badge repeats the label of the team picked in the drop-down. */
  lemma TeamBadgeMatchesOption(team: string)
    requires team == "frontend"
    ensures TeamLabel(team) == "Frontend Team"
  {
  }
}

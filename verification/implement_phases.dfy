/** The implementation-phases role matrix: activities placed by phase and
    stakeholder, a filter by DX Core 4 dimension, an expandable activity card
    whose metrics are coloured by the dimension that lists them, and a drawer
    with details for a selected metric. */
module ImplementPhases {
  import opened Common
  import opened Selection

  datatype Dimension = Dimension(id: string, keyMetric: string, secondaryMetrics: seq<string>)
  datatype Activity = Activity(id: string, phase: string, stakeholder: string, dimensions: seq<string>)

  /** The three tabs of the page. */
  datatype Tab = RolesTab | MetricsTab | Core4Tab

  /** The badge colours of `getDimensionColor`. */
  datatype Colour = Green | Blue | Purple | Orange | Gray

  /** `dxCore4Dimensions` (titles and descriptions left out). */
  const Dimensions: seq<Dimension> := [
    Dimension("speed", "Diffs per engineer",
      ["Lead time", "Deployment frequency", "Perceived rate of delivery", "Time to 10th PR"]),
    Dimension("effectiveness", "Developer Experience Index (DXI)",
      ["Ease of delivery", "Regrettable attrition"]),
    Dimension("quality", "Change failure rate",
      ["Failed deployment recovery time", "Perceived software quality", "Operational health metrics", "Security metrics"]),
    Dimension("impact", "Percentage of time spent on new capabilities",
      ["Initiative progress and ROI", "Revenue per engineer", "R&D as percentage of revenue"])
  ]

  const PhaseIds: seq<string> := ["p1", "p2", "p3", "p4"]
  const StakeholderIds: seq<string> := ["s1", "s2", "s3", "s4", "s5"]

  /** `activities` (descriptions left out). */
  const Activities: seq<Activity> := [
    Activity("a1", "p1", "s1", ["impact", "effectiveness"]),
    Activity("a2", "p3", "s1", ["impact"]),
    Activity("a3", "p1", "s2", ["impact", "speed", "effectiveness"]),
    Activity("a4", "p2", "s2", ["speed", "effectiveness", "quality", "impact"]),
    Activity("a5", "p3", "s2", ["effectiveness", "speed"]),
    Activity("a6", "p4", "s2", ["speed", "effectiveness", "quality", "impact"]),
    Activity("a7", "p1", "s3", ["effectiveness", "quality"]),
    Activity("a8", "p2", "s3", ["quality", "effectiveness"]),
    Activity("a9", "p3", "s3", ["quality", "effectiveness"]),
    Activity("a10", "p4", "s3", ["quality", "effectiveness", "speed"]),
    Activity("a11", "p1", "s4", ["impact"]),
    Activity("a12", "p2", "s4", ["impact"]),
    Activity("a13", "p3", "s4", ["impact", "effectiveness"]),
    Activity("a14", "p4", "s4", ["impact", "effectiveness"]),
    Activity("a15", "p1", "s5", ["effectiveness"]),
    Activity("a16", "p2", "s5", ["effectiveness", "speed"]),
    Activity("a17", "p3", "s5", ["speed", "effectiveness", "quality"]),
    Activity("a18", "p4", "s5", ["effectiveness", "speed", "quality"])
  ]

  /** The keys of `activityDetails`. */
  const ActivityDetailIds: set<string> := {
    "a1", "a2", "a3", "a4", "a5", "a6", "a7", "a8", "a9", "a10",
    "a11", "a12", "a13", "a14", "a15", "a16", "a17", "a18", "a19"}

  /** `metricDetails`: each key with the name its drawer shows. */
  const MetricDetails: map<string, string> := map[
    "Ease of delivery" := "Ease of delivery",
    "Lead time" := "Lead time"]

  /** `filteredActivities`: every activity when no dimension is active (the
      empty string is falsy too), otherwise those listing the active one. */
  function FilteredActivities(activities: seq<Activity>, active: Option<string>): (r: seq<Activity>)
    ensures active.None? || active.value == "" ==> r == activities
    ensures active.Some? && active.value != "" ==>
      forall a :: a in r <==> a in activities && active.value in a.dimensions
    ensures IsSubsequence(r, activities)
  {
    if active.None? || active.value == "" then
      FilterAll(activities, (a: Activity) => true);
      activities
    else Filter(activities, (a: Activity) => active.value in a.dimensions)
  }

  /** The activities a grid cell shows: the filtered ones of that phase and
      stakeholder. */
  function Cell(filtered: seq<Activity>, phase: string, stakeholder: string): (r: seq<Activity>)
    ensures forall a :: a in r <==> a in filtered && a.phase == phase && a.stakeholder == stakeholder
    ensures IsSubsequence(r, filtered)
  {
    Filter(filtered, (a: Activity) => a.phase == phase && a.stakeholder == stakeholder)
  }

  /** When every activity sits on a listed phase and stakeholder, the cells
      together show exactly the filtered activities, each in its own cell. */
  lemma CellsCoverFiltered(filtered: seq<Activity>, phases: seq<string>, stakeholders: seq<string>)
    requires forall a :: a in filtered ==> a.phase in phases && a.stakeholder in stakeholders
    ensures forall a :: a in filtered <==>
      exists p, s :: p in phases && s in stakeholders && a in Cell(filtered, p, s)
  {
    forall a | a in filtered
      ensures exists p, s :: p in phases && s in stakeholders && a in Cell(filtered, p, s)
    {
      assert a in Cell(filtered, a.phase, a.stakeholder);
    }
  }

  /** Every shipped activity lies on the grid, and every activity has an
      `activityDetails` entry; the extra entry `a19` belongs to no activity. */
  lemma ShippedActivities()
    ensures forall i :: 0 <= i < |Activities| ==>
      Activities[i].phase in PhaseIds && Activities[i].stakeholder in StakeholderIds
    ensures forall i :: 0 <= i < |Activities| ==> Activities[i].id in ActivityDetailIds
    ensures "a19" in ActivityDetailIds && forall i :: 0 <= i < |Activities| ==> Activities[i].id != "a19"
  {
  }

  /** `getDimensionColor`. */
  function DimensionColour(id: string): (c: Colour)
    ensures c == Gray <==> id != "speed" && id != "effectiveness" && id != "quality" && id != "impact"
  {
    if id == "speed" then Green
    else if id == "effectiveness" then Blue
    else if id == "quality" then Purple
    else if id == "impact" then Orange
    else Gray
  }

  /** The legend's four dimensions get four different colours. */
  lemma DimensionColoursDistinct()
    ensures var ids := ["speed", "effectiveness", "quality", "impact"];
      forall i, j :: 0 <= i < j < |ids| ==> DimensionColour(ids[i]) != DimensionColour(ids[j])
  {
  }

  /** The dimension lists `metric` as its key metric or a secondary one. */
  predicate Mentions(d: Dimension, metric: string) {
    d.keyMetric == metric || metric in d.secondaryMetrics
  }

  /** `getMetricDimension`: the id of the first dimension that lists the
      metric, or the empty string when none does. */
  method GetMetricDimension(dimensions: seq<Dimension>, metric: string) returns (id: string)
    ensures (exists i :: 0 <= i < |dimensions| && Mentions(dimensions[i], metric)
               && id == dimensions[i].id && forall j :: 0 <= j < i ==> !Mentions(dimensions[j], metric))
         || (id == "" && forall i :: 0 <= i < |dimensions| ==> !Mentions(dimensions[i], metric))
  {
    for i := 0 to |dimensions|
      invariant forall j :: 0 <= j < i ==> !Mentions(dimensions[j], metric)
    {
      var d := dimensions[i];
      if d.keyMetric == metric || metric in d.secondaryMetrics {
        return d.id;
      }
    }
    return "";
  }

  /** The colour of a metric in an expanded card: gray exactly for a metric
      no dimension lists, otherwise the colour of the first dimension listing
      it. */
  method MetricColour(metric: string) returns (c: Colour)
    ensures c == Gray <==> forall d :: d in Dimensions ==> !Mentions(d, metric)
    ensures forall i :: (0 <= i < |Dimensions| && Mentions(Dimensions[i], metric)
                         && forall j :: 0 <= j < i ==> !Mentions(Dimensions[j], metric))
                        ==> c == DimensionColour(Dimensions[i].id)
  {
    var id := GetMetricDimension(Dimensions, metric);
    c := DimensionColour(id);
  }

  /** `MetricDrawer`: the details to show for a metric, or nothing when the
      metric has no details entry. */
  function Drawer(metric: string): (name: Option<string>)
    ensures name.Some? <==> metric in MetricDetails
    ensures name.Some? ==> name.value == metric
  {
    if metric in MetricDetails then Some(MetricDetails[metric]) else None
  }

  /** Only two of the metrics the dimensions list open a drawer with
      content: no key metric has a details entry. */
  lemma KeyMetricsHaveNoDrawer()
    ensures forall d :: d in Dimensions ==> Drawer(d.keyMetric).None?
    ensures Drawer("Lead time").Some? && Mentions(Dimensions[0], "Lead time")
    ensures Drawer("Ease of delivery").Some? && Mentions(Dimensions[1], "Ease of delivery")
  {
  }

  /** The page's selection state. */
  class RolesPage {
    var expandedCard: Option<string>
    var activeTab: Tab
    var activeDimension: Option<string>
    var selectedMetric: Option<string>

    constructor ()
      ensures expandedCard == None && activeTab == RolesTab && activeDimension == None && selectedMetric == None
    {
      expandedCard, activeTab, activeDimension, selectedMetric := None, RolesTab, None, None;
    }

    /** The tab buttons. */
    method SelectTab(tab: Tab)
      modifies this
      ensures activeTab == tab
      ensures expandedCard == old(expandedCard) && activeDimension == old(activeDimension)
      ensures selectedMetric == old(selectedMetric)
    {
      activeTab := tab;
    }

    /** `handleCardClick`. */
    method CardClick(activityId: string)
      modifies this
      ensures expandedCard == Toggle(old(expandedCard), activityId)
      ensures activeDimension == old(activeDimension) && selectedMetric == old(selectedMetric)
      ensures activeTab == old(activeTab)
    {
      if expandedCard == Some(activityId) {
        expandedCard := None;
      } else {
        expandedCard := Some(activityId);
      }
    }

    /** `handleDimensionClick`. */
    method DimensionClick(dimensionId: string)
      modifies this
      ensures activeDimension == Toggle(old(activeDimension), dimensionId)
      ensures expandedCard == old(expandedCard) && selectedMetric == old(selectedMetric)
      ensures activeTab == old(activeTab)
    {
      if activeDimension == Some(dimensionId) {
        activeDimension := None;
      } else {
        activeDimension := Some(dimensionId);
      }
    }

    /** The Clear Filter button: no dimension is active, so (by the contract
        of `FilteredActivities`) every activity is shown again. */
    method ClearFilter()
      modifies this
      ensures activeDimension == None
      ensures expandedCard == old(expandedCard) && selectedMetric == old(selectedMetric)
      ensures activeTab == old(activeTab)
    {
      activeDimension := None;
    }

    /** `handleMetricClick`: open the drawer on a metric. */
    method MetricClick(metric: string)
      modifies this
      ensures selectedMetric == Some(metric)
      ensures expandedCard == old(expandedCard) && activeDimension == old(activeDimension)
      ensures activeTab == old(activeTab)
    {
      selectedMetric := Some(metric);
    }

    /** The drawer's close button. */
    method CloseDrawer()
      modifies this
      ensures selectedMetric == None
      ensures expandedCard == old(expandedCard) && activeDimension == old(activeDimension)
      ensures activeTab == old(activeTab)
    {
      selectedMetric := None;
    }

    /** The drawer is rendered for a non-empty selected metric that has a
        details entry. */
    function DrawerShown(): (shown: bool)
      reads this
      ensures shown <==> selectedMetric.Some? && selectedMetric.value in MetricDetails
    {
      selectedMetric.Some? && selectedMetric.value != "" && Drawer(selectedMetric.value).Some?
    }
  }
}

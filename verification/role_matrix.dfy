/** The role matrix and metrics dashboard page: one activity per phase and
    stakeholder cell, found with `activities.find`, an expandable card per
    activity, and metric badges coloured by the activity's stakeholder. */
module RoleMatrix {
  import opened Common
  import opened Selection

  /** The phase ids `p1`..`p4` and stakeholder ids `s1`..`s5` of the grid. */
  datatype PhaseId = P1 | P2 | P3 | P4
  datatype StakeholderId = S1 | S2 | S3 | S4 | S5

  datatype Activity = Activity(id: string, phase: PhaseId, stakeholder: StakeholderId, description: string)

  /** The metric badge colours of the expanded card. */
  datatype Colour = Blue | Indigo | Purple | Orange | Green | Gray

  /** The two tabs of the page. */
  datatype Tab = RolesTab | MetricsTab

  const Stakeholders: seq<StakeholderId> := [S1, S2, S3, S4, S5]

  /** The shipped `activities` table. */
  const Activities: seq<Activity> := [
    Activity("a1", P1, S1, "Approve metric framework and tooling budget"),
    Activity("a2", P3, S1, "Prioritize improvement areas based on ROI"),
    Activity("a3", P1, S2, "Select specific metrics aligned with business goals"),
    Activity("a4", P2, S2, "Oversee collection of baseline performance data"),
    Activity("a5", P3, S2, "Create team-specific improvement plans"),
    Activity("a6", P4, S2, "Regular progress reviews and adjustment"),
    Activity("a7", P1, S3, "Evaluate technical feasibility of metric collection"),
    Activity("a8", P2, S3, "Ensure accurate technical metric collection"),
    Activity("a9", P3, S3, "Design technical solutions for improvement"),
    Activity("a10", P4, S3, "Technical refinement of tools and practices"),
    Activity("a11", P1, S4, "Define quality thresholds and standards"),
    Activity("a12", P2, S4, "Establish current quality baseline"),
    Activity("a13", P3, S4, "Monitor quality impact of changes"),
    Activity("a14", P4, S4, "Ongoing quality verification"),
    Activity("a15", P1, S5, "Provide feedback on metric relevance"),
    Activity("a16", P2, S5, "Document current workflows and pain points"),
    Activity("a17", P3, S5, "Implement improved practices"),
    Activity("a18", P4, S5, "Feedback on effectiveness and suggestions")
  ]

  /** The keys of `activityDetails`. */
  const ActivityDetailIds: set<string> := {
    "a1", "a2", "a3", "a4", "a5", "a6", "a7", "a8", "a9",
    "a10", "a11", "a12", "a13", "a14", "a15", "a16", "a17", "a18"}

  /** The `find` condition of a cell. */
  function At(phase: PhaseId, stakeholder: StakeholderId): Activity -> bool {
    (a: Activity) => a.phase == phase && a.stakeholder == stakeholder
  }

  /** The activity shown in a cell: the first one of that phase and
      stakeholder, or none. */
  function CellActivity(activities: seq<Activity>, phase: PhaseId, stakeholder: StakeholderId): (r: Option<Activity>)
    ensures r.Some? ==> r.value in activities && r.value.phase == phase && r.value.stakeholder == stakeholder
    ensures r.None? <==> forall a :: a in activities ==> !(a.phase == phase && a.stakeholder == stakeholder)
  {
    Find(activities, At(phase, stakeholder))
  }

  /** The metrics tab's line for a phase: the cell's activity description,
      or "No direct activity" for an empty cell. */
  function PhaseLine(activities: seq<Activity>, phase: PhaseId, stakeholder: StakeholderId): (line: string)
    ensures CellActivity(activities, phase, stakeholder).None? ==> line == "No direct activity"
    ensures CellActivity(activities, phase, stakeholder).Some? ==>
      line == CellActivity(activities, phase, stakeholder).value.description
  {
    match CellActivity(activities, phase, stakeholder)
    case Some(a) => a.description
    case None => "No direct activity"
  }

  /** No two activities share a cell. */
  predicate Unambiguous(activities: seq<Activity>) {
    forall i, j :: 0 <= i < j < |activities| ==>
      activities[i].phase != activities[j].phase || activities[i].stakeholder != activities[j].stakeholder
  }

  /** In an unambiguous table the cell lookup finds each activity in its own
      cell, whatever its position in the table. */
  lemma CellActivityFindsEach(activities: seq<Activity>, i: nat)
    requires Unambiguous(activities) && i < |activities|
    ensures CellActivity(activities, activities[i].phase, activities[i].stakeholder) == Some(activities[i])
  {
    var a := activities[i];
    FindIsFirst(activities, At(a.phase, a.stakeholder), i);
  }

  /** The grid position of a cell, row by row (stakeholder), then column
      by column (phase). */
  function CellNumber(a: Activity): (n: nat)
    ensures n < 20
  {
    var row := match a.stakeholder case S1 => 0 case S2 => 1 case S3 => 2 case S4 => 3 case S5 => 4;
    var column := match a.phase case P1 => 0 case P2 => 1 case P3 => 2 case P4 => 3;
    4 * row + column
  }

  /** Activities listed in strictly increasing grid position never share a
      cell. */
  lemma {:induction false} IncreasingIsUnambiguous(activities: seq<Activity>)
    requires forall k :: 0 <= k < |activities| - 1 ==> CellNumber(activities[k]) < CellNumber(activities[k + 1])
    ensures forall i, j :: 0 <= i < j < |activities| ==> CellNumber(activities[i]) < CellNumber(activities[j])
    ensures Unambiguous(activities)
  {
    if |activities| > 1 {
      var init := activities[..|activities| - 1];
      IncreasingIsUnambiguous(init);
      assert forall i :: 0 <= i < |init| ==> init[i] == activities[i];
      var last := |activities| - 1;
      forall i | 0 <= i < last ensures CellNumber(activities[i]) < CellNumber(activities[last]) {
        if i < last - 1 {
          assert CellNumber(init[i]) < CellNumber(init[last - 1]);
        }
      }
    }
  }

  /** The shipped table lists the activities row by row, so it has at most
      one activity per cell; every activity has an `activityDetails` entry. */
  lemma ShippedTable()
    ensures Unambiguous(Activities)
  {
    assert forall k :: 0 <= k < |Activities| - 1 ==> CellNumber(Activities[k]) < CellNumber(Activities[k + 1]);
    IncreasingIsUnambiguous(Activities);
  }

  /** Every shipped activity has an `activityDetails` entry, which the
      expanded card reads. */
  lemma ShippedDetails()
    ensures forall i :: 0 <= i < |Activities| ==> Activities[i].id in ActivityDetailIds
  {
  }

  /** The Head of Department has no activity in phases 2 and 4. */
  lemma HeadOfDepartmentGaps(phase: PhaseId)
    requires phase == P2 || phase == P4
    ensures PhaseLine(Activities, phase, S1) == "No direct activity"
  {
    assert forall i :: 0 <= i < |Activities| ==> Activities[i].stakeholder != S1 || Activities[i].phase != phase;
  }

  /** The badge colour of the expanded card's metrics, chosen by the
      activity's stakeholder alone. */
  function MetricColour(stakeholder: StakeholderId): (c: Colour)
    ensures c != Gray
  {
    match stakeholder
    case S1 => Blue
    case S2 => Indigo
    case S3 => Purple
    case S4 => Orange
    case S5 => Green
  }

  /** The five stakeholders get five different colours. */
  lemma StakeholderColoursDistinct()
    ensures forall i, j :: 0 <= i < j < |Stakeholders| ==>
      MetricColour(Stakeholders[i]) != MetricColour(Stakeholders[j])
  {
  }

  /** The page's state: the open tab and the expanded card. */
  class MatrixPage {
    var activeTab: Tab
    var expandedCard: Option<string>

    constructor ()
      ensures activeTab == RolesTab && expandedCard == None
    {
      activeTab, expandedCard := RolesTab, None;
    }

    /** `handleCardClick`. */
    method CardClick(activityId: string)
      modifies this
      ensures expandedCard == Toggle(old(expandedCard), activityId)
      ensures activeTab == old(activeTab)
    {
      if expandedCard == Some(activityId) {
        expandedCard := None;
      } else {
        expandedCard := Some(activityId);
      }
    }

    /** The tab buttons. */
    method SelectTab(tab: Tab)
      modifies this
      ensures activeTab == tab && expandedCard == old(expandedCard)
    {
      activeTab := tab;
    }

    /** The card of a cell is expanded when the cell has an activity whose id
        is the expanded one; its details entry then exists. */
    function Expanded(phase: PhaseId, stakeholder: StakeholderId): (shown: bool)
      reads this
      ensures shown <==> CellActivity(Activities, phase, stakeholder).Some?
                         && expandedCard == Some(CellActivity(Activities, phase, stakeholder).value.id)
      ensures shown ==> CellActivity(Activities, phase, stakeholder).value.id in ActivityDetailIds
    {
      ShippedDetails();
      var cell := CellActivity(Activities, phase, stakeholder);
      cell.Some? && expandedCard == Some(cell.value.id)
    }
  }
}

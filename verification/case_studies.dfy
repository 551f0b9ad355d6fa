/** The case-studies page: a tab filter over the shipped studies by DX Core 4
    dimension, and each card's key-results list (one line per listed
    dimension, then an ROI line). */
module CaseStudies {
  import opened Common
  import opened Text

  /** A study with the fields the filter and the key-results list read
      (company, challenge, solution, result texts and testimonial left out). */
  datatype Study = Study(id: string, dimensions: seq<string>)

  /** Which entry of `results` a key-results line shows. */
  datatype ResultField = DimensionResult(dimension: string) | RoiResult

  /** One line of the key-results list: its bold heading and the result it
      shows. */
  datatype KeyResult = KeyResult(heading: string, field: ResultField)

  /** The four dimensions a study may list, in the order of the tabs. */
  const DimensionIds: seq<string> := ["speed", "effectiveness", "quality", "impact"]

  /** The shipped `caseStudies`. */
  const Studies: seq<Study> := [
    Study("fintech-speed", ["speed", "effectiveness"]),
    Study("healthcare-quality", ["quality", "impact"]),
    Study("ecommerce-effectiveness", ["effectiveness", "speed"]),
    Study("saas-impact", ["impact", "effectiveness"]),
    Study("gaming-balanced", ["speed", "effectiveness", "quality", "impact"])
  ]

  /** `filteredCaseStudies`: every study under the "all" filter, otherwise
      the studies listing the filter's dimension, in their original order. */
  function FilteredStudies(studies: seq<Study>, filter: string): (r: seq<Study>)
    ensures filter == "all" ==> r == studies
    ensures filter != "all" ==> forall s :: s in r <==> s in studies && filter in s.dimensions
    ensures IsSubsequence(r, studies)
  {
    if filter == "all" then
      FilterAll(studies, (s: Study) => true);
      studies
    else Filter(studies, (s: Study) => filter in s.dimensions)
  }

  /** Under a dimension filter a study appears as many times as it does in
      the list when it lists the dimension, and not at all otherwise. */
  lemma FilterKeepsEachStudy(studies: seq<Study>, filter: string, s: Study)
    requires filter != "all"
    ensures multiset(FilteredStudies(studies, filter))[s] ==
      if filter in s.dimensions then multiset(studies)[s] else 0
  {
    FilterCount(studies, (s: Study) => filter in s.dimensions, s);
  }

  /** A study listing all four dimensions appears under every tab. */
  lemma AllDimensionsUnderEveryTab(studies: seq<Study>, s: Study, filter: string)
    requires s in studies
    requires forall i :: 0 <= i < |DimensionIds| ==> DimensionIds[i] in s.dimensions
    requires filter == "all" || filter in DimensionIds
    ensures s in FilteredStudies(studies, filter)
  {
    if filter != "all" {
      var i :| 0 <= i < |DimensionIds| && DimensionIds[i] == filter;
      assert filter in s.dimensions;
    }
  }

  /** The shipped `gaming-balanced` study lists all four dimensions, so it is
      shown under every tab; every shipped study lists only the four. */
  lemma ShippedBalancedEverywhere(filter: string)
    requires filter == "all" || filter in DimensionIds
    ensures Studies[4].id == "gaming-balanced" && Studies[4] in FilteredStudies(Studies, filter)
    ensures forall i, j :: 0 <= i < |Studies| && 0 <= j < |Studies[i].dimensions| ==>
      Studies[i].dimensions[j] in DimensionIds
  {
    assert Studies[4].dimensions == DimensionIds;
    AllDimensionsUnderEveryTab(Studies, Studies[4], filter);
  }

  /** The key-results list of a card: one line per listed dimension, headed
      by the dimension with its first letter upper-cased and showing that
      dimension's result, then one ROI line. */
  function KeyResults(study: Study): (r: seq<KeyResult>)
    ensures |r| == |study.dimensions| + 1
    ensures forall i :: 0 <= i < |study.dimensions| ==>
      r[i].field == DimensionResult(study.dimensions[i])
      && |r[i].heading| == |study.dimensions[i]|
      && (|study.dimensions[i]| > 0 ==> r[i].heading[0] == UpperChar(study.dimensions[i][0])
                                        && r[i].heading[1..] == study.dimensions[i][1..])
    ensures r[|study.dimensions|] == KeyResult("ROI", RoiResult)
  {
    seq(|study.dimensions|, i requires 0 <= i < |study.dimensions| =>
      KeyResult(Capitalize(study.dimensions[i]), DimensionResult(study.dimensions[i])))
    + [KeyResult("ROI", RoiResult)]
  }

  /** `DimensionBadge`'s `labels`: the badge text of a dimension, undefined
      for any other string. */
  function BadgeLabel(dimension: string): (badge: Option<string>)
    ensures badge.Some? <==> dimension in DimensionIds
  {
    if dimension == "speed" then Some("Speed")
    else if dimension == "effectiveness" then Some("Effectiveness")
    else if dimension == "quality" then Some("Quality")
    else if dimension == "impact" then Some("Impact")
    else None
  }

  /** Each of the four dimensions, capitalised, is its badge label. */
  lemma CapitalizedIsBadge(d: string)
    requires d in DimensionIds
    ensures BadgeLabel(d) == Some(Capitalize(d))
  {
    if d == "speed" {
      assert Capitalize(d) == [UpperChar('s')] + "peed" && UpperChar('s') == 'S';
      assert Capitalize(d) == "Speed";
    } else if d == "effectiveness" {
      assert Capitalize(d) == [UpperChar('e')] + "ffectiveness" && UpperChar('e') == 'E';
      assert Capitalize(d) == "Effectiveness";
    } else if d == "quality" {
      assert Capitalize(d) == [UpperChar('q')] + "uality" && UpperChar('q') == 'Q';
      assert Capitalize(d) == "Quality";
    } else {
      assert Capitalize(d) == [UpperChar('i')] + "mpact" && UpperChar('i') == 'I';
      assert Capitalize(d) == "Impact";
    }
  }

  /** For each of the four dimensions the key-results heading reads the same
      as the dimension's badge. */
  lemma HeadingMatchesBadge(study: Study, i: nat)
    requires i < |study.dimensions| && study.dimensions[i] in DimensionIds
    ensures BadgeLabel(study.dimensions[i]) == Some(KeyResults(study)[i].heading)
  {
    var d := study.dimensions[i];
    assert KeyResults(study)[i].heading == Capitalize(d);
    CapitalizedIsBadge(d);
  }

  /** A study listing each dimension once gets one key-results line per
      result field, so no two lines of a card show the same result. */
  lemma KeyResultsFieldsDistinct(study: Study)
    requires forall i, j :: 0 <= i < j < |study.dimensions| ==> study.dimensions[i] != study.dimensions[j]
    ensures forall i, j :: 0 <= i < j < |KeyResults(study)| ==> KeyResults(study)[i].field != KeyResults(study)[j].field
  {
  }
}

/** The DX Core 4 survey: a fixed catalog of fourteen weighted questions, the
    weighted Developer Experience Index (DXI) computed from the answers, the
    per-category scores, the tier label, the answer-recording step machine and
    the "improvement areas" / "strengths" selection of the results tab. */
module Survey {
  import opened Common

  datatype Category = Technical | Team | Product

  /** One catalog entry; the question and description texts are left out. */
  datatype Question = Question(id: string, dimension: string, category: Category, weight: Option<real>)

  /** The answers given so far, by question id. */
  type Results = map<string, real>

  /** The fourteen questions in catalog order. */
  const Catalog: seq<Question> := [
    Question("deep_work", "Deep Work", Team, Some(2.5)),
    Question("local_iteration", "Local Iteration", Technical, Some(1.0)),
    Question("release_process", "Release Process", Technical, Some(1.0)),
    Question("making_changes", "Making Changes", Technical, Some(1.0)),
    Question("technical_debt", "Technical Debt", Technical, Some(1.0)),
    Question("architecture", "Architecture", Technical, Some(1.0)),
    Question("tooling", "Tooling", Technical, Some(1.0)),
    Question("documentation", "Documentation", Technical, Some(1.0)),
    Question("onboarding", "Onboarding", Team, Some(2.0)),
    Question("team_processes", "Team Processes", Team, Some(2.2)),
    Question("collaboration", "Collaboration", Team, Some(2.3)),
    Question("vision", "Vision", Product, Some(1.0)),
    Question("requirements", "Requirements", Product, Some(1.0)),
    Question("product_management", "Product Management", Product, Some(1.0))
  ]

  /** The rating buttons offer the integers 0 to 10. */
  const RatingChoices: seq<int> := [0, 1, 2, 3, 4, 5, 6, 7, 8, 9, 10]

  /** `results[id] || 0`: an unanswered question reads as rating 0. */
  function RatingOf(results: Results, id: string): real {
    if id in results then results[id] else 0.0
  }

  /** A weight the catalog may carry: absent, or not negative. */
  predicate WeightOk(q: Question) {
    q.weight.None? || q.weight.value >= 0.0
  }

  predicate WellWeighted(qs: seq<Question>) {
    forall q :: q in qs ==> WeightOk(q)
  }

  predicate RatingsInRange(results: Results) {
    forall id :: id in results ==> 0.0 <= results[id] <= 10.0
  }

  /** `q.weight || 1.0`: a missing weight counts 1.0, and so does a weight of 0,
      which JavaScript treats as false. */
  function EffectiveWeight(q: Question): (w: real)
    ensures q.weight.None? ==> w == 1.0
    ensures q.weight.Some? && q.weight.value > 0.0 ==> w == q.weight.value
    ensures WeightOk(q) ==> w > 0.0
  {
    if q.weight.Some? && q.weight.value != 0.0 then q.weight.value else 1.0
  }

  /** One question's share of the weighted sum: its rating times its weight. */
  function Contribution(results: Results, q: Question): real {
    RatingOf(results, q.id) * EffectiveWeight(q)
  }

  /** Sum of rating times weight over the questions (the loop's `weightedSum`). */
  function WeightedSum(qs: seq<Question>, results: Results): real {
    if |qs| == 0 then 0.0 else WeightedSum(qs[..|qs| - 1], results) + Contribution(results, qs[|qs| - 1])
  }

  /** Sum of the weights over the questions (the loop's `totalWeight`). */
  function TotalWeight(qs: seq<Question>): real {
    if |qs| == 0 then 0.0 else TotalWeight(qs[..|qs| - 1]) + EffectiveWeight(qs[|qs| - 1])
  }

  function WeightedAverage(qs: seq<Question>, results: Results): real {
    var total := TotalWeight(qs);
    if total > 0.0 then WeightedSum(qs, results) / total else 0.0
  }

  /** The DXI: 0 for an empty answer map, otherwise the weighted average
      (out of 10) scaled to 0..100 and rounded. */
  function Dxi(qs: seq<Question>, results: Results): (d: int)
    ensures |results| == 0 ==> d == 0
    ensures (forall q :: q in qs ==> RatingOf(results, q.id) == 0.0) ==> d == 0
  {
    ZeroRatingsZeroSum(qs, results);
    RoundInteger(0);
    if |results| == 0 then 0 else Round(WeightedAverage(qs, results) / 10.0 * 100.0)
  }

  /** Ratings that are all 0 (or absent) give a weighted sum of 0. */
  lemma ZeroRatingsZeroSum(qs: seq<Question>, results: Results)
    ensures (forall q :: q in qs ==> RatingOf(results, q.id) == 0.0) ==> WeightedSum(qs, results) == 0.0
  {
    if forall q :: q in qs ==> RatingOf(results, q.id) == 0.0 {
      WeightedSumUniform(qs, results, 0.0);
    }
  }

  /** `calculateDXI`: one pass over the catalog accumulating the weighted sum
      and the total weight. */
  method CalculateDxi(questions: seq<Question>, results: Results) returns (score: int)
    ensures score == Dxi(questions, results)
    ensures |results| == 0 ==> score == 0
  {
    if |results| == 0 {
      return 0;
    }
    var weightedSum, totalWeight := 0.0, 0.0;
    for i := 0 to |questions|
      invariant weightedSum == WeightedSum(questions[..i], results)
      invariant totalWeight == TotalWeight(questions[..i])
    {
      var question := questions[i];
      var rating := if question.id in results then results[question.id] else 0.0;
      var weight := if question.weight.Some? && question.weight.value != 0.0 then question.weight.value else 1.0;
      weightedSum := weightedSum + rating * weight;
      totalWeight := totalWeight + weight;
      assert questions[..i + 1][..i] == questions[..i];
    }
    assert questions[..|questions|] == questions;
    var weightedAverage := if totalWeight > 0.0 then weightedSum / totalWeight else 0.0;
    score := Round(weightedAverage / 10.0 * 100.0);
  }

  lemma PrefixWellWeighted(qs: seq<Question>, n: nat)
    requires WellWeighted(qs) && n <= |qs|
    ensures WellWeighted(qs[..n])
  {
    forall q | q in qs[..n] ensures WeightOk(q) {
      assert q in qs;
    }
  }

  /** With positive weights the total weight is positive unless there are no questions. */
  lemma {:induction false} TotalWeightPositive(qs: seq<Question>)
    requires WellWeighted(qs)
    ensures |qs| == 0 ==> TotalWeight(qs) == 0.0
    ensures |qs| > 0 ==> TotalWeight(qs) > 0.0
  {
    if |qs| > 0 {
      PrefixWellWeighted(qs, |qs| - 1);
      TotalWeightPositive(qs[..|qs| - 1]);
      assert WeightOk(qs[|qs| - 1]);
    }
  }

  lemma NonNegativeProduct(a: real, b: real)
    requires a >= 0.0 && b >= 0.0
    ensures a * b >= 0.0
  {
  }

  /** A rating in 0..10 times a positive weight lies between 0 and 10 times the weight. */
  lemma ContributionBounds(results: Results, q: Question)
    requires WeightOk(q) && RatingsInRange(results)
    ensures 0.0 <= Contribution(results, q) <= 10.0 * EffectiveWeight(q)
  {
    var r, w := RatingOf(results, q.id), EffectiveWeight(q);
    assert 0.0 <= r <= 10.0 && w > 0.0;
    NonNegativeProduct(10.0 - r, w);
    NonNegativeProduct(r, w);
  }

  /** An amount between 0 and 10 times a positive total, divided by the total,
      lies in 0..10. */
  lemma AverageBounds(sum: real, total: real)
    requires total > 0.0 && 0.0 <= sum <= 10.0 * total
    ensures 0.0 <= sum / total <= 10.0
  {
  }

  lemma DivideMonotone(a: real, b: real, total: real)
    requires total > 0.0 && a <= b
    ensures a / total <= b / total
  {
  }

  /** With ratings in 0..10 the weighted sum lies between 0 and 10 times the total weight. */
  lemma {:induction false} WeightedSumBounds(qs: seq<Question>, results: Results)
    requires WellWeighted(qs) && RatingsInRange(results)
    ensures 0.0 <= WeightedSum(qs, results) <= 10.0 * TotalWeight(qs)
  {
    if |qs| > 0 {
      PrefixWellWeighted(qs, |qs| - 1);
      WeightedSumBounds(qs[..|qs| - 1], results);
      assert qs[|qs| - 1] in qs;
      ContributionBounds(results, qs[|qs| - 1]);
    }
  }

  /** A weighted average of ratings in 0..10 gives a DXI in 0..100. */
  lemma DxiRange(qs: seq<Question>, results: Results)
    requires WellWeighted(qs) && RatingsInRange(results)
    ensures 0 <= Dxi(qs, results) <= 100
  {
    WeightedSumBounds(qs, results);
    var total := TotalWeight(qs);
    if total > 0.0 {
      var average := WeightedSum(qs, results) / total;
      AverageBounds(WeightedSum(qs, results), total);
      RoundBetween(average / 10.0 * 100.0, 0, 100);
    }
  }

  /** When every question carries the rating `r`, the weighted sum is `r` times the total weight. */
  lemma WeightedSumUniform(qs: seq<Question>, results: Results, r: real)
    requires forall q :: q in qs ==> RatingOf(results, q.id) == r
    ensures WeightedSum(qs, results) == r * TotalWeight(qs)
  {
    WeightedSumScaled(qs, results, r);
    ScaledTotalFactor(qs, r);
  }

  /** The weight sum with every weight multiplied by `r`. */
  function ScaledTotal(qs: seq<Question>, r: real): real {
    if |qs| == 0 then 0.0 else ScaledTotal(qs[..|qs| - 1], r) + r * EffectiveWeight(qs[|qs| - 1])
  }

  lemma {:induction false} WeightedSumScaled(qs: seq<Question>, results: Results, r: real)
    requires forall q :: q in qs ==> RatingOf(results, q.id) == r
    ensures WeightedSum(qs, results) == ScaledTotal(qs, r)
  {
    if |qs| > 0 {
      UniformInit(qs, results, r);
      WeightedSumScaled(qs[..|qs| - 1], results, r);
      assert qs[|qs| - 1] in qs;
    }
  }

  lemma {:induction false} ScaledTotalFactor(qs: seq<Question>, r: real)
    ensures ScaledTotal(qs, r) == r * TotalWeight(qs)
  {
    if |qs| > 0 {
      var init := qs[..|qs| - 1];
      ScaledTotalFactor(init, r);
      Distribute(r, TotalWeight(init), EffectiveWeight(qs[|qs| - 1]));
    }
  }

  lemma Distribute(r: real, a: real, b: real)
    ensures r * (a + b) == r * a + r * b
  {
  }

  lemma UniformInit(qs: seq<Question>, results: Results, r: real)
    requires |qs| > 0 && forall q :: q in qs ==> RatingOf(results, q.id) == r
    ensures forall q :: q in qs[..|qs| - 1] ==> RatingOf(results, q.id) == r
  {
    forall q | q in qs[..|qs| - 1]
      ensures q in qs
    {
      var k :| 0 <= k < |qs| - 1 && qs[..|qs| - 1][k] == q;
      assert qs[k] == q;
    }
  }

  /** Giving every question the same rating `r` yields a DXI of exactly `10 * r`. */
  lemma DxiUniform(qs: seq<Question>, results: Results, r: int)
    requires |qs| > 0 && WellWeighted(qs)
    requires forall q :: q in qs ==> q.id in results && results[q.id] == r as real
    ensures Dxi(qs, results) == 10 * r
  {
    WeightedSumUniform(qs, results, r as real);
    TotalWeightPositive(qs);
    assert qs[0] in qs;
    assert qs[0].id in results;
    var total := TotalWeight(qs);
    assert WeightedSum(qs, results) / total == r as real;
    assert (r as real) / 10.0 * 100.0 == (10 * r) as real;
    RoundInteger(10 * r);
  }

  /** Ratings that are never negative give a weighted sum that is never negative. */
  lemma {:induction false} WeightedSumNonNegative(qs: seq<Question>, results: Results)
    requires WellWeighted(qs)
    requires forall id :: id in results ==> results[id] >= 0.0
    ensures WeightedSum(qs, results) >= 0.0
  {
    if |qs| > 0 {
      PrefixWellWeighted(qs, |qs| - 1);
      WeightedSumNonNegative(qs[..|qs| - 1], results);
      assert WeightOk(qs[|qs| - 1]);
    }
  }

  /** Raising one answer, the others fixed, never lowers the weighted sum. */
  lemma {:induction false} WeightedSumMonotone(qs: seq<Question>, results: Results, id: string, v: real)
    requires WellWeighted(qs) && v >= RatingOf(results, id)
    ensures WeightedSum(qs, results) <= WeightedSum(qs, results[id := v])
  {
    if |qs| > 0 {
      PrefixWellWeighted(qs, |qs| - 1);
      WeightedSumMonotone(qs[..|qs| - 1], results, id, v);
      var q := qs[|qs| - 1];
      assert WeightOk(q);
      var w := EffectiveWeight(q);
      assert RatingOf(results, q.id) <= RatingOf(results[id := v], q.id);
      assert (RatingOf(results[id := v], q.id) - RatingOf(results, q.id)) * w >= 0.0;
    }
  }

  /** Raising a single question's rating, others fixed, never lowers the DXI. */
  lemma DxiMonotone(qs: seq<Question>, results: Results, id: string, v: real)
    requires WellWeighted(qs) && v >= RatingOf(results, id)
    ensures Dxi(qs, results) <= Dxi(qs, results[id := v])
  {
    var raised := results[id := v];
    assert id in raised;
    WeightedSumMonotone(qs, results, id, v);
    TotalWeightPositive(qs);
    var total := TotalWeight(qs);
    if |results| == 0 {
      WeightedSumNonNegative(qs, raised);
      if total > 0.0 {
        DivideMonotone(0.0, WeightedSum(qs, raised), total);
        RoundMonotone(0.0, WeightedSum(qs, raised) / total / 10.0 * 100.0);
      }
      RoundInteger(0);
    } else if total > 0.0 {
      var a, b := WeightedSum(qs, results) / total, WeightedSum(qs, raised) / total;
      DivideMonotone(WeightedSum(qs, results), WeightedSum(qs, raised), total);
      RoundMonotone(a / 10.0 * 100.0, b / 10.0 * 100.0);
    }
  }

  /** Two answer maps that agree on every listed question give the same weighted sum. */
  lemma {:induction false} WeightedSumAgree(qs: seq<Question>, r1: Results, r2: Results)
    requires forall q :: q in qs ==> RatingOf(r1, q.id) == RatingOf(r2, q.id)
    ensures WeightedSum(qs, r1) == WeightedSum(qs, r2)
  {
    if |qs| > 0 {
      var init := qs[..|qs| - 1];
      assert forall q :: q in init ==> q in qs;
      WeightedSumAgree(init, r1, r2);
      assert qs[|qs| - 1] in qs;
    }
  }

  /** Leaving a question unanswered scores exactly as answering it 0: its
      weight stays in the denominator. */
  lemma UnansweredCountsAsZero(qs: seq<Question>, results: Results, id: string)
    requires id !in results
    ensures Dxi(qs, results) == Dxi(qs, results[id := 0.0])
  {
    var answered := results[id := 0.0];
    assert id in answered;
    if |results| == 0 {
      assert forall q :: q in qs ==> RatingOf(answered, q.id) == 0.0;
    } else {
      WeightedSumAgree(qs, results, answered);
    }
  }

  /** The catalog: fourteen questions with distinct ids and positive weights. */
  lemma CatalogShape()
    ensures |Catalog| == 14
    ensures WellWeighted(Catalog)
    ensures forall i, j :: 0 <= i < j < |Catalog| ==> Catalog[i].id != Catalog[j].id
  {
  }

  /** All sevens give a DXI of 70. */
  lemma AllSevensGiveSeventy()
    ensures Dxi(Catalog, map q | q in Catalog :: q.id := 7.0) == 70
  {
    CatalogShape();
    DxiUniform(Catalog, map q | q in Catalog :: q.id := 7.0, 7);
  }

  /** The four tiers of the results tab. */
  datatype Tier = Excellent | Good | NeedsImprovement | CriticalAttentionRequired

  /** The band `getScoreCategory` names: each band's lower boundary belongs
      to that band. */
  function ScoreCategory(score: int): (t: Tier)
    ensures t == Excellent <==> score >= 80
    ensures t == Good <==> 70 <= score < 80
    ensures t == NeedsImprovement <==> 50 <= score < 70
    ensures t == CriticalAttentionRequired <==> score < 50
  {
    if score >= 80 then Excellent
    else if score >= 70 then Good
    else if score >= 50 then NeedsImprovement
    else CriticalAttentionRequired
  }

  /** The text of a tier; no two tiers share one. */
  function TierLabel(t: Tier): (text: string)
    ensures text == "Excellent" <==> t == Excellent
    ensures text == "Good" <==> t == Good
    ensures text == "Needs Improvement" <==> t == NeedsImprovement
    ensures text == "Critical Attention Required" <==> t == CriticalAttentionRequired
  {
    match t
    case Excellent => "Excellent"
    case Good => "Good"
    case NeedsImprovement => "Needs Improvement"
    case CriticalAttentionRequired => "Critical Attention Required"
  }

  /** The string `getScoreCategory` returns: each band's text exactly for the
      scores of that band. */
  function ScoreLabel(score: int): (text: string)
    ensures text == "Excellent" <==> score >= 80
    ensures text == "Good" <==> 70 <= score < 80
    ensures text == "Needs Improvement" <==> 50 <= score < 70
    ensures text == "Critical Attention Required" <==> score < 50
  {
    TierLabel(ScoreCategory(score))
  }

  function TierRank(t: Tier): nat {
    match t
    case CriticalAttentionRequired => 0
    case NeedsImprovement => 1
    case Good => 2
    case Excellent => 3
  }

  /** A higher score never gets a lower tier. */
  lemma TierMonotone(a: int, b: int)
    requires a <= b
    ensures TierRank(ScoreCategory(a)) <= TierRank(ScoreCategory(b))
  {
  }

  /** The questions of one category, in catalog order. */
  function InCategory(qs: seq<Question>, c: Category): seq<Question> {
    if |qs| == 0 then []
    else InCategory(qs[..|qs| - 1], c) + (if qs[|qs| - 1].category == c then [qs[|qs| - 1]] else [])
  }

  /** A category's questions are exactly the catalog's questions of that category. */
  lemma {:induction false} InCategoryMembers(qs: seq<Question>, c: Category)
    ensures forall q :: q in InCategory(qs, c) <==> q in qs && q.category == c
  {
    if |qs| > 0 {
      var init := qs[..|qs| - 1];
      InCategoryMembers(init, c);
      assert qs == init + [qs[|qs| - 1]];
    }
  }

  /** The dimension names of one category, in catalog order (the `dimensions` lists). */
  function CategoryDimensions(qs: seq<Question>, c: Category): seq<string> {
    if |qs| == 0 then []
    else CategoryDimensions(qs[..|qs| - 1], c) + (if qs[|qs| - 1].category == c then [qs[|qs| - 1].dimension] else [])
  }

  /** Every dimension name of the catalog, in catalog order. */
  function AllDimensions(qs: seq<Question>): seq<string> {
    if |qs| == 0 then [] else AllDimensions(qs[..|qs| - 1]) + [qs[|qs| - 1].dimension]
  }

  /** One category's score: `round(10 * weighted average)`, 0 when its total weight is 0. */
  function CategoryScore(qs: seq<Question>, results: Results, c: Category): (s: int)
    ensures (forall q :: q in qs ==> RatingOf(results, q.id) == 0.0) ==> s == 0
  {
    var members := InCategory(qs, c);
    InCategoryMembers(qs, c);
    ZeroRatingsZeroSum(members, results);
    RoundInteger(0);
    var total := TotalWeight(members);
    if total > 0.0 then Round(WeightedSum(members, results) / total * 10.0) else 0
  }

  datatype CategoryScores = CategoryScores(
    technical: int, team: int, product: int,
    technicalDimensions: seq<string>, teamDimensions: seq<string>, productDimensions: seq<string>)

  /** The per-category accumulator of `getCategoryScores`. */
  datatype Tally = Tally(score: real, totalWeight: real, dimensions: seq<string>)

  /** The accumulator object, one tally per category. */
  datatype Tallies = Tallies(technical: Tally, team: Tally, product: Tally)

  function Get(ts: Tallies, c: Category): Tally {
    match c
    case Technical => ts.technical
    case Team => ts.team
    case Product => ts.product
  }

  function Set(ts: Tallies, c: Category, t: Tally): (r: Tallies)
    ensures Get(r, c) == t
    ensures forall other :: other != c ==> Get(r, other) == Get(ts, other)
  {
    match c
    case Technical => ts.(technical := t)
    case Team => ts.(team := t)
    case Product => ts.(product := t)
  }

  /** One category's tally after the questions `qs`. */
  function TallyOf(qs: seq<Question>, results: Results, c: Category): Tally {
    Tally(WeightedSum(InCategory(qs, c), results), TotalWeight(InCategory(qs, c)), CategoryDimensions(qs, c))
  }

  function TalliesOf(qs: seq<Question>, results: Results): Tallies {
    Tallies(TallyOf(qs, results, Technical), TallyOf(qs, results, Team), TallyOf(qs, results, Product))
  }

  /** Adding one question to its category's tally: the rating (0 when
      unanswered) times the weight (1 when absent or 0) onto the score, the
      weight onto the total weight, the dimension onto the list. */
  function AddQuestion(t: Tally, results: Results, q: Question): Tally {
    Tally(t.score + Contribution(results, q), t.totalWeight + EffectiveWeight(q), t.dimensions + [q.dimension])
  }

  function TallyScore(t: Tally): int {
    if t.totalWeight > 0.0 then Round(t.score / t.totalWeight * 10.0) else 0
  }

  lemma InCategorySnoc(qs: seq<Question>, q: Question, c: Category)
    ensures InCategory(qs + [q], c) == if q.category == c then InCategory(qs, c) + [q] else InCategory(qs, c)
    ensures CategoryDimensions(qs + [q], c) ==
      if q.category == c then CategoryDimensions(qs, c) + [q.dimension] else CategoryDimensions(qs, c)
  {
    assert (qs + [q])[..|qs|] == qs;
  }

  lemma WeightedSumSnoc(qs: seq<Question>, results: Results, q: Question)
    ensures WeightedSum(qs + [q], results) == WeightedSum(qs, results) + Contribution(results, q)
    ensures TotalWeight(qs + [q]) == TotalWeight(qs) + EffectiveWeight(q)
  {
    assert (qs + [q])[..|qs|] == qs;
  }

  /** Appending a question adds it to its own category's tally and to no other. */
  lemma TallyStep(qs: seq<Question>, results: Results, q: Question, c: Category)
    ensures q.category == c ==> TallyOf(qs + [q], results, c) == AddQuestion(TallyOf(qs, results, c), results, q)
    ensures q.category != c ==> TallyOf(qs + [q], results, c) == TallyOf(qs, results, c)
  {
    InCategorySnoc(qs, q, c);
    WeightedSumSnoc(InCategory(qs, c), results, q);
  }

  lemma TalliesStep(qs: seq<Question>, results: Results, i: nat)
    requires i < |qs|
    ensures var before := TalliesOf(qs[..i], results);
      TalliesOf(qs[..i + 1], results) == Set(before, qs[i].category, AddQuestion(Get(before, qs[i].category), results, qs[i]))
  {
    assert qs[..i + 1] == qs[..i] + [qs[i]];
    TalliesSnoc(qs[..i], results, qs[i]);
  }

  /** Appending a question to the catalog adds it to the tally of its
      category and leaves the others as they were. */
  lemma TalliesSnoc(qs: seq<Question>, results: Results, q: Question)
    ensures var before := TalliesOf(qs, results);
      TalliesOf(qs + [q], results) == Set(before, q.category, AddQuestion(Get(before, q.category), results, q))
  {
    var before := TalliesOf(qs, results);
    var updated := Set(before, q.category, AddQuestion(Get(before, q.category), results, q));
    forall c: Category
      ensures Get(TalliesOf(qs + [q], results), c) == Get(updated, c)
    {
      TallyStep(qs, results, q, c);
    }
    TalliesEqual(TalliesOf(qs + [q], results), updated);
  }

  /** Two accumulators with the same tally in every category are equal. */
  lemma TalliesEqual(a: Tallies, b: Tallies)
    requires forall c :: Get(a, c) == Get(b, c)
    ensures a == b
  {
    assert Get(a, Technical) == Get(b, Technical);
    assert Get(a, Team) == Get(b, Team);
    assert Get(a, Product) == Get(b, Product);
  }

  /** `getCategoryScores`: one pass over the catalog adding each question to
      the tally of its category. */
  method GetCategoryScores(questions: seq<Question>, results: Results) returns (scores: CategoryScores)
    ensures scores.technical == CategoryScore(questions, results, Technical)
    ensures scores.team == CategoryScore(questions, results, Team)
    ensures scores.product == CategoryScore(questions, results, Product)
    ensures scores.technicalDimensions == CategoryDimensions(questions, Technical)
    ensures scores.teamDimensions == CategoryDimensions(questions, Team)
    ensures scores.productDimensions == CategoryDimensions(questions, Product)
  {
    var empty := Tally(0.0, 0.0, []);
    var categories := Tallies(empty, empty, empty);
    for i := 0 to |questions|
      invariant categories == TalliesOf(questions[..i], results)
    {
      var q := questions[i];
      categories := Set(categories, q.category, AddQuestion(Get(categories, q.category), results, q));
      TalliesStep(questions, results, i);
    }
    assert questions[..|questions|] == questions;
    scores := CategoryScores(
      TallyScore(categories.technical), TallyScore(categories.team), TallyScore(categories.product),
      categories.technical.dimensions, categories.team.dimensions, categories.product.dimensions);
  }

  /** Before any answer is given the DXI and every category score are 0. */
  lemma EmptyResultsScoreZero(qs: seq<Question>, c: Category)
    ensures Dxi(qs, map[]) == 0 && CategoryScore(qs, map[], c) == 0
  {
    forall q | q in qs
      ensures RatingOf(map[], q.id) == 0.0
    {
    }
  }

  /** With ratings in 0..10 every category score lies in 0..100 (a 0..100
      scale, since the weighted average out of 10 is multiplied by 10). */
  lemma CategoryScoreRange(qs: seq<Question>, results: Results, c: Category)
    requires WellWeighted(qs) && RatingsInRange(results)
    ensures 0 <= CategoryScore(qs, results, c) <= 100
  {
    var members := InCategory(qs, c);
    InCategoryMembers(qs, c);
    WeightedSumBounds(members, results);
    var total := TotalWeight(members);
    if total > 0.0 {
      var average := WeightedSum(members, results) / total;
      AverageBounds(WeightedSum(members, results), total);
      RoundBetween(average * 10.0, 0, 100);
    }
  }

  /** A category's score depends only on the answers to that category's questions. */
  lemma CategoryScoreLocal(qs: seq<Question>, r1: Results, r2: Results, c: Category)
    requires forall q :: q in qs && q.category == c ==> RatingOf(r1, q.id) == RatingOf(r2, q.id)
    ensures CategoryScore(qs, r1, c) == CategoryScore(qs, r2, c)
  {
    InCategoryMembers(qs, c);
    WeightedSumAgree(InCategory(qs, c), r1, r2);
  }

  /** A category without questions scores 0. */
  lemma {:induction false} EmptyCategoryScoresZero(qs: seq<Question>, results: Results, c: Category)
    requires forall q :: q in qs ==> q.category != c
    ensures InCategory(qs, c) == []
    ensures CategoryScore(qs, results, c) == 0
  {
    if |qs| > 0 {
      var init := qs[..|qs| - 1];
      assert forall q :: q in init ==> q in qs;
      EmptyCategoryScoresZero(init, results, c);
      assert qs[|qs| - 1] in qs;
    }
  }

  /** The three dimension lists partition the catalog's dimension names. */
  lemma {:induction false} CategoriesPartition(qs: seq<Question>)
    ensures multiset(CategoryDimensions(qs, Technical)) + multiset(CategoryDimensions(qs, Team))
            + multiset(CategoryDimensions(qs, Product)) == multiset(AllDimensions(qs))
  {
    if |qs| > 0 {
      CategoriesPartition(qs[..|qs| - 1]);
    }
  }

  /** Each question's dimension name is listed under its own category. */
  lemma {:induction false} DimensionListedInOwnCategory(qs: seq<Question>, i: nat)
    requires i < |qs|
    ensures qs[i].dimension in CategoryDimensions(qs, qs[i].category)
  {
    if i < |qs| - 1 {
      DimensionListedInOwnCategory(qs[..|qs| - 1], i);
    }
  }

  /** The results-tab views: the survey steps through the catalog on the
      survey tab and the scores show on the results tab. */
  datatype Tab = IntroTab | SurveyTab | ResultsTab

  /** The survey component's state. */
  class SurveySession {
    const questions: seq<Question>
    var currentStep: int
    var results: Results
    var activeTab: Tab

    /** The step always names a question of the catalog. */
    ghost predicate Valid()
      reads this
    {
      0 <= currentStep < |questions|
    }

    constructor (questions: seq<Question>)
      requires |questions| > 0
      ensures Valid() && this.questions == questions
      ensures currentStep == 0 && results == map[] && activeTab == IntroTab
    {
      this.questions := questions;
      currentStep := 0;
      results := map[];
      activeTab := IntroTab;
    }

    /** The question the survey tab shows. */
    function CurrentQuestion(): (q: Question)
      reads this
      requires Valid()
      ensures q in questions
    {
      questions[currentStep]
    }

    /** "Start Survey": open the survey tab at the first question. */
    method StartSurvey()
      requires Valid()
      modifies this
      ensures Valid()
      ensures activeTab == SurveyTab && currentStep == 0 && results == old(results)
    {
      activeTab := SurveyTab;
      currentStep := 0;
    }

    /** `handleRatingSelect`: record the rating, then advance to the next
        question, or open the results tab after the last one. */
    method SelectRating(questionId: string, rating: real)
      requires Valid()
      modifies this
      ensures Valid()
      ensures questionId in results && results[questionId] == rating
      ensures RatingsInRange(old(results)) && (exists k :: 0 <= k < |RatingChoices| && rating == RatingChoices[k] as real)
        ==> RatingsInRange(results)
      ensures forall id :: id != questionId ==>
        (id in results <==> id in old(results)) && (id in results ==> results[id] == old(results)[id])
      ensures old(currentStep) >= |questions| - 1 ==> currentStep == old(currentStep) && activeTab == ResultsTab
      ensures old(currentStep) < |questions| - 1 ==> currentStep == old(currentStep) + 1 && activeTab == old(activeTab)
    {
      results := results[questionId := rating];
      if currentStep >= |questions| - 1 {
        activeTab := ResultsTab;
      } else {
        currentStep := currentStep + 1;
      }
    }

    /** "Previous" (or "Back to Intro" on the first question). */
    method Previous()
      requires Valid()
      modifies this
      ensures Valid() && results == old(results)
      ensures old(currentStep) > 0 ==> currentStep == old(currentStep) - 1 && activeTab == old(activeTab)
      ensures old(currentStep) == 0 ==> currentStep == 0 && activeTab == IntroTab
    {
      if currentStep > 0 {
        currentStep := currentStep - 1;
      } else {
        activeTab := IntroTab;
      }
    }

    /** "Skip": advance without recording an answer. */
    method Skip()
      requires Valid()
      modifies this
      ensures Valid() && results == old(results)
      ensures old(currentStep) >= |questions| - 1 ==> currentStep == old(currentStep) && activeTab == ResultsTab
      ensures old(currentStep) < |questions| - 1 ==> currentStep == old(currentStep) + 1 && activeTab == old(activeTab)
    {
      if currentStep >= |questions| - 1 {
        activeTab := ResultsTab;
      } else {
        currentStep := currentStep + 1;
      }
    }

    /** "View Results", offered on the last question. */
    method ViewResults()
      requires Valid()
      modifies this
      ensures Valid() && activeTab == ResultsTab
      ensures currentStep == old(currentStep) && results == old(results)
    {
      activeTab := ResultsTab;
    }
  }

  /** The sort key: the rating, negated for the descending order. */
  function Key(results: Results, descending: bool, q: Question): real {
    if descending then -RatingOf(results, q.id) else RatingOf(results, q.id)
  }

  /** The sort key as a function value. */
  function ScoreKey(results: Results, descending: bool): Question -> real {
    q => Key(results, descending, q)
  }

  /** Questions with score at most 5 (improvement candidates), in catalog order. */
  function LowScoring(qs: seq<Question>, results: Results): seq<Question> {
    Filter(qs, (q: Question) => RatingOf(results, q.id) <= 5.0)
  }

  /** Questions with score at least 8 (strength candidates), in catalog order. */
  function HighScoring(qs: seq<Question>, results: Results): seq<Question> {
    Filter(qs, (q: Question) => RatingOf(results, q.id) >= 8.0)
  }

  function Min(a: int, b: int): int {
    if a <= b then a else b
  }

  /** "Improvement areas": at most three questions scoring 5 or less, lowest first. */
  function ImprovementAreas(qs: seq<Question>, results: Results): (r: seq<Question>)
    ensures |r| == Min(3, |LowScoring(qs, results)|)
    ensures forall q :: q in r ==> q in qs && RatingOf(results, q.id) <= 5.0
    ensures forall i, j :: 0 <= i < j < |r| ==> RatingOf(results, r[i].id) <= RatingOf(results, r[j].id)
    ensures multiset(r) <= multiset(LowScoring(qs, results))
  {
    var low := LowScoring(qs, results);
    var k := Min(3, |low|);
    SortedPrefix(low, ScoreKey(results, false), k);
    SortByKey(low, ScoreKey(results, false))[..k]
  }

  /** "Strengths": at most three questions scoring 8 or more, highest first. */
  function Strengths(qs: seq<Question>, results: Results): (r: seq<Question>)
    ensures |r| == Min(3, |HighScoring(qs, results)|)
    ensures forall q :: q in r ==> q in qs && RatingOf(results, q.id) >= 8.0
    ensures forall i, j :: 0 <= i < j < |r| ==> RatingOf(results, r[i].id) >= RatingOf(results, r[j].id)
    ensures multiset(r) <= multiset(HighScoring(qs, results))
  {
    var high := HighScoring(qs, results);
    var k := Min(3, |high|);
    SortedPrefix(high, ScoreKey(results, true), k);
    SortByKey(high, ScoreKey(results, true))[..k]
  }

  /** No question is both an improvement area and a strength. */
  lemma ImprovementAreasAndStrengthsDisjoint(qs: seq<Question>, results: Results)
    ensures forall q :: q in ImprovementAreas(qs, results) ==> q !in Strengths(qs, results)
  {
  }

  /** The improvement areas are the lowest-scoring candidates: every candidate
      left out scores at least as much as every one chosen. */
  lemma ImprovementAreasAreLowest(qs: seq<Question>, results: Results)
    ensures forall x, y ::
              (x in ImprovementAreas(qs, results) &&
               y in multiset(LowScoring(qs, results)) - multiset(ImprovementAreas(qs, results)))
              ==> RatingOf(results, x.id) <= RatingOf(results, y.id)
  {
    var low := LowScoring(qs, results);
    SortedPrefix(low, ScoreKey(results, false), Min(3, |low|));
  }

  /** The strengths are the highest-scoring candidates. */
  lemma StrengthsAreHighest(qs: seq<Question>, results: Results)
    ensures forall x, y ::
              (x in Strengths(qs, results) &&
               y in multiset(HighScoring(qs, results)) - multiset(Strengths(qs, results)))
              ==> RatingOf(results, x.id) >= RatingOf(results, y.id)
  {
    var high := HighScoring(qs, results);
    SortedPrefix(high, ScoreKey(results, true), Min(3, |high|));
  }
}

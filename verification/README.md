# DX Core 4 micro-apps: a verified model of the computable core

The repository is a set of React pages around the DX Core 4 framework. Its
four dimensions are speed, effectiveness, quality and impact. This project
models the logic inside those pages and proves what each part promises:

- **Survey** (`survey.dfy`): the 14-question weighted catalog and the
  Developer Experience Index (DXI) loop, computed as a weighted average on a
  0-100 scale. Also the per-category scores loop, the tier label, the
  improvement-area and strength selection, and the survey's step machine
  (rate, Previous, Skip, View Results) as a class.
- **Dashboard** (`dashboard.dfy`): the trend, the metric status, metric
  inversion, the label, unit and description tables, and the
  `calculateMetrics` and ROI arithmetic. Also the insight generator. It
  pushes records in nested loops, modelled as methods over a sequence, and
  then sorts them by severity and type.
- **Tutorial** (`tutorial.dfy`): the three-phase, ten-step tutorial table and
  the position (phase, step) with Next, Previous, phase click and step click.
  Also progress, quiz recording and answer checking, as a class.
- **Implementation phases** (`implement_phases.dfy`) and **role matrix**
  (`role_matrix.dfy`): the dimension filter and the per-cell activity filter
  or `find`. Also the first-match metric lookup loop, the colour tables, the
  details coverage, and the card, dimension and drawer handlers as classes.
  The click-to-toggle they share lives in `selection.dfy`.
- **Visualizations** (`visualizations.dfy`): the dimension-tab filter, the
  chart kind and colour guessed by substring search, and the time-range and
  team badges.
- **Case studies** (`case_studies.dfy`): the tab filter and the key-results
  list.
- Shared pieces (`common.dfy`, `text.dfy`):
  - `Math.round` as `Floor(x + 0.5)`;
  - JavaScript division with its infinities and NaN, where the source divides
    by a value that can be zero;
  - order-preserving filter, stable insertion sort, `Array.prototype.find`;
  - lower-casing, substring search and capitalisation.

Numbers are exact reals. The source's 32- or 64-bit floating point is not
modelled.

## Model

| member | source | states |
|---|---|---|
| Common.Round | src/artifacts/dx-core4-survey.tsx:159 | `Math.round`: the integer r with r <= x + 0.5 < r + 1 |
| Common.RoundMonotone | src/artifacts/dx-core4-survey.tsx:159 | rounding never reverses an order |
| Common.RoundBetween | src/artifacts/dx-core4-survey.tsx:159 | a value between two integers rounds to an integer between them |
| Common.RoundInteger | src/artifacts/dx-core4-survey.tsx:159 | an integer rounds to itself |
| Common.Divide | src/artifacts/dashboard.tsx:364 | JavaScript `/`: finite exactly for a nonzero divisor and then the true quotient; otherwise +Infinity, -Infinity or NaN by the numerator's sign |
| Common.Scale | src/artifacts/dashboard.tsx:498 | multiplying by a positive constant keeps finiteness and scales the finite value; infinities and NaN pass through |
| Common.Shift | src/artifacts/dashboard.tsx:498 | adding a constant changes only a finite value |
| Common.SubtractFrom | src/artifacts/dashboard.tsx:509 | `c - x` flips the infinities and keeps NaN |
| Common.RoundExtended | src/artifacts/dashboard.tsx:498 | `Math.round` on a finite value; infinities and NaN pass through |
| Common.Filter | src/artifacts/case-studies.tsx:164 | `Array.prototype.filter`: keeps exactly the elements passing the test, in order, as a subsequence no longer than the input |
| Common.FilterAll | src/artifacts/case-studies.tsx:162-163 | a filter every element passes returns the input unchanged |
| Common.FilterCount | src/artifacts/case-studies.tsx:164 | a filter keeps each passing element's multiplicity and drops the others |
| Common.InsertByKey | src/artifacts/dx-core4-survey.tsx:505 | inserting into a key-sorted sequence adds exactly that element and keeps the others |
| Common.InsertKeepsSorted | src/artifacts/dx-core4-survey.tsx:505 | insertion preserves key order |
| Common.SortByKey | src/artifacts/dx-core4-survey.tsx:503-506 | the sort result is a permutation of its input, ordered by key |
| Common.SortedPrefix | src/artifacts/dx-core4-survey.tsx:503-512 | the first k sorted elements are drawn from the input, and no element left out has a smaller key than one taken |
| Common.SplitSorted | src/artifacts/dx-core4-survey.tsx:506 | a sorted sequence splits into a prefix and a rest whose multisets add up to the whole, with every prefix key at most every rest key |
| Common.Find | src/artifacts/index.tsx:267 | `Array.prototype.find`: a found value is in the list and passes the test; nothing is found exactly when no element passes |
| Common.FindIsFirst | src/artifacts/index.tsx:267 | `find` returns the first passing element |
| Text.ToLower | src/artifacts/advanced-visualizations.tsx:37 | `toLowerCase` on ASCII: same length, every character lower-cased |
| Text.ToLowerIdempotent | src/artifacts/advanced-visualizations.tsx:37-40 | lower-casing twice is lower-casing once |
| Text.Contains | src/artifacts/advanced-visualizations.tsx:37-40 | `includes`: the empty string is always included, and a match is never longer than the string |
| Text.ContainsIffOccurs | src/artifacts/advanced-visualizations.tsx:33 | `includes` holds exactly when the substring occurs at some index |
| Text.ContainsSlice | src/artifacts/advanced-visualizations.tsx:33 | every slice of a string is included in it |
| Text.AbsentCharNoContains | src/artifacts/advanced-visualizations.tsx:33 | a string lacking the substring's first character does not include it |
| Text.NoPairNoContains | src/artifacts/advanced-visualizations.tsx:33 | a string never showing the substring's first two characters side by side does not include it |
| Text.Capitalize | src/artifacts/case-studies.tsx:218 | `charAt(0).toUpperCase() + slice(1)`: same length, first character upper-cased, the rest unchanged |
| Selection.Toggle | src/artifacts/index.tsx:210-216 | clicking the selected id clears the selection; clicking any other id selects it |
| Selection.ToggleTwice | src/artifacts/core4-implement-phases.tsx:433-439 | two clicks on the same id restore an empty selection or that id's selection; from another id's selection they clear it |
| Survey.EffectiveWeight | src/artifacts/dx-core4-survey.tsx:151 | `weight \|\| 1.0`: 1.0 when missing, the weight when positive, always positive for a non-negative weight |
| Survey.CalculateDxi | src/artifacts/dx-core4-survey.tsx:142-160 | the loop's result is the weighted-average DXI, 0 for an empty answer map |
| Survey.Dxi | src/artifacts/dx-core4-survey.tsx:142-160 | 0 for an empty answer map, and 0 whenever every question's rating is 0 |
| Survey.ZeroRatingsZeroSum | src/artifacts/dx-core4-survey.tsx:149-156 | ratings that are all 0 give a weighted sum of 0 |
| Survey.PrefixWellWeighted | src/artifacts/dx-core4-survey.tsx:149-156 | a prefix of a catalog with non-negative weights has non-negative weights |
| Survey.TotalWeightPositive | src/artifacts/dx-core4-survey.tsx:154 | the total weight is 0 for no questions and positive otherwise |
| Survey.NonNegativeProduct | src/artifacts/dx-core4-survey.tsx:153 | the product of two non-negative numbers is not negative |
| Survey.ContributionBounds | src/artifacts/dx-core4-survey.tsx:153 | a rating in 0..10 times its weight lies between 0 and 10 times the weight |
| Survey.AverageBounds | src/artifacts/dx-core4-survey.tsx:158 | a sum within 0..10 times a positive total averages to 0..10 |
| Survey.DivideMonotone | src/artifacts/dx-core4-survey.tsx:158 | division by a positive total keeps order |
| Survey.WeightedSumBounds | src/artifacts/dx-core4-survey.tsx:149-156 | with ratings in 0..10 the weighted sum is within 0..10 times the total weight |
| Survey.DxiRange | src/artifacts/dx-core4-survey.tsx:142-160 | with ratings in 0..10 the DXI is in 0..100 |
| Survey.WeightedSumUniform | src/artifacts/dx-core4-survey.tsx:149-156 | a uniform rating r gives a weighted sum of r times the total weight |
| Survey.DxiUniform | src/artifacts/dx-core4-survey.tsx:142-160 | every question rated r gives a DXI of exactly 10 * r |
| Survey.WeightedSumNonNegative | src/artifacts/dx-core4-survey.tsx:149-156 | non-negative ratings give a non-negative weighted sum |
| Survey.WeightedSumMonotone | src/artifacts/dx-core4-survey.tsx:149-156 | raising one answer never lowers the weighted sum |
| Survey.DxiMonotone | src/artifacts/dx-core4-survey.tsx:142-160 | raising one question's rating, the others fixed, never lowers the DXI |
| Survey.WeightedSumAgree | src/artifacts/dx-core4-survey.tsx:150 | answer maps that agree on the listed questions give the same weighted sum |
| Survey.UnansweredCountsAsZero | src/artifacts/dx-core4-survey.tsx:142-156 | an unanswered question gives exactly the DXI of an answer of 0, its weight staying in the denominator, whether or not other answers exist |
| Survey.CatalogShape | src/artifacts/dx-core4-survey.tsx:26-139 | the catalog has fourteen questions with distinct ids and non-negative weights |
| Survey.AllSevensGiveSeventy | src/artifacts/dx-core4-survey.tsx:142-160 | answering 7 everywhere gives a DXI of 70 |
| Survey.ScoreCategory | src/artifacts/dx-core4-survey.tsx:163-168 | each tier holds exactly its band, lower boundary included (80, 70, 50) |
| Survey.TierMonotone | src/artifacts/dx-core4-survey.tsx:163-168 | a higher score never gets a lower tier |
| Survey.TierLabel | src/artifacts/dx-core4-survey.tsx:163-168 | each of the four label strings names exactly one tier |
| Survey.ScoreLabel | src/artifacts/dx-core4-survey.tsx:163-168 | `getScoreCategory`: "Excellent" exactly from 80, "Good" exactly on 70..79, "Needs Improvement" exactly on 50..69, "Critical Attention Required" exactly below 50 |
| Survey.InCategoryMembers | src/artifacts/dx-core4-survey.tsx:252 | a category's questions are exactly the catalog questions of that category |
| Survey.Set | src/artifacts/dx-core4-survey.tsx:252-254 | updating one category's accumulator replaces exactly that accumulator |
| Survey.InCategorySnoc | src/artifacts/dx-core4-survey.tsx:248-255 | appending a question extends only its own category's list |
| Survey.WeightedSumSnoc | src/artifacts/dx-core4-survey.tsx:253-254 | appending a question adds its contribution and its weight |
| Survey.TallyStep | src/artifacts/dx-core4-survey.tsx:252-254 | one loop step adds the question to its own category's tally and to no other |
| Survey.TalliesSnoc | src/artifacts/dx-core4-survey.tsx:249-254 | appending a question adds it to the tally of its own category and leaves the other two tallies unchanged |
| Survey.TalliesStep | src/artifacts/dx-core4-survey.tsx:249-254 | one loop step (rating times weight onto the score, weight onto the total, dimension pushed) yields the accumulators of the longer prefix |
| Survey.GetCategoryScores | src/artifacts/dx-core4-survey.tsx:241-270 | the loop gives each category `round(10 * weighted average)` of its own questions (0 without weight) and its dimension names in catalog order |
| Survey.CategoryScore | src/artifacts/dx-core4-survey.tsx:252-263 | a category score is 0 when every question's rating is 0 |
| Survey.EmptyResultsScoreZero | src/artifacts/dx-core4-survey.tsx:142-160 | before any answer the DXI and every category score are 0 |
| Survey.CategoryScoreRange | src/artifacts/dx-core4-survey.tsx:258-263 | with ratings in 0..10 a category score lies in 0..100 |
| Survey.CategoryScoreLocal | src/artifacts/dx-core4-survey.tsx:252-253 | a category score depends only on the answers to that category's questions |
| Survey.EmptyCategoryScoresZero | src/artifacts/dx-core4-survey.tsx:258-263 | a category with no questions scores 0 |
| Survey.CategoriesPartition | src/artifacts/dx-core4-survey.tsx:264-268 | the three dimension lists together hold each catalog dimension exactly as often as the catalog does |
| Survey.DimensionListedInOwnCategory | src/artifacts/dx-core4-survey.tsx:254 | each question's dimension appears in its own category's list |
| Survey.SurveySession.constructor | src/artifacts/dx-core4-survey.tsx:18-22 | start on the intro tab at step 0 with no answers |
| Survey.SurveySession.CurrentQuestion | src/artifacts/dx-core4-survey.tsx:379 | the shown question is a catalog question |
| Survey.SurveySession.StartSurvey | src/artifacts/dx-core4-survey.tsx:364-369 | open the survey tab at step 0, answers kept |
| Survey.SurveySession.SelectRating | src/artifacts/dx-core4-survey.tsx:171-189 | record the rating, leave every other answer unchanged, then advance one step or open the results tab on the last question; a rating from the 0..10 buttons keeps every answer in 0..10 |
| Survey.SurveySession.Previous | src/artifacts/dx-core4-survey.tsx:454-460 | step back, or return to the intro tab from the first question; answers kept |
| Survey.SurveySession.Skip | src/artifacts/dx-core4-survey.tsx:466-475 | advance without an answer, or open the results tab on the last question |
| Survey.SurveySession.ViewResults | src/artifacts/dx-core4-survey.tsx:482-486 | open the results tab, nothing else changes |
| Survey.ImprovementAreas | src/artifacts/dx-core4-survey.tsx:503-506 | at most three questions scoring 5 or less (exactly min(3, candidates)), drawn from the candidates, ascending by score |
| Survey.Strengths | src/artifacts/dx-core4-survey.tsx:509-512 | at most three questions scoring 8 or more (exactly min(3, candidates)), drawn from the candidates, descending by score |
| Survey.ImprovementAreasAndStrengthsDisjoint | src/artifacts/dx-core4-survey.tsx:503-512 | no question is both an improvement area and a strength |
| Survey.ImprovementAreasAreLowest | src/artifacts/dx-core4-survey.tsx:503-506 | every candidate left out scores at least as much as every one chosen |
| Survey.StrengthsAreHighest | src/artifacts/dx-core4-survey.tsx:509-512 | every candidate left out scores at most as much as every one chosen |
| Dashboard.Trend | src/artifacts/dashboard.tsx:356-361 | 0 for fewer than two points, else the percent change from first to last; for a first point of 0, +Infinity, -Infinity or NaN as the last point is above, below or at 0 |
| Dashboard.MetricStatus | src/artifacts/dashboard.tsx:363-369 | a value equal to a nonzero benchmark is good; against a zero benchmark the status is excellent or at-risk |
| Dashboard.RatioCompare | src/artifacts/dashboard.tsx:364-368 | comparing current/benchmark with a constant is comparing current with the constant times a positive benchmark |
| Dashboard.MetricStatusBands | src/artifacts/dashboard.tsx:363-369 | for a positive benchmark: excellent from 1.1x, good from 1.0x, needs-attention from 0.9x, at-risk below, each band exactly |
| Dashboard.MetricStatusZeroBenchmark | src/artifacts/dashboard.tsx:363-369 | against a zero benchmark a positive value is excellent (ratio +Infinity) and anything else at-risk |
| Dashboard.ShouldInvert | src/artifacts/dashboard.tsx:449-466 | no impact metric is inverted |
| Dashboard.ShouldInvertExactly | src/artifacts/dashboard.tsx:449-466 | inverted exactly for the eight listed lower-is-better metrics |
| Dashboard.SecondaryLabel | src/artifacts/dashboard.tsx:381-413 | the table's label when present, else the raw metric key; never empty for a non-empty key |
| Dashboard.LabelFallback | src/artifacts/dashboard.tsx:381-447 | an unknown dimension gets the metric key as label and an empty unit |
| Dashboard.SecondaryUnit | src/artifacts/dashboard.tsx:415-447 | the unit is one of the table's units or empty, and empty for an unknown dimension |
| Dashboard.MetricDescription | src/artifacts/dashboard.tsx:371-379 | non-empty exactly for the four dimensions |
| Dashboard.DivideExtended | src/artifacts/dashboard.tsx:323-326 | dividing an already divided value divides a finite one and keeps NaN |
| Dashboard.CalculateSpeed | src/artifacts/dashboard.tsx:323-326 | (prs / engineers) / period is finite exactly for nonzero divisors, and then times both divisors gives prs |
| Dashboard.CalculatePlainDxi | src/artifacts/dashboard.tsx:329-334 | NaN for no scores, else the mean (times the count gives the sum) |
| Dashboard.SumBounds | src/artifacts/dashboard.tsx:332 | the sum of n scores within lo..hi is within n*lo..n*hi |
| Dashboard.PlainDxiBounds | src/artifacts/dashboard.tsx:329-334 | the mean of scores within lo..hi is finite and within lo..hi |
| Dashboard.CalculateQuality | src/artifacts/dashboard.tsx:337-340 | 100 minus the failure percentage for nonzero deployments; with zero deployments -Infinity for failures above 0, +Infinity below 0 and NaN for 0 |
| Dashboard.CalculateImpact | src/artifacts/dashboard.tsx:343-345 | the feature-hours percentage for nonzero hours; with zero hours +Infinity for feature hours above 0, -Infinity below 0 and NaN for 0 |
| Dashboard.PercentOfWhole | src/artifacts/dashboard.tsx:338 | a part of a positive whole is 0..100 percent of it |
| Dashboard.QualityAndImpactRange | src/artifacts/dashboard.tsx:337-345 | for a part of a positive whole both results lie in 0..100 and add up to 100 |
| Dashboard.CalculateDxiRoi | src/artifacts/dashboard.tsx:348-352 | no gain, no developers, no time per point or no hourly rate saves nothing |
| Dashboard.CalculateRoi | src/artifacts/dashboard.tsx:469-475 | an unchanged effectiveness score saves nothing |
| Dashboard.RoiIsDxiRoi | src/artifacts/dashboard.tsx:469-475 | `calculateRoi` is `calculateDXIRoi` of the effectiveness gain with 13 minutes per point |
| Dashboard.DxiRoiMonotone | src/artifacts/dashboard.tsx:348-352 | no gain saves nothing, and with non-negative factors a larger gain saves at least as much |
| Dashboard.CalculateTotalRoi | src/artifacts/dashboard.tsx:940-946 | 0 without an ROI block |
| Dashboard.TotalRoiIsSumOfCards | src/artifacts/dashboard.tsx:940-946 | the total is the sum of the three cards, missing ones as 0, and with non-negative cards no card exceeds it |
| Dashboard.CompareCorrected | src/artifacts/dashboard.tsx:621-629 | the intended comparator orders by (severity, negative first) rank: negative, zero or positive exactly as the ranks compare |
| Dashboard.CompareAsWritten | src/artifacts/dashboard.tsx:621-629 | the comparator as written answers -1, 0 or 1, and 0 exactly for records of the same severity and type |
| Dashboard.ComparatorInconsistent | src/artifacts/dashboard.tsx:625-627 | the comparator as written answers 1 both ways for a positive and a warning record of the same severity |
| Dashboard.CorrectedComparatorAgrees | src/artifacts/dashboard.tsx:621-629 | the corrected comparator agrees with the written one except between positive and warning, which it ties |
| Dashboard.CorrectedComparatorConsistent | src/artifacts/dashboard.tsx:621-629 | the corrected comparator is antisymmetric and transitive |
| Dashboard.SortInsights | src/artifacts/dashboard.tsx:621-629 | the sorted records are a permutation of the pushed ones; high before medium, and within a severity negative before the rest |
| Dashboard.PrimaryInsightsFor | src/artifacts/dashboard.tsx:493-534 | one dimension yields at most four records, all of that dimension, naming no metric and never warnings |
| Dashboard.SecondaryInsightsFor | src/artifacts/dashboard.tsx:540-575 | one metric yields at most two medium records of its dimension naming that metric, never warnings |
| Dashboard.BalanceInsights | src/artifacts/dashboard.tsx:579-597 | at most two records, each the high balance warning |
| Dashboard.RoiInsights | src/artifacts/dashboard.tsx:600-618 | at most two records, all positive and high, naming no metric |
| Dashboard.Records | src/artifacts/dashboard.tsx:487-618 | a record is pushed exactly when it is a primary, secondary, balance or ROI record |
| Dashboard.PushPrimaryInsights | src/artifacts/dashboard.tsx:493-534 | one dimension's pushes append exactly its deviation and trend records |
| Dashboard.PushSecondaryInsights | src/artifacts/dashboard.tsx:540-575 | one metric's pushes append exactly its better and worse records |
| Dashboard.PushGroupInsights | src/artifacts/dashboard.tsx:539-576 | the inner loop appends exactly its dimension's secondary records |
| Dashboard.GroupInsightsStep | src/artifacts/dashboard.tsx:539-576 | one inner-loop step extends the dimension's records by that metric's |
| Dashboard.PrimaryInsightsStep | src/artifacts/dashboard.tsx:487-535 | one outer-loop step extends the primary records by that dimension's |
| Dashboard.SecondaryInsightsStep | src/artifacts/dashboard.tsx:538-577 | one outer-loop step extends the secondary records by that group's |
| Dashboard.PushBalanceAndRoiInsights | src/artifacts/dashboard.tsx:578-618 | the balance checks and the ROI block append exactly the balance warnings and the ROI records |
| Dashboard.GenerateInsights | src/artifacts/dashboard.tsx:478-632 | the pushed-then-sorted list is the sorted rule records: a permutation of them in severity/negative-first order |
| Dashboard.PrimaryRulesExclusive | src/artifacts/dashboard.tsx:493-534 | for a positive benchmark at most one high and at most one medium record per dimension; the positive and negative deviation records appear exactly above 1.1x and below 0.9x; the trend records exactly above +10 and below -10; no warnings |
| Dashboard.DeviationFigureAtLeastTen | src/artifacts/dashboard.tsx:498-509 | a deviation record's rounded percentage is at least 10 |
| Dashboard.SecondaryRulesExclusive | src/artifacts/dashboard.tsx:546-575 | for a positive benchmark a metric is never both better and worse, so it yields at most one record |
| Dashboard.InversionFlips | src/artifacts/dashboard.tsx:546-553 | an inverted metric's better condition is the plain worse condition, and the reverse |
| Dashboard.NegativeBenchmarkOverlap | src/artifacts/dashboard.tsx:546-575 | for a negative benchmark a metric can be better and worse at once, yielding two records |
| Dashboard.ChangeFailureRateExample | src/artifacts/dashboard.tsx:546-564 | change failure rate 3.8 against 5.2 yields one positive record |
| Dashboard.BalanceRules | src/artifacts/dashboard.tsx:579-597 | balance warnings are one per true hard-coded conjunction, and nothing else |
| Dashboard.RoiRules | src/artifacts/dashboard.tsx:600-618 | no ROI records without an ROI block; one, or two with a nonzero failure-cost reduction; all positive and high |
| Dashboard.SecondaryInsightsShape | src/artifacts/dashboard.tsx:538-577 | secondary records are medium, name a metric and are never warnings |
| Dashboard.GroupInsightsShape | src/artifacts/dashboard.tsx:539-576 | a group's records also carry the group's dimension |
| Dashboard.WarningsAreBalance | src/artifacts/dashboard.tsx:478-619 | every warning record is a balance record |
| Dashboard.PrimaryNoWarnings | src/artifacts/dashboard.tsx:487-535 | primary records are never warnings and name no metric |
| Dashboard.SampleAnnualSavingsDisagrees | src/artifacts/dashboard.tsx:294 | the sample inputs give 127764 by the formula beside them, not the stored 145152 |
| Dashboard.DerivedRoi | src/artifacts/dashboard.tsx:289-294 | the ROI block with annual savings computed by `calculateDXIRoi` from its own inputs; the gain, developer count, time per point, hourly rate and every other field unchanged |
| Dashboard.SampleTotalRoiDerived | src/artifacts/dashboard.tsx:940-946 | the derived sample totals 346564, where the stored one totals 363952 |
| Tutorial.AllSteps | src/artifacts/interactive-tutorial.tsx:1196 | `flatMap` of the phases' steps has the total step count |
| Tutorial.StepCountAppend | src/artifacts/interactive-tutorial.tsx:1167 | the step count of joined phase lists is the sum of their counts |
| Tutorial.StepCount | src/artifacts/interactive-tutorial.tsx:1167 | the total is at least every phase's own step count |
| Tutorial.AllStepsAppend | src/artifacts/interactive-tutorial.tsx:1196 | flattening joined phase lists joins their flattenings |
| Tutorial.AllStepsLocate | src/artifacts/interactive-tutorial.tsx:1167-1168 | the steps before a phase plus the step index locate that step in the flattened list |
| Tutorial.CompletedSteps | src/artifacts/interactive-tutorial.tsx:1167-1168 | at a valid position, 1..total, and the step it counts up to is the current step |
| Tutorial.ShippedTable | src/artifacts/interactive-tutorial.tsx:33-1151 | the shipped table has non-empty phases, a valid quiz on every step, 10 steps and distinct step ids |
| Tutorial.ShippedIds | src/artifacts/interactive-tutorial.tsx:33-1151 | the shipped step ids, in order, are distinct |
| Tutorial.ShippedSteps | src/artifacts/interactive-tutorial.tsx:33-1151 | the shipped steps are the three phases' steps in order; each quiz's correct index is one of its options |
| Tutorial.StepCountPrefix | src/artifacts/interactive-tutorial.tsx:1168 | the steps before a phase plus that phase's make the steps through it, and the rest complete the total |
| Tutorial.StepCountAtLeastLength | src/artifacts/interactive-tutorial.tsx:1167 | phases with steps have at least one step each in the total |
| Tutorial.CompletedStepsBounds | src/artifacts/interactive-tutorial.tsx:1167-1168 | completed steps are 1..total, equal to the total exactly at the final step |
| Tutorial.Progress | src/artifacts/interactive-tutorial.tsx:1171-1173 | progress lies in (0, 100] and is 100 exactly at the final step |
| Tutorial.RatioAtMostOne | src/artifacts/interactive-tutorial.tsx:1172 | a positive part of a whole is a ratio in (0, 1], 1 exactly for the whole |
| Tutorial.NextPosition | src/artifacts/interactive-tutorial.tsx:1176-1186 | Next stays on a valid position |
| Tutorial.PreviousPosition | src/artifacts/interactive-tutorial.tsx:1342-1350 | Previous stays on a valid position |
| Tutorial.NextAdvancesByOne | src/artifacts/interactive-tutorial.tsx:1176-1186 | Next stays put exactly at the final step and otherwise completes exactly one more step |
| Tutorial.PreviousRetreatsByOne | src/artifacts/interactive-tutorial.tsx:1342-1351 | Previous stays put exactly at the first step and otherwise completes exactly one step fewer |
| Tutorial.NextPreviousInverse | src/artifacts/interactive-tutorial.tsx:1176-1186 | Next then Previous returns to the start except at the final step; Previous then Next, except at the first |
| Tutorial.CompletedStepsInjective | src/artifacts/interactive-tutorial.tsx:1168 | two positions with the same completed-step count are the same |
| Tutorial.StepCountMonotone | src/artifacts/interactive-tutorial.tsx:1168 | more leading phases never count fewer steps |
| Tutorial.StepInAllSteps | src/artifacts/interactive-tutorial.tsx:1196 | every step of every phase is in the flattened list |
| Tutorial.UnansweredIsIncorrect | src/artifacts/interactive-tutorial.tsx:1195-1198 | with quizzes everywhere, an existing but unanswered step is not correct |
| Tutorial.CorrectIndexOf | src/artifacts/interactive-tutorial.tsx:1195-1197 | a correct index found belongs to a quiz step with that id; an id no step has finds none |
| Tutorial.CorrectIndexOfStep | src/artifacts/interactive-tutorial.tsx:1195-1197 | with distinct step ids, the quiz step at a valid position yields exactly its own correct index |
| Tutorial.TutorialSession.constructor | src/artifacts/interactive-tutorial.tsx:1154-1158 | start at the first step of the first phase with no answers and no explanations |
| Tutorial.TutorialSession.CurrentStep | src/artifacts/interactive-tutorial.tsx:1161-1164 | the current step is one of the tutorial's steps |
| Tutorial.TutorialSession.NextStep | src/artifacts/interactive-tutorial.tsx:1176-1186 | the position becomes the Next position; answers and explanations unchanged |
| Tutorial.TutorialSession.PreviousStep | src/artifacts/interactive-tutorial.tsx:1342-1350 | the position becomes the Previous position; answers and explanations unchanged |
| Tutorial.TutorialSession.SelectPhase | src/artifacts/interactive-tutorial.tsx:1232-1235 | a phase click selects that phase's first step, one past the earlier phases' steps |
| Tutorial.TutorialSession.SelectStep | src/artifacts/interactive-tutorial.tsx:1255 | a step click selects that step of the current phase |
| Tutorial.TutorialSession.PreviousDisabled | src/artifacts/interactive-tutorial.tsx:1351 | Previous is disabled exactly where it would not move, and otherwise moves back one completed step |
| Tutorial.TutorialSession.NextDisabled | src/artifacts/interactive-tutorial.tsx:1358-1362 | Next is disabled exactly at the final step or on a quiz step not yet answered; when enabled it completes exactly one more step |
| Tutorial.TutorialSession.HandleQuizAnswer | src/artifacts/interactive-tutorial.tsx:1189-1192 | records the answer and shows the explanation for that step only; other steps and the position unchanged |
| Tutorial.TutorialSession.ClickAnswer | src/artifacts/interactive-tutorial.tsx:1308-1311 | an answer button records only while the step is unanswered, so the first answer sticks |
| Tutorial.TutorialSession.IsAnswerCorrect | src/artifacts/interactive-tutorial.tsx:1195-1198 | for a quiz step: correct exactly when the recorded answer equals the correct index; otherwise true exactly when nothing is recorded (`undefined === undefined`) |
| Tutorial.AnswerCorrectAtStep | src/artifacts/interactive-tutorial.tsx:1195-1198 | with distinct step ids, a quiz step is reported correct exactly when its recorded answer is its quiz's correct index |
| ImplementPhases.FilteredActivities | src/artifacts/core4-implement-phases.tsx:451-453 | no (or an empty) dimension gives every activity; a dimension gives exactly the activities listing it, in order |
| ImplementPhases.Cell | src/artifacts/core4-implement-phases.tsx:592 | a cell shows exactly the filtered activities of its phase and stakeholder, in order |
| ImplementPhases.CellsCoverFiltered | src/artifacts/core4-implement-phases.tsx:592 | when activities lie on the grid, the union of the cells is exactly the filtered list |
| ImplementPhases.ShippedActivities | src/artifacts/core4-implement-phases.tsx:197-305 | every shipped activity lies on the grid and has a details entry; the extra entry a19 has no activity |
| ImplementPhases.DimensionColour | src/artifacts/core4-implement-phases.tsx:456-464 | gray exactly for an id that is none of the four dimensions |
| ImplementPhases.DimensionColoursDistinct | src/artifacts/core4-implement-phases.tsx:456-464 | the four dimensions get four different colours |
| ImplementPhases.GetMetricDimension | src/artifacts/core4-implement-phases.tsx:482-489 | the id of the first dimension naming the metric as key or secondary metric, or '' when none does |
| ImplementPhases.MetricColour | src/artifacts/core4-implement-phases.tsx:634-635 | a metric is gray exactly when no dimension lists it, otherwise it has the first listing dimension's colour |
| ImplementPhases.Drawer | src/artifacts/core4-implement-phases.tsx:385-387 | the drawer has content exactly for a metric with a details entry |
| ImplementPhases.KeyMetricsHaveNoDrawer | src/artifacts/core4-implement-phases.tsx:349-381 | no key metric has details; "Lead time" and "Ease of delivery" do, and are listed by speed and effectiveness |
| ImplementPhases.RolesPage.constructor | src/artifacts/core4-implement-phases.tsx:30-33 | the roles tab, nothing expanded, filtered or selected |
| ImplementPhases.RolesPage.SelectTab | src/artifacts/core4-implement-phases.tsx:504-519 | the tab changes, the selections do not |
| ImplementPhases.RolesPage.CardClick | src/artifacts/core4-implement-phases.tsx:433-439 | the expanded card toggles; the rest unchanged |
| ImplementPhases.RolesPage.DimensionClick | src/artifacts/core4-implement-phases.tsx:442-448 | the active dimension toggles; the rest unchanged |
| ImplementPhases.RolesPage.ClearFilter | src/artifacts/core4-implement-phases.tsx:541-546 | no dimension is active afterwards (so `FilteredActivities` shows every activity) and the card, tab and drawer state are unchanged |
| ImplementPhases.RolesPage.MetricClick | src/artifacts/core4-implement-phases.tsx:492-494 | selects the metric for the drawer |
| ImplementPhases.RolesPage.CloseDrawer | src/artifacts/core4-implement-phases.tsx:870 | clears the selected metric |
| ImplementPhases.RolesPage.DrawerShown | src/artifacts/core4-implement-phases.tsx:867-871 | the drawer renders exactly for a selected metric with a details entry |
| RoleMatrix.CellActivity | src/artifacts/index.tsx:267 | a cell's activity lies in that cell; there is none exactly when no activity does |
| RoleMatrix.PhaseLine | src/artifacts/index.tsx:355-359 | the cell's description, or "No direct activity" for an empty cell |
| RoleMatrix.CellActivityFindsEach | src/artifacts/index.tsx:267 | in an unambiguous table each activity is found in its own cell |
| RoleMatrix.CellNumber | src/artifacts/index.tsx:18-100 | a cell's grid position is below 20 |
| RoleMatrix.IncreasingIsUnambiguous | src/artifacts/index.tsx:103-131 | activities listed in strictly increasing grid order never share a cell |
| RoleMatrix.ShippedTable | src/artifacts/index.tsx:103-131 | the shipped table has at most one activity per cell |
| RoleMatrix.ShippedDetails | src/artifacts/index.tsx:134-207 | every shipped activity has a details entry |
| RoleMatrix.HeadOfDepartmentGaps | src/artifacts/index.tsx:105-130 | s1 has no activity in p2 or p4, so the metrics tab shows "No direct activity" there |
| RoleMatrix.MetricColour | src/artifacts/index.tsx:291-300 | every listed stakeholder gets a colour other than the gray default |
| RoleMatrix.StakeholderColoursDistinct | src/artifacts/index.tsx:291-300 | the five stakeholders get five different colours |
| RoleMatrix.MatrixPage.constructor | src/artifacts/index.tsx:14-15 | the roles tab, nothing expanded |
| RoleMatrix.MatrixPage.CardClick | src/artifacts/index.tsx:210-216 | the expanded card toggles; the tab unchanged |
| RoleMatrix.MatrixPage.SelectTab | src/artifacts/index.tsx:227-238 | the tab changes, the expanded card does not |
| RoleMatrix.MatrixPage.Expanded | src/artifacts/index.tsx:283-286 | a card shows expanded exactly in a cell with an activity whose id is the expanded card, and then its details entry exists |
| Visualizations.FilteredVisualizations | src/artifacts/advanced-visualizations.tsx:180-190 | "recommended" gives exactly the recommended configs, "all" the list unchanged, a dimension exactly its own and the multi configs; always an ordered subsequence |
| Visualizations.MultiUnderEveryDimensionTab | src/artifacts/advanced-visualizations.tsx:187-189 | a multi config appears under every tab but "recommended" |
| Visualizations.ChartKind | src/artifacts/advanced-visualizations.tsx:33 | line exactly when the type includes "line", bar when it includes "bar" but not "line", pie otherwise |
| Visualizations.LineTypes | src/artifacts/advanced-visualizations.tsx:33 | "line-chart" gets the line icon |
| Visualizations.BarTypes | src/artifacts/advanced-visualizations.tsx:33 | "bar-chart" and "stacked-bar-chart" get the bar icon |
| Visualizations.PieTypes | src/artifacts/advanced-visualizations.tsx:33 | scatter-chart, heatmap and combo-chart fall through to pie |
| Visualizations.OtherPieTypes | src/artifacts/advanced-visualizations.tsx:33 | area-chart, treemap and radar-chart fall through to pie |
| Visualizations.CorrelationMatrixIsPie | src/artifacts/advanced-visualizations.tsx:33 | correlation-matrix falls through to pie |
| Visualizations.ChartColour | src/artifacts/advanced-visualizations.tsx:36-40 | the colour of the first of speed, effectiveness, quality, impact that the lower-cased title includes, each exactly; mixed exactly when it includes none of the four |
| Visualizations.ColourIgnoresCase | src/artifacts/advanced-visualizations.tsx:37-40 | lower-casing the title first changes no colour |
| Visualizations.TimeRangeLabel | src/artifacts/advanced-visualizations.tsx:295-298 | "Custom Range" exactly for a range other than 30d, 90d, 6m and 1y |
| Visualizations.TeamLabel | src/artifacts/advanced-visualizations.tsx:292 | "All Teams" for all, else the team name capitalised followed by " Team" |
| Visualizations.TimeRangeBadgeMatchesOption | src/artifacts/advanced-visualizations.tsx:245-249 | each range option's badge repeats the option's label |
| Visualizations.TeamBadgeMatchesOption | src/artifacts/advanced-visualizations.tsx:264 | the frontend badge repeats "Frontend Team" |
| CaseStudies.FilteredStudies | src/artifacts/case-studies.tsx:162-164 | "all" gives every study unchanged; a dimension gives exactly the studies listing it, in order |
| CaseStudies.FilterKeepsEachStudy | src/artifacts/case-studies.tsx:164 | a dimension filter keeps every listing study as often as it occurs and drops the others |
| CaseStudies.AllDimensionsUnderEveryTab | src/artifacts/case-studies.tsx:179-184 | a study listing all four dimensions appears under every tab |
| CaseStudies.ShippedBalancedEverywhere | src/artifacts/case-studies.tsx:128 | gaming-balanced appears under every tab; shipped studies list only the four dimensions |
| CaseStudies.KeyResults | src/artifacts/case-studies.tsx:217-220 | one line per listed dimension showing its result, headed by the dimension with its first letter upper-cased, then the ROI line |
| CaseStudies.BadgeLabel | src/artifacts/case-studies.tsx:145-150 | a badge label exists exactly for the four dimensions |
| CaseStudies.CapitalizedIsBadge | src/artifacts/case-studies.tsx:145-150 | each of the four dimension names, first letter upper-cased, is its badge label |
| CaseStudies.HeadingMatchesBadge | src/artifacts/case-studies.tsx:218 | for each of the four dimensions the key-result heading reads the same as its badge |
| CaseStudies.KeyResultsFieldsDistinct | src/artifacts/case-studies.tsx:217-220 | a study listing each dimension once shows each result at most once |

## Left out

- Rendering: JSX, Tailwind classes, recharts, icons, `Layout` and the UI components. Question, phase and step texts, descriptions, explanations and insight messages are dropped. The `dangerouslySetInnerHTML` tutorial content is dropped too.
- The survey's webhook `fetch`, its submission status and the auto-submit effect: network I/O. The 300 ms `setTimeout` in `handleRatingSelect` is modelled as an immediate step. The team-name field is not modelled.
- The survey's tab bar (Introduction, Survey and Results buttons, dx-core4-survey.tsx:771-800) and the redirect when the step names no question (379-385): `SurveySession.Valid` keeps the step on a question instead.
- React scheduling: hook state is a class's fields and each handler one method call. Progress is a function of the position rather than a state set by an effect.
- The radar-chart data and the dashboard's chart series, the random mock DXI component scores (`Math.random`), `toLocaleString` / `toFixed` formatting, and the DOM `mousedown` listener.
- Floating point: numbers are exact reals, and comparisons at exact float boundaries (a value of exactly 1.1 times the benchmark) follow exact arithmetic.
- Dashboard.SortInsights: `Array.prototype.sort` with the comparator as written has no defined result, because the comparator is inconsistent. The model sorts stably by the corrected comparator and promises only its weak order. No order between positive and warning records is claimed.
- Dashboard data is modelled as records with the four fixed primary dimensions and ordered secondary groups. `Object.keys` order is taken as the listed order.
- RoleMatrix: phase and stakeholder ids are enumerations rather than strings. The descriptions, titles and details texts are dropped; only the details table's keys are kept.
- Selection.ToggleTwice: toggling twice restores the state only from no selection or from that id's selection. From another id's selection the second click clears it, so the toggle is not an involution on every state.
- Visualizations.ChartColour: the colour follows the title, not the config's dimension. For example the "PR Size Impact on Lead Time" config is filed under speed but gets the impact colour. No lemma over the shipped configs states this.
- Visualizations.TeamBadgeMatchesOption: only the frontend option is stated; the other teams follow from TeamLabel.
- Text: `toLowerCase` and `toUpperCase` are modelled on ASCII letters only.
- The case studies' result texts, testimonials and badge colours: only the ids and dimension lists are modelled.

## Findings

| source | as written | input that shows it | evidently intended | confidence | as-written member | corrected member |
|---|---|---|---|---|---|---|
| src/artifacts/dashboard.tsx:621-629 | between a positive and a warning record of the same severity the comparator returns 1 both ways | a high positive ROI record and a high balance warning | a consistent order (ties between non-negative kinds) | not executed | Dashboard.ComparatorInconsistent | Dashboard.CorrectedComparatorConsistent |
| src/artifacts/dashboard.tsx:294 | the sample `annualSavings` is 145152, while the formula beside it gives 127764 | 7 points, 18 developers, 13 min/week, $90/hour | the savings derived from the inputs | not executed | Dashboard.SampleAnnualSavingsDisagrees | Dashboard.SampleTotalRoiDerived |

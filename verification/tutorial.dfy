/** The interactive tutorial: three phases of steps, a position that moves
    forward and back through them, a progress bar derived from the position,
    and a knowledge-check quiz on each step whose first answer is kept.

    The page stores the active phase and step by id and recovers their
    indices with `findIndex`; the ids are distinct (`ShippedTable`), so the
    model stores the indices directly. */
module Tutorial {
  import opened Common

  datatype Quiz = Quiz(optionCount: nat, correctIndex: nat)
  datatype Step = Step(id: string, quiz: Option<Quiz>)
  datatype Phase = Phase(id: string, steps: seq<Step>)

  /** The shipped `tutorialPhases` table (titles, content and tips left out). */
  const Phases: seq<Phase> := [
    Phase("preparation", [
      Step("understand-framework", Some(Quiz(4, 1))),
      Step("assess-current-state", Some(Quiz(4, 2))),
      Step("establish-goals", Some(Quiz(4, 2)))]),
    Phase("implementation", [
      Step("speed-improvements", Some(Quiz(4, 1))),
      Step("effectiveness-improvements", Some(Quiz(4, 2))),
      Step("quality-improvements", Some(Quiz(4, 2))),
      Step("impact-improvements", Some(Quiz(4, 2)))]),
    Phase("measurement", [
      Step("metrics-dashboards", Some(Quiz(4, 3))),
      Step("regular-reviews", Some(Quiz(4, 2))),
      Step("roi-calculation", Some(Quiz(4, 1)))])
  ]

  /** The page reads `steps[0]` of every phase, so no phase may be empty. */
  predicate WellFormed(phases: seq<Phase>) {
    |phases| > 0 && forall i :: 0 <= i < |phases| ==> |phases[i].steps| > 0
  }

  /** Every step carries a quiz whose correct answer is one of its options. */
  predicate AllQuizzed(phases: seq<Phase>) {
    forall s :: s in AllSteps(phases) ==> s.quiz.Some? && s.quiz.value.correctIndex < s.quiz.value.optionCount
  }

  /** `tutorialPhases.flatMap(phase => phase.steps)`. */
  function AllSteps(phases: seq<Phase>): (r: seq<Step>)
    ensures |r| == StepCount(phases)
  {
    if |phases| == 0 then []
    else AllSteps(phases[..|phases| - 1]) + phases[|phases| - 1].steps
  }

  /** The number of steps in `phases`: the `reduce` behind `totalSteps`. */
  function StepCount(phases: seq<Phase>): (n: nat)
    ensures forall i :: 0 <= i < |phases| ==> |phases[i].steps| <= n
  {
    if |phases| == 0 then 0 else StepCount(phases[..|phases| - 1]) + |phases[|phases| - 1].steps|
  }

  /** The step counts of two runs of phases add up. */
  lemma {:induction false} StepCountAppend(a: seq<Phase>, b: seq<Phase>)
    ensures StepCount(a + b) == StepCount(a) + StepCount(b)
  {
    if |b| > 0 {
      assert (a + b)[..|a + b| - 1] == a + b[..|b| - 1];
      StepCountAppend(a, b[..|b| - 1]);
    } else {
      assert a + b == a;
    }
  }

  /** The step ids of the table are pairwise distinct, so an id names one step. */
  predicate DistinctIds(steps: seq<Step>) {
    forall i, j :: 0 <= i < j < |steps| ==> steps[i].id != steps[j].id
  }

  /** The shipped table: three non-empty phases, ten steps with distinct ids,
      each with a four-option quiz. */
  lemma ShippedTable()
    ensures WellFormed(Phases) && AllQuizzed(Phases)
    ensures StepCount(Phases) == 10
    ensures DistinctIds(AllSteps(Phases))
  {
    ShippedSteps();
    ShippedIds();
  }

  /** The ids of the flattened shipped table, in order. */
  lemma ShippedIds()
    ensures var all := Phases[0].steps + Phases[1].steps + Phases[2].steps;
      |all| == 10 && DistinctIds(all)
  {
    var all := Phases[0].steps + Phases[1].steps + Phases[2].steps;
    var ids := seq(|all|, i requires 0 <= i < |all| => all[i].id);
    assert ids == [
      "understand-framework", "assess-current-state", "establish-goals",
      "speed-improvements", "effectiveness-improvements", "quality-improvements", "impact-improvements",
      "metrics-dashboards", "regular-reviews", "roi-calculation"];
    assert forall i, j :: 0 <= i < j < |ids| ==> ids[i] != ids[j];
    DistinctIdsFrom(all, ids);
  }

  lemma DistinctIdsFrom(steps: seq<Step>, ids: seq<string>)
    requires |ids| == |steps| && forall i :: 0 <= i < |steps| ==> ids[i] == steps[i].id
    requires forall i, j :: 0 <= i < j < |ids| ==> ids[i] != ids[j]
    ensures DistinctIds(steps)
  {
  }

  /** The flattened shipped table, phase by phase. */
  lemma ShippedSteps()
    ensures AllSteps(Phases) == Phases[0].steps + Phases[1].steps + Phases[2].steps
    ensures WellFormed(Phases) && AllQuizzed(Phases) && StepCount(Phases) == 10
  {
    assert Phases[..3] == Phases;
    assert Phases[..3][..2] == Phases[..2];
    assert Phases[..2][..1] == Phases[..1];
    assert Phases[..1][..0] == [];
    var all := Phases[0].steps + Phases[1].steps + Phases[2].steps;
    assert AllSteps(Phases) == all;
    assert forall k :: 0 <= k < |all| ==> all[k].quiz.Some? && all[k].quiz.value.correctIndex < all[k].quiz.value.optionCount;
  }

  /** The tutorial's position: indices of the active phase and step. */
  datatype Position = Position(phase: nat, step: nat)

  predicate ValidPosition(phases: seq<Phase>, pos: Position) {
    pos.phase < |phases| && pos.step < |phases[pos.phase].steps|
  }

  /** The last step of the last phase, where the tutorial ends. */
  predicate IsFinal(phases: seq<Phase>, pos: Position) {
    pos.phase == |phases| - 1 && pos.step + 1 == |phases[pos.phase].steps|
  }

  /** The first step of the first phase. */
  predicate IsFirst(pos: Position) {
    pos.phase == 0 && pos.step == 0
  }

  /** `completedSteps`: the steps of the earlier phases, plus the steps up to
      and including the current one. */
  function CompletedSteps(phases: seq<Phase>, pos: Position): (n: nat)
    requires pos.phase <= |phases|
    ensures ValidPosition(phases, pos) ==>
      1 <= n <= |AllSteps(phases)| && AllSteps(phases)[n - 1] == phases[pos.phase].steps[pos.step]
  {
    AllStepsLocate(phases, pos);
    StepCount(phases[..pos.phase]) + pos.step + 1
  }

  /** The flattened steps of joined phase lists are the joined flattened steps. */
  lemma {:induction false} AllStepsAppend(a: seq<Phase>, b: seq<Phase>)
    ensures AllSteps(a + b) == AllSteps(a) + AllSteps(b)
  {
    if |b| == 0 {
      assert a + b == a;
    } else {
      var init, last := b[..|b| - 1], b[|b| - 1];
      assert (a + b)[..|a + b| - 1] == a + init && (a + b)[|a + b| - 1] == last;
      AllStepsAppend(a, init);
      assert AllSteps(b) == AllSteps(init) + last.steps;
    }
  }

  /** The current step sits in the flattened list right after the steps of
      the earlier phases. */
  lemma AllStepsLocate(phases: seq<Phase>, pos: Position)
    requires pos.phase <= |phases|
    ensures ValidPosition(phases, pos) ==>
      var k := StepCount(phases[..pos.phase]) + pos.step;
      k < |AllSteps(phases)| && AllSteps(phases)[k] == phases[pos.phase].steps[pos.step]
  {
    if ValidPosition(phases, pos) {
      var p := pos.phase;
      var through, rest := phases[..p + 1], phases[p + 1..];
      assert through[..p] == phases[..p] && through[p] == phases[p];
      assert through + rest == phases;
      AllStepsAppend(through, rest);
      var before, here := AllSteps(phases[..p]), phases[p].steps;
      assert AllSteps(through) == before + here;
      assert |before| == StepCount(phases[..p]);
      assert AllSteps(phases) == before + here + AllSteps(rest);
      assert (before + here + AllSteps(rest))[|before| + pos.step] == here[pos.step];
    }
  }

  /** The steps of a prefix of the phases never exceed those of all of them,
      and the prefix up to a phase leaves room for that phase's own steps. */
  lemma {:induction false} StepCountPrefix(phases: seq<Phase>, p: nat)
    requires p < |phases|
    ensures StepCount(phases[..p]) + |phases[p].steps| == StepCount(phases[..p + 1])
    ensures StepCount(phases[..p + 1]) + StepCount(phases[p + 1..]) == StepCount(phases)
  {
    assert phases[..p + 1][..p] == phases[..p];
    assert phases[..p + 1] + phases[p + 1..] == phases;
    StepCountAppend(phases[..p + 1], phases[p + 1..]);
  }

  /** A well-formed run of phases has at least one step per phase. */
  lemma {:induction false} StepCountAtLeastLength(phases: seq<Phase>)
    requires forall i :: 0 <= i < |phases| ==> |phases[i].steps| > 0
    ensures StepCount(phases) >= |phases|
  {
    if |phases| > 0 {
      StepCountAtLeastLength(phases[..|phases| - 1]);
    }
  }

  /** From any position, 1 <= completed <= total, and completed reaches the
      total exactly at the final step. */
  lemma CompletedStepsBounds(phases: seq<Phase>, pos: Position)
    requires WellFormed(phases) && ValidPosition(phases, pos)
    ensures 1 <= CompletedSteps(phases, pos) <= StepCount(phases)
    ensures CompletedSteps(phases, pos) == StepCount(phases) <==> IsFinal(phases, pos)
  {
    StepCountPrefix(phases, pos.phase);
    var later := phases[pos.phase + 1..];
    forall i | 0 <= i < |later| ensures |later[i].steps| > 0 {
      assert later[i] == phases[pos.phase + 1 + i];
    }
    StepCountAtLeastLength(later);
  }

  /** The progress bar: `completedSteps / totalSteps * 100`. */
  function Progress(phases: seq<Phase>, pos: Position): (r: real)
    requires WellFormed(phases) && ValidPosition(phases, pos)
    ensures 0.0 < r <= 100.0
    ensures r == 100.0 <==> IsFinal(phases, pos)
  {
    CompletedStepsBounds(phases, pos);
    var done, total := CompletedSteps(phases, pos) as real, StepCount(phases) as real;
    RatioAtMostOne(done, total);
    done / total * 100.0
  }

  /** A ratio of a positive part to a whole it does not exceed lies in (0, 1],
      and is 1 exactly when the part is the whole. */
  lemma RatioAtMostOne(part: real, whole: real)
    requires 0.0 < part <= whole
    ensures 0.0 < part / whole <= 1.0
    ensures part / whole == 1.0 <==> part == whole
  {
    var r := part / whole;
    assert r * whole == part;
  }

  /** `handleNextStep`: the next step of the phase, else the first step of the
      next phase, else stay. */
  function NextPosition(phases: seq<Phase>, pos: Position): (r: Position)
    requires WellFormed(phases) && ValidPosition(phases, pos)
    ensures ValidPosition(phases, r)
  {
    if pos.step < |phases[pos.phase].steps| - 1 then Position(pos.phase, pos.step + 1)
    else if pos.phase < |phases| - 1 then Position(pos.phase + 1, 0)
    else pos
  }

  /** The Previous button: the prior step of the phase, else the last step of
      the previous phase, else stay. */
  function PreviousPosition(phases: seq<Phase>, pos: Position): (r: Position)
    requires WellFormed(phases) && ValidPosition(phases, pos)
    ensures ValidPosition(phases, r)
  {
    if pos.step > 0 then Position(pos.phase, pos.step - 1)
    else if pos.phase > 0 then Position(pos.phase - 1, |phases[pos.phase - 1].steps| - 1)
    else pos
  }

  /** Next stays put exactly at the final step; anywhere else it completes
      exactly one more step. */
  lemma NextAdvancesByOne(phases: seq<Phase>, pos: Position)
    requires WellFormed(phases) && ValidPosition(phases, pos)
    ensures NextPosition(phases, pos) == pos <==> IsFinal(phases, pos)
    ensures !IsFinal(phases, pos) ==>
      CompletedSteps(phases, NextPosition(phases, pos)) == CompletedSteps(phases, pos) + 1
  {
    if pos.step == |phases[pos.phase].steps| - 1 && pos.phase < |phases| - 1 {
      StepCountPrefix(phases, pos.phase);
    }
  }

  /** Previous stays put exactly at the first step; anywhere else it goes back
      exactly one step. */
  lemma PreviousRetreatsByOne(phases: seq<Phase>, pos: Position)
    requires WellFormed(phases) && ValidPosition(phases, pos)
    ensures PreviousPosition(phases, pos) == pos <==> IsFirst(pos)
    ensures !IsFirst(pos) ==>
      CompletedSteps(phases, PreviousPosition(phases, pos)) + 1 == CompletedSteps(phases, pos)
  {
    if pos.step == 0 && pos.phase > 0 {
      StepCountPrefix(phases, pos.phase - 1);
    }
  }

  /** Next then Previous returns to the start, and so does Previous then Next. */
  lemma NextPreviousInverse(phases: seq<Phase>, pos: Position)
    requires WellFormed(phases) && ValidPosition(phases, pos)
    ensures !IsFinal(phases, pos) ==> PreviousPosition(phases, NextPosition(phases, pos)) == pos
    ensures !IsFirst(pos) ==> NextPosition(phases, PreviousPosition(phases, pos)) == pos
  {
  }

  /** A position is determined by its number of completed steps, so the
      progress bar tells positions apart. */
  lemma {:induction false} CompletedStepsInjective(phases: seq<Phase>, a: Position, b: Position)
    requires WellFormed(phases) && ValidPosition(phases, a) && ValidPosition(phases, b)
    requires CompletedSteps(phases, a) == CompletedSteps(phases, b)
    ensures a == b
  {
    if a.phase < b.phase {
      StepCountPrefix(phases, a.phase);
      StepCountMonotone(phases, a.phase + 1, b.phase);
    } else if b.phase < a.phase {
      StepCountPrefix(phases, b.phase);
      StepCountMonotone(phases, b.phase + 1, a.phase);
    }
  }

  /** Longer prefixes hold at least as many steps. */
  lemma {:induction false} StepCountMonotone(phases: seq<Phase>, p: nat, q: nat)
    requires p <= q <= |phases|
    ensures StepCount(phases[..p]) <= StepCount(phases[..q])
  {
    if p < q {
      StepCountPrefix(phases, q - 1);
      StepCountMonotone(phases, p, q - 1);
    }
  }

  /** The step matching an id, as `find` tests it. */
  function HasId(stepId: string): Step -> bool {
    (s: Step) => s.id == stepId
  }

  /** The correct answer index of the step with id `stepId`, absent for an
      unknown step or a step without a quiz: `step?.quiz?.correctIndex`. */
  function CorrectIndexOf(phases: seq<Phase>, stepId: string): (r: Option<nat>)
    ensures r.Some? ==> exists s :: s in AllSteps(phases) && s.id == stepId && s.quiz.Some?
                                      && s.quiz.value.correctIndex == r.value
    ensures (forall s :: s in AllSteps(phases) ==> s.id != stepId) ==> r.None?
  {
    match Find(AllSteps(phases), HasId(stepId))
    case Some(step) => if step.quiz.Some? then Some(step.quiz.value.correctIndex) else None
    case None => None
  }

  /** With distinct step ids, the quiz step at a valid position finds its own
      correct index: `find` stops at that step, the first with its id. */
  lemma CorrectIndexOfStep(phases: seq<Phase>, pos: Position)
    requires ValidPosition(phases, pos) && DistinctIds(AllSteps(phases))
    requires phases[pos.phase].steps[pos.step].quiz.Some?
    ensures var step := phases[pos.phase].steps[pos.step];
      CorrectIndexOf(phases, step.id) == Some(step.quiz.value.correctIndex)
  {
    var step := phases[pos.phase].steps[pos.step];
    var all := AllSteps(phases);
    var k := StepCount(phases[..pos.phase]) + pos.step;
    AllStepsLocate(phases, pos);
    forall j | 0 <= j < k
      ensures !HasId(step.id)(all[j])
    {
      assert all[j].id != all[k].id;
    }
    FindIsFirst(all, HasId(step.id), k);
  }

  /** The tutorial page's state. */
  class TutorialSession {
    const phases: seq<Phase>
    var phase: nat
    var step: nat
    var quizAnswers: map<string, nat>
    var showExplanation: map<string, bool>

    ghost predicate Valid()
      reads this
    {
      WellFormed(phases) && ValidPosition(phases, Position(phase, step))
    }

    /** The page opens on the first step of the first phase with no answers. */
    constructor (phases: seq<Phase>)
      requires WellFormed(phases)
      ensures Valid() && this.phases == phases
      ensures IsFirst(Position(phase, step))
      ensures quizAnswers == map[] && showExplanation == map[]
    {
      this.phases := phases;
      phase, step := 0, 0;
      quizAnswers, showExplanation := map[], map[];
    }

    function At(): Position
      reads this
    {
      Position(phase, step)
    }

    /** The step on screen. */
    function CurrentStep(): (s: Step)
      reads this
      requires Valid()
      ensures s in AllSteps(phases)
    {
      StepInAllSteps(phases, phase, step);
      phases[phase].steps[step]
    }

    /** `handleNextStep`. */
    method NextStep()
      requires Valid()
      modifies this
      ensures Valid() && At() == NextPosition(phases, old(At()))
      ensures quizAnswers == old(quizAnswers) && showExplanation == old(showExplanation)
    {
      if step < |phases[phase].steps| - 1 {
        step := step + 1;
      } else if phase < |phases| - 1 {
        phase, step := phase + 1, 0;
      }
    }

    /** The Previous button's handler. */
    method PreviousStep()
      requires Valid()
      modifies this
      ensures Valid() && At() == PreviousPosition(phases, old(At()))
      ensures quizAnswers == old(quizAnswers) && showExplanation == old(showExplanation)
    {
      if step > 0 {
        step := step - 1;
      } else if phase > 0 {
        phase, step := phase - 1, |phases[phase - 1].steps| - 1;
      }
    }

    /** Clicking a phase in the side list opens its first step. */
    method SelectPhase(index: nat)
      requires Valid() && index < |phases|
      modifies this
      ensures Valid() && At() == Position(index, 0)
      ensures CompletedSteps(phases, At()) == StepCount(phases[..index]) + 1
      ensures quizAnswers == old(quizAnswers) && showExplanation == old(showExplanation)
    {
      phase, step := index, 0;
    }

    /** Clicking a step of the open phase in the side list. */
    method SelectStep(index: nat)
      requires Valid() && index < |phases[phase].steps|
      modifies this
      ensures Valid() && At() == Position(old(phase), index)
      ensures quizAnswers == old(quizAnswers) && showExplanation == old(showExplanation)
    {
      step := index;
    }

    /** The Previous button is disabled at the first step; whenever it is
        enabled, it goes back exactly one step. */
    function PreviousDisabled(): (disabled: bool)
      reads this
      requires Valid()
      ensures disabled <==> PreviousPosition(phases, At()) == At()
      ensures !disabled ==> CompletedSteps(phases, PreviousPosition(phases, At())) + 1 == CompletedSteps(phases, At())
    {
      PreviousRetreatsByOne(phases, At());
      phase == 0 && step == 0
    }

    /** The Next button is disabled while the step's quiz is unanswered and at
        the final step; whenever it is enabled, it completes exactly one more
        step. */
    function NextDisabled(): (disabled: bool)
      reads this
      requires Valid()
      ensures disabled <==> IsFinal(phases, At()) || (CurrentStep().quiz.Some? && CurrentStep().id !in quizAnswers)
      ensures !disabled ==> CompletedSteps(phases, NextPosition(phases, At())) == CompletedSteps(phases, At()) + 1
    {
      NextAdvancesByOne(phases, At());
      var current := phases[phase].steps[step];
      (current.quiz.Some? && current.id !in quizAnswers)
      || (phase == |phases| - 1 && step == |phases[phase].steps| - 1)
    }

    /** `handleQuizAnswer`: record the answer and open the explanation for
        that step, leaving every other step's entries as they were. */
    method HandleQuizAnswer(stepId: string, answerIndex: nat)
      modifies this
      ensures quizAnswers == old(quizAnswers)[stepId := answerIndex]
      ensures showExplanation == old(showExplanation)[stepId := true]
      ensures forall id :: id != stepId ==>
        (id in quizAnswers <==> id in old(quizAnswers)) && (id in quizAnswers ==> quizAnswers[id] == old(quizAnswers)[id])
      ensures phase == old(phase) && step == old(step)
    {
      quizAnswers := quizAnswers[stepId := answerIndex];
      showExplanation := showExplanation[stepId := true];
    }

    /** An answer button of the step on screen: the buttons are disabled once
        the step has an answer, so the first answer sticks. */
    method ClickAnswer(answerIndex: nat)
      requires Valid() && CurrentStep().quiz.Some? && answerIndex < CurrentStep().quiz.value.optionCount
      modifies this
      ensures Valid() && At() == old(At())
      ensures old(CurrentStep().id in quizAnswers) ==>
        quizAnswers == old(quizAnswers) && showExplanation == old(showExplanation)
      ensures old(CurrentStep().id !in quizAnswers) ==>
        quizAnswers == old(quizAnswers)[CurrentStep().id := answerIndex] &&
        showExplanation == old(showExplanation)[CurrentStep().id := true]
    {
      var id := phases[phase].steps[step].id;
      if id !in quizAnswers {
        HandleQuizAnswer(id, answerIndex);
      }
    }

    /** `isAnswerCorrect`: the recorded answer equals the step's correct index,
        where an unknown or quiz-less step left unanswered also compares equal
        (`undefined === undefined`). */
    function IsAnswerCorrect(stepId: string): (correct: bool)
      reads this
      ensures CorrectIndexOf(phases, stepId).Some? ==>
        (correct <==> stepId in quizAnswers && quizAnswers[stepId] == CorrectIndexOf(phases, stepId).value)
      ensures CorrectIndexOf(phases, stepId).None? ==> (correct <==> stepId !in quizAnswers)
    {
      CorrectIndexOf(phases, stepId) == (if stepId in quizAnswers then Some(quizAnswers[stepId]) else None)
    }
  }

  /** A step at a valid position is one of the flattened steps. */
  lemma {:induction false} StepInAllSteps(phases: seq<Phase>, p: nat, s: nat)
    requires p < |phases| && s < |phases[p].steps|
    ensures phases[p].steps[s] in AllSteps(phases)
  {
    if p < |phases| - 1 {
      var init := phases[..|phases| - 1];
      assert init[p] == phases[p];
      StepInAllSteps(init, p, s);
    }
  }

  /** On a quiz step of a table with distinct ids, `isAnswerCorrect` holds
      exactly when the recorded answer is that quiz's correct index. */
  lemma AnswerCorrectAtStep(session: TutorialSession, pos: Position)
    requires ValidPosition(session.phases, pos) && DistinctIds(AllSteps(session.phases))
    requires session.phases[pos.phase].steps[pos.step].quiz.Some?
    ensures var step := session.phases[pos.phase].steps[pos.step];
      session.IsAnswerCorrect(step.id) <==>
        step.id in session.quizAnswers && session.quizAnswers[step.id] == step.quiz.value.correctIndex
  {
    CorrectIndexOfStep(session.phases, pos);
  }

  /** When every step has a quiz, an unanswered step is never reported
      correct: the `undefined === undefined` case cannot arise for a step on
      screen. */
  lemma UnansweredIsIncorrect(session: TutorialSession, stepId: string)
    requires AllQuizzed(session.phases)
    requires exists s :: s in AllSteps(session.phases) && s.id == stepId
    requires stepId !in session.quizAnswers
    ensures !session.IsAnswerCorrect(stepId)
  {
    var s :| s in AllSteps(session.phases) && s.id == stepId;
    assert HasId(stepId)(s);
  }
}

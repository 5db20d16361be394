/** Rubric scores and the decision that ends, repairs or withholds a release. */
module EvaluationModel {
  import opened Results
  import opened Artifacts
  import opened HumanDecisions

  predicate ValidRubric(r: Rubric) {
    r.Applicable? ==> 0.0 <= r.score <= 1.0
  }

  function Rubrics(e: Evaluation): seq<Rubric>
    requires e.Evaluated?
  {
    [e.requirementCoverage, e.mvpCompleteness, e.usability, e.architecture, e.maintainability, e.riskAcceptance]
  }

  predicate ValidEvaluation(e: Evaluation) {
    e.Evaluated? ==> forall r :: r in Rubrics(e) ==> ValidRubric(r)
  }

  function Scores(rubrics: seq<Rubric>): seq<real> {
    if rubrics == [] then []
    else if rubrics[0].Applicable? then [rubrics[0].score] + Scores(rubrics[1..])
    else Scores(rubrics[1..])
  }

  function Sum(scores: seq<real>): real {
    if scores == [] then 0.0 else scores[0] + Sum(scores[1..])
  }

  /** The mean of the applicable scores, absent when nothing was evaluated or nothing applies. */
  function OverallScore(e: Evaluation): Option<real> {
    if e.NotEvaluated? then None
    else
      var scores := Scores(Rubrics(e));
      if scores == [] then None else Some(Sum(scores) / |scores| as real)
  }

  lemma {:induction false} SumWithinBounds(rubrics: seq<Rubric>)
    requires forall r :: r in rubrics ==> ValidRubric(r)
    ensures 0.0 <= Sum(Scores(rubrics)) <= |Scores(rubrics)| as real
  {
    if rubrics != [] {
      SumWithinBounds(rubrics[1..]);
      assert ValidRubric(rubrics[0]);
      if rubrics[0].Applicable? {
        assert Scores(rubrics)[1..] == Scores(rubrics[1..]);
      }
    }
  }

  /** Scores are a mean of the applicable rubrics only, so they stay on the rubric scale. */
  lemma ScoreOnScale(e: Evaluation)
    requires ValidEvaluation(e)
    ensures OverallScore(e).Some? ==> 0.0 <= OverallScore(e).value <= 1.0
    ensures OverallScore(e).Some? <==> e.Evaluated? && exists r :: r in Rubrics(e) && r.Applicable?
  {
    if e.Evaluated? {
      SumWithinBounds(Rubrics(e));
      SomeScoreIff(Rubrics(e));
    }
  }

  lemma {:induction false} SomeScoreIff(rubrics: seq<Rubric>)
    ensures Scores(rubrics) != [] <==> exists r :: r in rubrics && r.Applicable?
  {
    if rubrics != [] {
      SomeScoreIff(rubrics[1..]);
    }
  }

  datatype Outcome = Passed | Deferred | ToRepair | Exhausted

  function RepairDecision(
    gates: GateReport, evaluation: Evaluation, attempt: nat, limit: nat, threshold: real, human: Option<Decision>): Outcome
  {
    var score := OverallScore(evaluation);
    if human == Some(Accept) then Passed
    else if human == Some(Repair) then if attempt < limit then ToRepair else Exhausted
    else if gates.verdict.VerdictBlocked? then Deferred
    else if gates.verdict.VerdictFailed? then if attempt < limit then ToRepair else Exhausted
    else if score.None? then Deferred
    else if score.value >= threshold then Passed
    else if attempt < limit then ToRepair
    else Exhausted
  }

  /** Evidence passes and the score reaches the threshold. */
  predicate Good(gates: GateReport, evaluation: Evaluation, threshold: real) {
    var score := OverallScore(evaluation);
    gates.verdict.VerdictPassed? && score.Some? && score.value >= threshold
  }

  /** Evidence fails, or it passes under a score below the threshold. */
  predicate Bad(gates: GateReport, evaluation: Evaluation, threshold: real) {
    var score := OverallScore(evaluation);
    gates.verdict.VerdictFailed? || (gates.verdict.VerdictPassed? && score.Some? && score.value < threshold)
  }

  /** A repair is granted only below the limit, and without a human verdict exactly good releases pass. */
  lemma DecisionIsBounded(
    gates: GateReport, evaluation: Evaluation, attempt: nat, limit: nat, threshold: real, human: Option<Decision>)
    ensures var d := RepairDecision(gates, evaluation, attempt, limit, threshold, human);
            && (d == ToRepair ==> attempt < limit)
            && (d == Exhausted ==> limit <= attempt)
            && (d == Passed <==> (human == Some(Accept) || (human != Some(Repair) && Good(gates, evaluation, threshold))))
            && (d == Deferred <==> (human != Some(Accept) && human != Some(Repair)
                                    && !Good(gates, evaluation, threshold) && !Bad(gates, evaluation, threshold)))
  {
  }
}

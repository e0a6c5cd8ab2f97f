/**
 * `AnswerEvaluator.evaluate_answer` and its helpers (answer_evaluator.py:30-122,
 * 173-210): the grade thresholds, the fixed results for a missing answer and for a
 * failure, and the logic that runs on the model's reply, which recomputes the total
 * from the returned breakdown and derives the grade from it.
 *
 * The chat-completion call is the parameter `llm`; `json.loads` together with reading
 * the fields of the decoded object is the parameter `parse`, which yields `None` when
 * the text is not a JSON object.
 */
module AnswerEvaluation {
  import opened Wrappers
  import opened Text
  import opened Seqs
  import opened LlmReplies

  datatype Grade = Excellent | Good | Average | NeedsImprovement | Error {
    /** The grade string stored in the result dict. */
    function Label(): string {
      match this
      case Excellent => "Excellent"
      case Good => "Good"
      case Average => "Average"
      case NeedsImprovement => "Needs Improvement"
      case Error => "Error"
    }

    /** Position on the scale, Error lowest. */
    function Rank(): nat {
      match this
      case Error => 0
      case NeedsImprovement => 1
      case Average => 2
      case Good => 3
      case Excellent => 4
    }
  }

  /** `SCORING_RUBRIC`: the criteria and their maximum points, as the prompt states them. */
  const ScoringRubric: seq<(string, int)> :=
    [("technical_accuracy", 40), ("completeness", 30), ("clarity", 20), ("practical_insight", 10)]

  /** `_score_to_grade(score)` */
  function ScoreToGrade(score: real): (g: Grade)
    ensures g != Error
  {
    if score >= 85.0 then Excellent
    else if score >= 70.0 then Good
    else if score >= 50.0 then Average
    else NeedsImprovement
  }

  /** One value of the decoded `breakdown` object: a number `sum` accepts, or anything else. */
  datatype Value = Number(n: int) | NonNumeric

  /** The `breakdown` field of the decoded reply. */
  datatype BreakdownField = Missing | Object(entries: seq<(string, Value)>) | NotAnObject

  /** The decoded reply; the optional fields are `None` when the key is absent. */
  datatype ParsedReview = ParsedReview(
    breakdown: BreakdownField,
    claimedTotal: Option<int>,
    claimedGrade: Option<string>,
    strengths: Option<seq<string>>,
    improvements: Option<seq<string>>,
    detailedFeedback: Option<string>,
    correctAnswerSummary: Option<string>)

  /** The dict `evaluate_answer` returns; `totalScore` is `None` when the key is absent. */
  datatype Evaluation = Evaluation(
    totalScore: Option<int>,
    grade: string,
    breakdown: seq<(string, int)>,
    strengths: Option<seq<string>>,
    improvements: Option<seq<string>>,
    detailedFeedback: Option<string>,
    correctAnswerSummary: Option<string>)

  /** What the evaluator sends to the model; the prompt text built from it is not modelled. */
  datatype EvaluationRequest = EvaluationRequest(question: string, userAnswer: string, modelAnswer: string, skill: string, difficulty: string)

  /** `_empty_answer_result()` */
  function EmptyAnswerResult(): Evaluation {
    Evaluation(Some(0), NeedsImprovement.Label(),
      [("technical_accuracy", 0), ("completeness", 0), ("clarity", 0), ("practical_insight", 0)],
      Some([]), Some(["Please provide an answer to be evaluated."]), Some("No answer was provided."), Some(""))
  }

  /** `_error_result()` */
  function ErrorResult(): Evaluation {
    Evaluation(Some(0), Error.Label(), [], Some([]), Some([]), Some("Evaluation failed. Please try again."), Some(""))
  }

  function Points(entries: seq<(string, int)>): (r: seq<int>)
    ensures |r| == |entries| && forall k :: 0 <= k < |entries| ==> r[k] == entries[k].1
  {
    seq(|entries|, k requires 0 <= k < |entries| => entries[k].1)
  }

  /** The breakdown as integers, or `None` when `sum(breakdown.values())` would raise. */
  function NumericEntries(entries: seq<(string, Value)>): (r: Option<seq<(string, int)>>)
    ensures r.None? <==> exists k :: 0 <= k < |entries| && entries[k].1.NonNumeric?
    ensures r.Some? ==> |r.value| == |entries| && forall k :: 0 <= k < |entries| ==> r.value[k] == (entries[k].0, entries[k].1.n)
  {
    if entries == [] then Some([])
    else
      var prefix := entries[..|entries| - 1];
      var last := entries[|entries| - 1];
      var rest := NumericEntries(prefix);
      assert forall k :: 0 <= k < |prefix| ==> prefix[k] == entries[k];
      if last.1.NonNumeric? || rest.None? then None
      else Some(rest.value + [(last.0, last.1.n)])
  }

  /**
   * The lines after `json.loads`: the breakdown defaults to `{}`, the total is the sum of
   * its values, and total and grade overwrite whatever the reply claimed.  `None` when
   * reading the breakdown raises.
   */
  function FromReview(review: ParsedReview): Option<Evaluation> {
    var entries :=
      match review.breakdown
      case Missing => Some([])
      case Object(es) => NumericEntries(es)
      case NotAnObject => None;
    match entries
    case None => None
    case Some(es) =>
      var total := Sum(Points(es));
      Some(Evaluation(Some(total), ScoreToGrade(total as real).Label(), es,
        review.strengths, review.improvements, review.detailedFeedback, review.correctAnswerSummary))
  }

  /**
   * The decoded reply: `None` when the call raises or `json.loads` fails on the reply
   * once it is stripped of its code fences.
   */
  function ReviewOf(reply: LlmReply, parse: string -> Option<ParsedReview>): Option<ParsedReview> {
    match reply
    case TransportFailure => None
    case Completion(content) => parse(StripFences(content))
  }

  /** The result `evaluate_answer` returns, as a function of its inputs and of the model's reply. */
  function Evaluated(question: string, userAnswer: Option<string>, modelAnswer: string, skill: string, difficulty: string,
                     llm: EvaluationRequest -> LlmReply, parse: string -> Option<ParsedReview>): Evaluation
  {
    if userAnswer.None? || IsBlank(userAnswer.value) then EmptyAnswerResult()
    else
      match ReviewOf(llm(EvaluationRequest(question, userAnswer.value, modelAnswer, skill, difficulty)), parse)
      case None => ErrorResult()
      case Some(review) => FromReview(review).GetOr(ErrorResult())
  }

  /**
   * `evaluate_answer(question, user_answer, model_answer, skill, difficulty)`: the decoded
   * reply becomes the result, and its total and grade are then overwritten with the
   * locally computed ones.
   */
  method EvaluateAnswer(question: string, userAnswer: Option<string>, modelAnswer: string, skill: string, difficulty: string,
                        llm: EvaluationRequest -> LlmReply, parse: string -> Option<ParsedReview>) returns (r: Evaluation)
    ensures r == Evaluated(question, userAnswer, modelAnswer, skill, difficulty, llm, parse)
  {
    if userAnswer.None? || IsBlank(userAnswer.value) {
      return EmptyAnswerResult();
    }
    var decoded := ReviewOf(llm(EvaluationRequest(question, userAnswer.value, modelAnswer, skill, difficulty)), parse);
    if decoded.None? {
      return ErrorResult();
    }
    var review := decoded.value;
    var breakdown: seq<(string, int)>;
    match review.breakdown {
      case Missing =>
        breakdown := [];
      case NotAnObject =>
        return ErrorResult();
      case Object(es) =>
        var numeric := NumericEntries(es);
        if numeric.None? {
          return ErrorResult();
        }
        breakdown := numeric.value;
    }
    var total := Sum(Points(breakdown));
    r := Evaluation(review.claimedTotal, review.claimedGrade.GetOr(""), breakdown,
      review.strengths, review.improvements, review.detailedFeedback, review.correctAnswerSummary);
    r := r.(totalScore := Some(total));
    r := r.(grade := ScoreToGrade(total as real).Label());
  }

  // ---------------- properties ----------------

  /** The thresholds: 85 and above is Excellent, 70 Good, 50 Average, anything lower Needs Improvement. */
  lemma ScoreToGradeThresholds(score: real)
    ensures ScoreToGrade(score) == Excellent <==> score >= 85.0
    ensures ScoreToGrade(score) == Good <==> 70.0 <= score < 85.0
    ensures ScoreToGrade(score) == Average <==> 50.0 <= score < 70.0
    ensures ScoreToGrade(score) == NeedsImprovement <==> score < 50.0
  {
  }

  /** A higher score never earns a lower grade. */
  lemma ScoreToGradeMonotone(a: real, b: real)
    requires a <= b
    ensures ScoreToGrade(a).Rank() <= ScoreToGrade(b).Rank()
  {
  }

  /** Distinct grades have distinct labels, so the label determines the grade. */
  lemma LabelsDistinct(g: Grade, h: Grade)
    requires g.Label() == h.Label()
    ensures g == h
  {
  }

  lemma SumOfFour(a: int, b: int, c: int, d: int)
    ensures Sum([a, b, c, d]) == a + b + c + d
  {
    assert Sum([a]) == a by { assert [a][..0] == []; }
    assert Sum([a, b]) == a + b by { assert [a, b][..1] == [a]; }
    assert Sum([a, b, c]) == a + b + c by { assert [a, b, c][..2] == [a, b]; }
    assert [a, b, c, d][..3] == [a, b, c];
  }

  /** The empty-answer result lists exactly the rubric's criteria, in rubric order, each with 0 points. */
  lemma EmptyResultCoversRubric()
    ensures |EmptyAnswerResult().breakdown| == |ScoringRubric|
    ensures forall k :: 0 <= k < |ScoringRubric| ==> EmptyAnswerResult().breakdown[k] == (ScoringRubric[k].0, 0)
  {
  }

  /** The result is consistent with the scoring rule: its total is the sum of its breakdown and its grade follows from the total. */
  predicate Scored(e: Evaluation) {
    e.totalScore == Some(Sum(Points(e.breakdown))) && e.grade == ScoreToGrade(Sum(Points(e.breakdown)) as real).Label()
  }

  /** A missing, empty or whitespace-only answer gets the fixed empty result, whatever the model would have said. */
  lemma BlankAnswerNeedsNoModel(question: string, userAnswer: Option<string>, modelAnswer: string, skill: string, difficulty: string,
                                llm: EvaluationRequest -> LlmReply, parse: string -> Option<ParsedReview>)
    requires userAnswer.None? || AllSpace(userAnswer.value)
    ensures Evaluated(question, userAnswer, modelAnswer, skill, difficulty, llm, parse) == EmptyAnswerResult()
    ensures Scored(EmptyAnswerResult()) && EmptyAnswerResult().grade == "Needs Improvement"
  {
    if userAnswer.Some? { BlankIffAllSpace(userAnswer.value); }
    assert Points(EmptyAnswerResult().breakdown) == [0, 0, 0, 0];
    SumOfFour(0, 0, 0, 0);
  }

  /** Every result is either scored consistently or the fixed error result. */
  lemma EvaluationScoredOrError(question: string, userAnswer: Option<string>, modelAnswer: string, skill: string, difficulty: string,
                                llm: EvaluationRequest -> LlmReply, parse: string -> Option<ParsedReview>)
    ensures var r := Evaluated(question, userAnswer, modelAnswer, skill, difficulty, llm, parse);
      Scored(r) || r == ErrorResult()
    ensures ErrorResult().totalScore == Some(0) && ErrorResult().grade == "Error" && ErrorResult().breakdown == []
  {
    assert Points(EmptyAnswerResult().breakdown) == [0, 0, 0, 0];
    SumOfFour(0, 0, 0, 0);
  }

  /** The result is the error result exactly when the call fails, the reply does not decode, or the breakdown cannot be summed. */
  lemma ErrorResultIff(question: string, answer: string, modelAnswer: string, skill: string, difficulty: string,
                       llm: EvaluationRequest -> LlmReply, parse: string -> Option<ParsedReview>)
    requires !IsBlank(answer)
    ensures var review := ReviewOf(llm(EvaluationRequest(question, answer, modelAnswer, skill, difficulty)), parse);
      Evaluated(question, Some(answer), modelAnswer, skill, difficulty, llm, parse) == ErrorResult()
      <==> review.None? || FromReview(review.value).None?
  {
    var review := ReviewOf(llm(EvaluationRequest(question, answer, modelAnswer, skill, difficulty)), parse);
    if review.Some? && FromReview(review.value).Some? {
      FromReviewIsNotErrorResult(review.value);
    }
  }

  lemma FromReviewIsNotErrorResult(review: ParsedReview)
    requires FromReview(review).Some?
    ensures FromReview(review).value != ErrorResult()
  {
    var g := ScoreToGrade(FromReview(review).value.totalScore.value as real);
    assert FromReview(review).value.grade == g.Label();
  }

  /** A failed call and an undecodable reply both end in the error result. */
  lemma FailedCallGivesErrorResult(reply: LlmReply, parse: string -> Option<ParsedReview>)
    ensures reply.TransportFailure? ==> ReviewOf(reply, parse).None?
    ensures reply.Completion? ==> (ReviewOf(reply, parse).None? <==> parse(StripFences(reply.content)).None?)
  {
  }

  /** The breakdown cannot be summed exactly when it is not an object or holds a non-numeric value. */
  lemma FromReviewFailsIff(review: ParsedReview)
    ensures FromReview(review).None? <==>
      review.breakdown.NotAnObject?
      || (review.breakdown.Object? && exists k :: 0 <= k < |review.breakdown.entries| && review.breakdown.entries[k].1.NonNumeric?)
  {
  }

  /** Any total or grade the model claims is overwritten. */
  lemma ClaimedScoreIgnored(review: ParsedReview, total: Option<int>, grade: Option<string>)
    ensures FromReview(review.(claimedTotal := total, claimedGrade := grade)) == FromReview(review)
  {
  }

  /** A reply without a breakdown scores 0 and Needs Improvement, not Error. */
  lemma MissingBreakdownScoresZero(review: ParsedReview)
    requires review.breakdown.Missing?
    ensures FromReview(review).Some?
    ensures FromReview(review).value.totalScore == Some(0)
    ensures FromReview(review).value.grade == "Needs Improvement"
  {
  }

  /** The total of a decoded reply is the sum of the points it lists, and the grade is that of the total. */
  lemma FromReviewSumsBreakdown(review: ParsedReview)
    requires FromReview(review).Some?
    ensures Scored(FromReview(review).value)
    ensures review.breakdown.Object? ==>
      Points(FromReview(review).value.breakdown) ==
      seq(|review.breakdown.entries|, k requires 0 <= k < |review.breakdown.entries| => review.breakdown.entries[k].1.n)
  {
  }

  /** The summed total is not clamped to the rubric's 100 points. */
  lemma TotalNotClamped()
    ensures FromReview(ParsedReview(Object([("technical_accuracy", Number(90)), ("completeness", Number(30))]),
      None, None, None, None, None, None)).value.totalScore == Some(120)
  {
    var vs := [("technical_accuracy", Number(90)), ("completeness", Number(30))];
    var es := [("technical_accuracy", 90), ("completeness", 30)];
    assert NumericEntries([]) == Some([]);
    assert NumericEntries([vs[0]]) == Some([es[0]]) by {
      assert [vs[0]][..0] == [];
      assert [] + [es[0]] == [es[0]];
    }
    assert NumericEntries(vs) == Some(es) by {
      assert vs[..1] == [vs[0]];
      assert [es[0]] + [es[1]] == es;
    }
    assert Points(es) == [90, 30];
    assert [90, 30][..1] == [90];
    assert [90][..0] == [];
  }
}

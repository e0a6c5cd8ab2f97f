/**
 * The Streamlit app's session state (enhanced_app.py): the six keys it keeps across reruns,
 * and one method per button that changes them. A page only offers the buttons of its
 * own stage, so each handler requires that stage; a button shown only under a further
 * condition (Previous, Next, View Results) requires that condition too.
 *
 * The parser, the extractor, the Groq completions and `json.loads` arrive as parameters,
 * as in the modules that model them.
 */
module InterviewSession {
  import opened Wrappers
  import opened Text
  import opened SkillExtraction
  import opened AnswerEvaluation
  import opened QuestionGeneration
  import opened SessionAggregation
  import opened ResumeParsing
  import opened LlmReplies

  datatype Stage = Upload | Configure | Interview | Results

  /** The indices `0 .. n-1` that are keys of `m`, in increasing order. */
  function KeysBelow<V>(m: map<nat, V>, n: nat): seq<nat> {
    if n == 0 then [] else KeysBelow(m, n - 1) + (if n - 1 in m then [n - 1] else [])
  }

  /** `sorted(evaluations.keys())` when every key is below `n`: increasing, and exactly the keys. */
  lemma {:induction false} KeysBelowSorted<V>(m: map<nat, V>, n: nat)
    ensures forall i, j :: 0 <= i < j < |KeysBelow(m, n)| ==> KeysBelow(m, n)[i] < KeysBelow(m, n)[j]
    ensures forall k :: k in KeysBelow(m, n) <==> k in m && k < n
    ensures |KeysBelow(m, n)| <= n
  {
    if n > 0 {
      KeysBelowSorted(m, n - 1);
      var init := KeysBelow(m, n - 1);
      assert forall i :: 0 <= i < |init| ==> init[i] in init;
    }
  }

  class Session {
    var stage: Stage
    var skillsData: Option<ExtractionResult>
    var questions: seq<Question>
    var answers: map<nat, string>
    var evaluations: map<nat, Evaluation>
    var qIndex: int

    /**
     * What every handler preserves: the current question exists once there are questions,
     * answers and evaluations belong to existing questions, the interview has questions,
     * and the results stage has at least one evaluation. Before the interview starts,
     * nothing of an interview is stored.
     */
    ghost predicate Valid()
      reads this
    {
      && 0 <= qIndex
      && (questions == [] ==> qIndex == 0)
      && (questions != [] ==> qIndex < |questions|)
      && (forall k :: k in answers ==> k < |questions|)
      && (forall k :: k in evaluations ==> k < |questions|)
      && (stage != Upload ==> skillsData.Some?)
      && (stage == Upload || stage == Configure ==>
            questions == [] && answers == map[] && evaluations == map[] && qIndex == 0)
      && (stage == Interview || stage == Results ==> questions != [])
      && (stage == Results ==> evaluations != map[])
    }

    /** The `defaults` of the session state. */
    predicate IsDefault()
      reads this
    {
      stage == Upload && skillsData == None && questions == [] && answers == map[] && evaluations == map[] && qIndex == 0
    }

    /** The first run: every key missing from `st.session_state` gets its default. */
    constructor ()
      ensures Valid() && IsDefault()
    {
      stage := Upload;
      skillsData := None;
      questions := [];
      answers := map[];
      evaluations := map[];
      qIndex := 0;
    }

    /** "Start Over" in the sidebar and "Start a New Interview": every key back to its default, from any stage. */
    method StartOver()
      modifies this
      ensures Valid() && IsDefault()
    {
      stage := Upload;
      skillsData := None;
      questions := [];
      answers := map[];
      evaluations := map[];
      qIndex := 0;
    }

    /**
     * "Extract Skills": the text is read from the uploaded file; an unsupported file
     * (the exception shown with `st.error`) or an empty text leaves the session as it
     * is, otherwise the skills found move the session to the configure stage.
     */
    method ExtractSkills(files: Files, path: string, extractor: SkillExtractor)
      requires Valid() && stage == Upload && extractor.Valid()
      modifies this
      ensures Valid()
      ensures match ExtractedText(files, path)
        case Success(text) =>
          if text == [] then stage == Upload && skillsData == old(skillsData)
          else stage == Configure && skillsData == Some(ExtractionOf(extractor.skillsDb, extractor.tokenize, text))
        case Failure(_) => stage == Upload && skillsData == old(skillsData)
      ensures questions == old(questions) && answers == old(answers) && evaluations == old(evaluations) && qIndex == old(qIndex)
    {
      var extracted := ExtractText(files, path);
      match extracted {
        case Failure(_) =>
        case Success(text) =>
          if text != [] {
            var found := extractor.ExtractAllSkills(text);
            skillsData := Some(found);
            stage := Configure;
          }
      }
    }

    /** "← Back" on the configure page. */
    method Back()
      requires Valid() && stage == Configure
      modifies this
      ensures Valid() && stage == Upload
      ensures skillsData == old(skillsData) && questions == old(questions) && answers == old(answers)
      ensures evaluations == old(evaluations) && qIndex == old(qIndex)
    {
      stage := Upload;
    }

    /**
     * "Generate Questions →": with no skills it only warns; otherwise the questions are
     * generated, and a non-empty list starts the interview at its first question with no
     * answers and no evaluations. An empty list is reported and changes nothing.
     */
    method GenerateAndStart(difficulty: string, questionsPerSkill: int,
                            llm: GenerationRequest -> LlmReply, parse: string -> Option<ParsedQuestions>)
      requires Valid() && stage == Configure
      modifies this
      ensures Valid() && skillsData == old(skillsData)
      ensures var generated := Numbered(Batch(AllSkills(old(skillsData).value.categories), difficulty, questionsPerSkill, llm, parse));
        if old(skillsData).value.totalSkills == 0 || generated == [] then
          stage == Configure && questions == old(questions) && answers == old(answers)
          && evaluations == old(evaluations) && qIndex == old(qIndex)
        else
          stage == Interview && questions == generated && answers == map[] && evaluations == map[] && qIndex == 0
    {
      if skillsData.value.totalSkills == 0 {
        return;
      }
      var generated := GenerateQuestions(skillsData.value, difficulty, questionsPerSkill, llm, parse);
      if generated != [] {
        questions := generated;
        qIndex := 0;
        answers := map[];
        evaluations := map[];
        stage := Interview;
      }
    }

    /** "← Previous", offered from the second question on. */
    method Previous()
      requires Valid() && stage == Interview && qIndex > 0
      modifies this
      ensures Valid() && qIndex == old(qIndex) - 1
      ensures stage == old(stage) && skillsData == old(skillsData) && questions == old(questions)
      ensures answers == old(answers) && evaluations == old(evaluations)
    {
      qIndex := qIndex - 1;
    }

    /**
     * "Submit & Evaluate →" (or "Re-evaluate ↺"): a blank answer only warns. Otherwise the
     * answer is stored first and then evaluated, replacing any earlier evaluation of the
     * question. A question without a "question" text raises `KeyError` after the answer
     * is stored, so the evaluations stay as they were.
     */
    method Submit(answer: string, llm: EvaluationRequest -> LlmReply, parse: string -> Option<ParsedReview>)
      requires Valid() && stage == Interview
      modifies this
      ensures Valid()
      ensures stage == old(stage) && skillsData == old(skillsData) && questions == old(questions) && qIndex == old(qIndex)
      ensures IsBlank(answer) ==> answers == old(answers) && evaluations == old(evaluations)
      ensures !IsBlank(answer) ==> answers == old(answers)[qIndex := answer]
      ensures var q := questions[qIndex];
        !IsBlank(answer) ==>
          evaluations == if q.text.None? then old(evaluations)
            else old(evaluations)[qIndex := Evaluated(q.text.value, Some(answer), q.modelAnswer.GetOr(""),
                                                      q.skill.GetOr(""), q.difficulty.GetOr("medium"), llm, parse)]
    {
      if IsBlank(answer) {
        return;
      }
      answers := answers[qIndex := answer];
      var q := questions[qIndex];
      match q.text {
        case None =>
        case Some(text) =>
          var result := EvaluateAnswer(text, Some(answer), q.modelAnswer.GetOr(""), q.skill.GetOr(""),
                                       q.difficulty.GetOr("medium"), llm, parse);
          evaluations := evaluations[qIndex := result];
      }
    }

    /**
     * "Next →", offered before the last question: the typed answer is kept when it is not
     * blank and the question has not been evaluated, and the next question becomes current.
     */
    method Next(answer: string)
      requires Valid() && stage == Interview && qIndex < |questions| - 1
      modifies this
      ensures Valid() && qIndex == old(qIndex) + 1
      ensures answers == if old(qIndex) !in old(evaluations) && !IsBlank(answer)
        then old(answers)[old(qIndex) := answer] else old(answers)
      ensures stage == old(stage) && skillsData == old(skillsData) && questions == old(questions)
      ensures evaluations == old(evaluations)
    {
      if qIndex !in evaluations && !IsBlank(answer) {
        answers := answers[qIndex := answer];
      }
      qIndex := qIndex + 1;
    }

    /** "View Full Results", offered once at least one answer has been evaluated. */
    method ViewResults()
      requires Valid() && stage == Interview && evaluations != map[]
      modifies this
      ensures Valid() && stage == Results
      ensures skillsData == old(skillsData) && questions == old(questions) && answers == old(answers)
      ensures evaluations == old(evaluations) && qIndex == old(qIndex)
    {
      stage := Results;
    }

    /** `answered_qs`: the evaluated question indices, in increasing order. */
    function AnsweredIndices(): seq<nat>
      reads this
    {
      KeysBelow(evaluations, |questions|)
    }

    /** `ev_list`: the evaluations in question order. */
    function EvaluationsInOrder(): (r: seq<Evaluation>)
      requires Valid()
      reads this
      ensures |r| == |AnsweredIndices()|
    {
      var indices := AnsweredIndices();
      var evaluated := evaluations;
      KeysBelowSorted(evaluated, |questions|);
      assert forall j :: 0 <= j < |indices| ==> indices[j] in indices;
      seq(|indices|, j requires 0 <= j < |indices| => evaluated[indices[j]])
    }

    /** `q_list`: the evaluated questions, in the same order. */
    function QuestionsInOrder(): (r: seq<Question>)
      requires Valid()
      reads this
      ensures |r| == |AnsweredIndices()|
    {
      var indices := AnsweredIndices();
      var asked := questions;
      KeysBelowSorted(evaluations, |asked|);
      assert forall j :: 0 <= j < |indices| ==> indices[j] in indices;
      seq(|indices|, j requires 0 <= j < |indices| => asked[indices[j]])
    }

    /**
     * The results page: the summary of the evaluated answers, each paired with its own
     * question. The results stage always has one, so the summary exists.
     */
    method ResultsSummary() returns (summary: SessionSummary)
      requires Valid() && stage == Results
      ensures Summary(EvaluationsInOrder(), QuestionsInOrder()) == Some(summary)
      ensures summary.totalQuestions == |evaluations|
    {
      var evs := EvaluationsInOrder();
      var qs := QuestionsInOrder();
      EvaluatedCount();
      var r := ComputeSessionSummary(evs, qs);
      summary := r.value;
    }

    /** Every evaluated question appears once among the answered indices. */
    lemma EvaluatedCount()
      requires Valid()
      ensures |AnsweredIndices()| == |evaluations|
      ensures forall j :: 0 <= j < |AnsweredIndices()| ==> AnsweredIndices()[j] in evaluations
    {
      KeysBelowSorted(evaluations, |questions|);
      var indices := AnsweredIndices();
      assert forall i, j :: 0 <= i < j < |indices| ==> indices[i] != indices[j];
      assert forall k :: k in evaluations.Keys <==> k in indices;
      DistinctCount(indices, evaluations.Keys);
    }
  }

  /** A sequence without repeats has as many elements as the set of its elements. */
  lemma {:induction false} DistinctCount(s: seq<nat>, keys: set<nat>)
    requires forall i, j :: 0 <= i < j < |s| ==> s[i] != s[j]
    requires forall k :: k in keys <==> k in s
    ensures |s| == |keys|
  {
    if s != [] {
      var last := s[|s| - 1];
      var init := s[..|s| - 1];
      forall i | 0 <= i < |init| ensures init[i] != last {
        assert init[i] == s[i];
      }
      forall k ensures k in keys - {last} <==> k in init {
        if k in s && k != last {
          var i :| 0 <= i < |s| && s[i] == k;
          assert i < |init| && init[i] == k;
        }
      }
      DistinctCount(init, keys - {last});
    }
  }

  // ---------------- grade colours ----------------

  /** The text, background and border colours of a grade. */
  datatype Palette = Palette(accent: string, background: string, border: string)

  /** `GRADE` */
  const GradePalettes: map<string, Palette> := map[
    "Excellent" := Palette("#16a34a", "#dcfce7", "#bbf7d0"),
    "Good" := Palette("#4f46e5", "#eef2ff", "#c7d2fe"),
    "Average" := Palette("#d97706", "#fffbeb", "#fde68a"),
    "Needs Improvement" := Palette("#dc2626", "#fef2f2", "#fecaca"),
    "Error" := Palette("#64748b", "#f8fafc", "#e2e8f0")]

  /** `grade_colors(grade)`: the grade's palette, or the "Error" palette for any other text. */
  function GradeColors(grade: string): Palette {
    if grade in GradePalettes then GradePalettes[grade] else GradePalettes["Error"]
  }

  /** Every grade the evaluator gives has a palette of its own; any other text is shown as "Error". */
  lemma GradeColorsCoverGrades(grade: string)
    ensures forall g: Grade, h: Grade :: g != h ==> GradeColors(g.Label()) != GradeColors(h.Label())
    ensures (forall g: Grade :: grade != g.Label()) ==> GradeColors(grade) == GradeColors(Error.Label())
  {
    if forall g: Grade :: grade != g.Label() {
      assert grade != Excellent.Label() && grade != Good.Label() && grade != Average.Label();
      assert grade != NeedsImprovement.Label() && grade != Error.Label();
      assert grade !in GradePalettes;
    }

  }
}

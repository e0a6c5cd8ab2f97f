/**
 * `QuestionGenerator` (question_generator.py:23-124): the skills of an extraction result
 * are visited category by category, each gets its own model call, and the questions of
 * all calls are concatenated and numbered 1, 2, ... in output order.
 *
 * The chat-completion call is the parameter `llm`; `json.loads` is the parameter `parse`,
 * which yields `None` when the text does not decode, a list of question objects, or a
 * single question object.
 */
module QuestionGeneration {
  import opened Wrappers
  import opened Text
  import opened Seqs
  import opened LlmReplies
  import opened SkillExtraction

  /** A question dict; every field but `id` comes from the model and may be absent. */
  datatype Question = Question(
    id: Option<int>,
    skill: Option<string>,
    category: Option<string>,
    difficulty: Option<string>,
    text: Option<string>,
    modelAnswer: Option<string>)

  /** What `_generate_for_skill` asks the model for; the prompt text built from it is not modelled. */
  datatype GenerationRequest = GenerationRequest(skill: string, category: string, difficulty: string, count: int)

  /** The decoded reply: a JSON array of questions or a single question object. */
  datatype ParsedQuestions = QuestionList(items: seq<Question>) | SingleQuestion(item: Question)

  /** `_generate_for_skill(skill_name, category, difficulty, count)`: any failure yields no questions. */
  function GenerateForSkill(request: GenerationRequest, llm: GenerationRequest -> LlmReply, parse: string -> Option<ParsedQuestions>): seq<Question> {
    match llm(request)
    case TransportFailure => []
    case Completion(content) =>
      match parse(StripFences(content))
      case None => []
      case Some(QuestionList(items)) => items
      case Some(SingleQuestion(item)) => [item]
  }

  /** The `(skill_name, category)` pairs of one category, in list order. */
  function SkillPairs(category: string, skills: seq<DetectedSkill>): (r: seq<(string, string)>)
    ensures |r| == |skills| && forall p :: 0 <= p < |skills| ==> r[p] == (skills[p].name, category)
  {
    seq(|skills|, p requires 0 <= p < |skills| => (skills[p].name, category))
  }

  /** `all_skills`: the skills in category order, then list order. */
  function AllSkills(categories: seq<CategorySkills>): seq<(string, string)> {
    if categories == [] then []
    else
      var last := categories[|categories| - 1];
      AllSkills(categories[..|categories| - 1]) + SkillPairs(last.category, last.skills)
  }

  /** The concatenated per-skill results, every call with the same difficulty and count. */
  function Batch(skills: seq<(string, string)>, difficulty: string, count: int,
                 llm: GenerationRequest -> LlmReply, parse: string -> Option<ParsedQuestions>): seq<Question> {
    if skills == [] then []
    else
      var last := skills[|skills| - 1];
      Batch(skills[..|skills| - 1], difficulty, count, llm, parse)
        + GenerateForSkill(GenerationRequest(last.0, last.1, difficulty, count), llm, parse)
  }

  /** `questions` with the ids 1, 2, ... written over whatever ids they carried. */
  function Numbered(questions: seq<Question>): (r: seq<Question>)
    ensures |r| == |questions|
  {
    seq(|questions|, k requires 0 <= k < |questions| => questions[k].(id := Some(k + 1)))
  }

  lemma NumberedAppend(done: seq<Question>, q: Question)
    ensures Numbered(done + [q]) == Numbered(done) + [q.(id := Some(|done| + 1))]
  {
    assert forall k :: 0 <= k < |done| ==> (done + [q])[k] == done[k];
  }

  lemma SkillPairsAppend(category: string, skills: seq<DetectedSkill>, j: nat)
    requires j < |skills|
    ensures SkillPairs(category, skills[..j + 1]) == SkillPairs(category, skills[..j]) + [(skills[j].name, category)]
  {
  }

  lemma PrefixWhole<T>(s: seq<T>)
    ensures s[..|s|] == s
  {
  }

  lemma BatchStep(skills: seq<(string, string)>, k: nat, difficulty: string, count: int,
                  llm: GenerationRequest -> LlmReply, parse: string -> Option<ParsedQuestions>)
    requires k < |skills|
    ensures Batch(skills[..k + 1], difficulty, count, llm, parse)
      == Batch(skills[..k], difficulty, count, llm, parse) + GenerateForSkill(GenerationRequest(skills[k].0, skills[k].1, difficulty, count), llm, parse)
  {
    assert skills[..k + 1][..k] == skills[..k];
  }

  lemma AllSkillsStep(categories: seq<CategorySkills>, i: nat)
    requires i < |categories|
    ensures AllSkills(categories[..i + 1]) == AllSkills(categories[..i]) + SkillPairs(categories[i].category, categories[i].skills)
  {
    assert categories[..i + 1][..i] == categories[..i];
  }

  /** The first loop of `generate_questions`, which fills `all_skills`. */
  method CollectSkills(categories: seq<CategorySkills>) returns (allSkills: seq<(string, string)>)
    ensures allSkills == AllSkills(categories)
  {
    allSkills := [];
    var i := 0;
    while i < |categories|
      invariant 0 <= i <= |categories|
      invariant allSkills == AllSkills(categories[..i])
    {
      var skills := categories[i].skills;
      var j := 0;
      while j < |skills|
        invariant 0 <= j <= |skills|
        invariant allSkills == AllSkills(categories[..i]) + SkillPairs(categories[i].category, skills[..j])
      {
        SkillPairsAppend(categories[i].category, skills, j);
        allSkills := allSkills + [(skills[j].name, categories[i].category)];
        j := j + 1;
      }
      PrefixWhole(skills);
      AllSkillsStep(categories, i);
      i := i + 1;
    }
    PrefixWhole(categories);
  }

  /** Appends the questions of one skill, numbering them on from `qid`. */
  method AppendNumbered(questions: seq<Question>, qid: int, ghost before: seq<Question>, skillQuestions: seq<Question>)
    returns (after: seq<Question>, next: int)
    requires questions == Numbered(before) && qid == |questions| + 1
    ensures after == Numbered(before + skillQuestions) && next == |after| + 1
  {
    after, next := questions, qid;
    var m := 0;
    while m < |skillQuestions|
      invariant 0 <= m <= |skillQuestions|
      invariant after == Numbered(before + skillQuestions[..m])
      invariant next == |after| + 1
    {
      NumberedAppend(before + skillQuestions[..m], skillQuestions[m]);
      assert before + skillQuestions[..m + 1] == (before + skillQuestions[..m]) + [skillQuestions[m]];
      after := after + [skillQuestions[m].(id := Some(next))];
      next := next + 1;
      m := m + 1;
    }
    PrefixWhole(skillQuestions);
  }

  /** `generate_questions(skills_data, difficulty, questions_per_skill)` */
  method GenerateQuestions(skillsData: ExtractionResult, difficulty: string, questionsPerSkill: int,
                           llm: GenerationRequest -> LlmReply, parse: string -> Option<ParsedQuestions>)
    returns (questions: seq<Question>)
    ensures questions == Numbered(Batch(AllSkills(skillsData.categories), difficulty, questionsPerSkill, llm, parse))
  {
    var allSkills := CollectSkills(skillsData.categories);
    if allSkills == [] {
      return [];
    }
    questions := [];
    var qid := 1;
    var k := 0;
    while k < |allSkills|
      invariant 0 <= k <= |allSkills|
      invariant questions == Numbered(Batch(allSkills[..k], difficulty, questionsPerSkill, llm, parse))
      invariant qid == |questions| + 1
    {
      var skillQuestions := GenerateForSkill(GenerationRequest(allSkills[k].0, allSkills[k].1, difficulty, questionsPerSkill), llm, parse);
      questions, qid := AppendNumbered(questions, qid, Batch(allSkills[..k], difficulty, questionsPerSkill, llm, parse), skillQuestions);
      BatchStep(allSkills, k, difficulty, questionsPerSkill, llm, parse);
      k := k + 1;
    }
    PrefixWhole(allSkills);
  }

  // ---------------- properties ----------------

  lemma BatchUnfold(skills: seq<(string, string)>, difficulty: string, count: int,
                    llm: GenerationRequest -> LlmReply, parse: string -> Option<ParsedQuestions>)
    requires skills != []
    ensures Batch(skills, difficulty, count, llm, parse)
      == Batch(skills[..|skills| - 1], difficulty, count, llm, parse)
       + GenerateForSkill(GenerationRequest(skills[|skills| - 1].0, skills[|skills| - 1].1, difficulty, count), llm, parse)
  {
  }

  /** The questions of a batch are those of its first part followed by those of the rest. */
  lemma {:induction false} BatchAppend(a: seq<(string, string)>, b: seq<(string, string)>, difficulty: string, count: int,
                                        llm: GenerationRequest -> LlmReply, parse: string -> Option<ParsedQuestions>)
    ensures Batch(a + b, difficulty, count, llm, parse) == Batch(a, difficulty, count, llm, parse) + Batch(b, difficulty, count, llm, parse)
    decreases |b|
  {
    if b == [] {
      assert a + b == a;
    } else {
      var b' := b[..|b| - 1];
      assert (a + b)[..|a + b| - 1] == a + b';
      assert (a + b)[|a + b| - 1] == b[|b| - 1];
      BatchUnfold(a + b, difficulty, count, llm, parse);
      BatchUnfold(b, difficulty, count, llm, parse);
      BatchAppend(a, b', difficulty, count, llm, parse);
    }
  }

  /**
   * The questions of skill `j` sit between those of the skills before and after it;
   * in particular a skill whose call fails contributes nothing and the others still run.
   */
  lemma SkillResultsIsolated(skills: seq<(string, string)>, j: nat, difficulty: string, count: int,
                             llm: GenerationRequest -> LlmReply, parse: string -> Option<ParsedQuestions>)
    requires j < |skills|
    ensures Batch(skills, difficulty, count, llm, parse)
      == Batch(skills[..j], difficulty, count, llm, parse)
       + GenerateForSkill(GenerationRequest(skills[j].0, skills[j].1, difficulty, count), llm, parse)
       + Batch(skills[j + 1..], difficulty, count, llm, parse)
  {
    assert skills == skills[..j + 1] + skills[j + 1..];
    BatchAppend(skills[..j + 1], skills[j + 1..], difficulty, count, llm, parse);
    BatchStep(skills, j, difficulty, count, llm, parse);
  }

  /** How many questions each skill's call returned. */
  function PerSkillCounts(skills: seq<(string, string)>, difficulty: string, count: int,
                          llm: GenerationRequest -> LlmReply, parse: string -> Option<ParsedQuestions>): (r: seq<int>)
    ensures |r| == |skills|
  {
    seq(|skills|, i requires 0 <= i < |skills| => |GenerateForSkill(GenerationRequest(skills[i].0, skills[i].1, difficulty, count), llm, parse)|)
  }

  /** The number of questions is the sum of the per-skill counts; nothing checks them against `count`. */
  lemma {:induction false} BatchLength(skills: seq<(string, string)>, difficulty: string, count: int,
                                        llm: GenerationRequest -> LlmReply, parse: string -> Option<ParsedQuestions>)
    ensures |Batch(skills, difficulty, count, llm, parse)| == Sum(PerSkillCounts(skills, difficulty, count, llm, parse))
    decreases |skills|
  {
    if skills != [] {
      var prefix := skills[..|skills| - 1];
      BatchLength(prefix, difficulty, count, llm, parse);
      assert PerSkillCounts(skills, difficulty, count, llm, parse)[..|skills| - 1] == PerSkillCounts(prefix, difficulty, count, llm, parse);
    }
  }

  /** The output ids are 1, 2, ..., n in order, and every other field is the model's. */
  lemma NumberedIds(questions: seq<Question>)
    ensures forall k :: 0 <= k < |questions| ==> Numbered(questions)[k].id == Some(k + 1)
    ensures forall k :: 0 <= k < |questions| ==> Numbered(questions)[k].(id := questions[k].id) == questions[k]
  {
  }

  /** The categories of the extraction result, and the skills within each, are visited in order. */
  lemma {:induction false} AllSkillsAppend(a: seq<CategorySkills>, b: seq<CategorySkills>)
    ensures AllSkills(a + b) == AllSkills(a) + AllSkills(b)
    decreases |b|
  {
    if b == [] {
      assert a + b == a;
    } else {
      var b' := b[..|b| - 1];
      var last := b[|b| - 1];
      assert (a + b)[..|a + b| - 1] == a + b';
      assert (a + b)[|a + b| - 1] == last;
      assert AllSkills(a + b) == AllSkills(a + b') + SkillPairs(last.category, last.skills);
      assert AllSkills(b) == AllSkills(b') + SkillPairs(last.category, last.skills);
      AllSkillsAppend(a, b');
    }
  }

  /** One skill per entry of every category list: the count is the extraction's `total_skills`. */
  lemma {:induction false} AllSkillsLength(categories: seq<CategorySkills>)
    ensures |AllSkills(categories)| == TotalOf(categories)
    decreases |categories|
  {
    if categories != [] {
      AllSkillsLength(categories[..|categories| - 1]);
    }
  }

  /** Skill `p` of category `i` is visited after every skill of the categories before it. */
  lemma SkillVisitedInOrder(categories: seq<CategorySkills>, i: nat, p: nat)
    requires i < |categories| && p < |categories[i].skills|
    ensures |AllSkills(categories[..i])| + p < |AllSkills(categories)|
      && AllSkills(categories)[|AllSkills(categories[..i])| + p] == (categories[i].skills[p].name, categories[i].category)
  {
    assert categories == categories[..i + 1] + categories[i + 1..];
    AllSkillsAppend(categories[..i + 1], categories[i + 1..]);
    AllSkillsStep(categories, i);
  }

  /** With no skills extracted there are no questions. */
  lemma NoSkillsNoQuestions(skillsData: ExtractionResult, difficulty: string, count: int,
                            llm: GenerationRequest -> LlmReply, parse: string -> Option<ParsedQuestions>)
    requires TotalOf(skillsData.categories) == 0
    ensures Numbered(Batch(AllSkills(skillsData.categories), difficulty, count, llm, parse)) == []
  {
    AllSkillsLength(skillsData.categories);
  }

  /** A single decoded object is wrapped into a one-element list; a decoded list is kept as it is, however long. */
  lemma DecodedReplyKept(request: GenerationRequest, llm: GenerationRequest -> LlmReply, parse: string -> Option<ParsedQuestions>)
    requires llm(request).Completion?
    ensures var decoded := parse(StripFences(llm(request).content));
      && (decoded.None? ==> GenerateForSkill(request, llm, parse) == [])
      && (decoded.Some? && decoded.value.SingleQuestion? ==> GenerateForSkill(request, llm, parse) == [decoded.value.item])
      && (decoded.Some? && decoded.value.QuestionList? ==> GenerateForSkill(request, llm, parse) == decoded.value.items)
  {
  }

  /** A fenced reply is decoded from the text between its fences. */
  lemma FencedReplyDecodesBody(request: GenerationRequest, llm: GenerationRequest -> LlmReply, parse: string -> Option<ParsedQuestions>,
                               lead: string, open: string, gap: string, body: string, pad: string, trail: string)
    requires llm(request) == Completion(lead + open + gap + body + pad + Fence + trail)
    requires open == Fence || open == JsonFence
    requires AllSpace(lead) && AllSpace(gap) && |gap| > 0 && AllSpace(pad) && AllSpace(trail)
    requires IsStripped(body)
    ensures GenerateForSkill(request, llm, parse) == (match parse(body)
      case None => []
      case Some(QuestionList(items)) => items
      case Some(SingleQuestion(item)) => [item])
  {
    StripFencesUnwrapsFencedBody(lead, open, gap, body, pad, trail);
  }
}

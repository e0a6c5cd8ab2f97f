# AI interview coach: a Dafny model of its core

The system reads a résumé, finds the technical skills it mentions, asks a language model
for interview questions about each skill, has the model grade the candidate's answers
against a fixed rubric, and aggregates the grades into a session report. A Streamlit
page drives it through four stages: upload, configure, interview, results.

This project models that core in Dafny and proves properties of the model:

- `skill_taxonomy.dfy` describes the literal skill taxonomy. It has six categories and 42
  canonical skills with their aliases. The model defines the `skill_to_category`
  registration and proves that canonical names are unique.
- `skill_extraction.dfy` holds the class `SkillExtractor`. Its methods `CreatePatterns`,
  `ExtractAllSkills` and friends are written as loops and proved against specification
  functions. The phrase matcher is specified by the token positions it matches.
  `skill_extraction_lemmas.dfy` proves what the extraction promises:
  - a skill is listed, under its own category, exactly when one of its aliases occurs as
    whole tokens;
  - each skill is listed once, in first-hit order;
  - every category is present;
  - `total_skills` counts the distinct hits.
- `question_generation.dfy` covers `generate_questions`. Failures are isolated per skill,
  a single object is wrapped into a list, ids run 1-based and gap-free, and no skills
  means no questions.
- `answer_evaluation.dfy` covers `evaluate_answer`:
  - the blank-answer fast path;
  - the total recomputed from the breakdown, with any claimed total or grade ignored;
  - the grade as a function of that total;
  - the error result exactly on transport, decode or summation failure.
- `session_aggregation.dfy` covers `compute_session_summary`: mean, extremes, per-category
  averages in key order, and the first five distinct strengths and improvements.
- `llm_replies.dfy` models the markdown-fence stripping that the generator and the
  evaluator share.
- `resume_parsing.dfy` covers the résumé parser's `extract_text` dispatch, the name
  fallback, `extract_education` and `extract_experience_years`.
- `interview_session.dfy` holds the class `Session`. It models the page's
  `st.session_state` with one method per button, and an invariant `Valid()` that every
  handler keeps. It also models the grade colour table.
- `text.dfy`, `seqs.dfy` and `wrappers.dfy` model the Python string and list built-ins
  the core relies on (`strip`, `lower`, `split`, `in`, `dict.fromkeys`, slicing, `max`,
  `min`), plus `Option` and `Result`.

Foreign code enters as parameters:

- the spaCy tokenizer is `Tokenizer = string -> seq<string>`;
- the Groq chat call is a function from the request to an `LlmReply`, which is either a
  `TransportFailure` or the completion text;
- `json.loads` is a `parse` function returning `None` when decoding fails;
- PyPDF2, python-docx and `open` are the fields of `Files`.

Where the design description and the code differ, the model follows the code:

- The evaluator sums every value in the breakdown, not four fixed criteria, and does not
  clamp the total to 100 (`TotalNotClamped`).
- A reply without a breakdown scores 0 and grades "Needs Improvement", not "Error"
  (`MissingBreakdownScoresZero`).
- `compute_session_summary` pairs evaluation `i` with question `i` only while
  `i < len(questions)`; there is no equal-length precondition (`ExtraEvaluationsIgnored`).
- The overall grade is taken of the rounded mean, so a mean of 84.96 earns "Excellent"
  (`RoundingCanRaiseGrade`).
- A missing spaCy model raises a plain exception carrying an install hint
  (`NewSkillExtractor`).
- `questions_per_skill` and `difficulty` are passed through unchecked; only the page's
  widgets restrict them.

## Model

| member | source | states |
|---|---|---|
| SkillTaxonomy.SkillsDatabaseCategories | enhanced_skill_extractor.py:27-91 | the taxonomy has exactly the six categories in registration order, they are distinct, and "Other" is not one of them |
| SkillTaxonomy.SkillsDatabaseNamesUnique | enhanced_skill_extractor.py:27-91 | no canonical skill name appears twice, within a category or across two |
| SkillTaxonomy.RegisterCategoryMaps | enhanced_skill_extractor.py:95-97 | registering a category adds exactly its skills' names as keys; they map to that category and every other key keeps its value |
| SkillTaxonomy.SkillToCategoryMaps | enhanced_skill_extractor.py:93-97 | a name is a key of `skill_to_category` exactly when some category lists it, and it maps to a category that lists it |
| SkillTaxonomy.SkillToCategoryIsRegistration | enhanced_skill_extractor.py:93-97 | with unique names, every skill maps to exactly the category it is listed under |
| SkillExtraction.NewSkillExtractor | enhanced_skill_extractor.py:10-23 | a missing spaCy model fails with the install hint; otherwise the extractor is built over the literal taxonomy with its patterns and category map registered |
| SkillExtraction.SkillExtractor.constructor | enhanced_skill_extractor.py:10-23 | the new extractor holds the literal taxonomy, the given tokenizer, and the patterns and map `_create_patterns` builds |
| SkillExtraction.SkillExtractor.CreatePatterns | enhanced_skill_extractor.py:93-104 | starting empty, the loops leave `skill_to_category` equal to the registration of all categories and the pattern list equal to every tokenized alias in registration order |
| SkillExtraction.SkillExtractor.AddCategory | enhanced_skill_extractor.py:95-104 | one category's pass registers each of its skills under it and appends that category's patterns |
| SkillExtraction.SkillExtractor.AliasPatternsOf | enhanced_skill_extractor.py:99-102 | one pattern per alias, in alias order, under the skill's key |
| SkillExtraction.SkillExtractor.ExtractAllSkills | enhanced_skill_extractor.py:107-135 | the result equals the extraction specification applied to the matcher hits on the tokenized text |
| SkillExtraction.SkillExtractor.CategorizeMatches | enhanced_skill_extractor.py:111-125 | after the loop over the hits, each category's list is the first-seen names that look up to it, in hit order |
| SkillExtraction.SkillExtractor.FormatCategories | enhanced_skill_extractor.py:127-130 | every category of the taxonomy is emitted in order, with `categorized_skills.get(category, [])` |
| SkillExtraction.Formatted | enhanced_skill_extractor.py:128-130 | one entry per category of the taxonomy |
| SkillExtractionLemmas.PatternsAre | enhanced_skill_extractor.py:93-104 | a pattern is registered exactly when it is the tokenized alias of some skill, under that skill's name |
| SkillExtractionLemmas.MatchesAre | enhanced_skill_extractor.py:108-109 | the matcher reports a hit exactly for each start where a registered pattern matches the document tokens, ignoring case |
| SkillExtractionLemmas.MatchedNameIff | enhanced_skill_extractor.py:108-115 | a skill is among the hit keys exactly when some alias of it occurs as whole tokens in the text |
| SkillExtractionLemmas.FiledAre | enhanced_skill_extractor.py:117-125 | a category's list holds exactly the first-seen names whose lookup gives that category, each tagged "explicit" |
| SkillExtractionLemmas.FiledKeepsOrder | enhanced_skill_extractor.py:114-125 | entries within a category keep the order of the hits |
| SkillExtractionLemmas.ListedIffAliasOccurs | enhanced_skill_extractor.py:107-135 | for a well-formed taxonomy, a skill is listed under category `i` exactly when an alias of it from category `i` occurs in the text |
| SkillExtractionLemmas.ListedOnlyIfAliasOccurs | enhanced_skill_extractor.py:107-135 | a listed skill has an alias of its category in the text |
| SkillExtractionLemmas.ListedIfAliasOccurs | enhanced_skill_extractor.py:107-135 | a skill with an alias in the text is listed under its category |
| SkillExtractionLemmas.EachSkillListedOnce | enhanced_skill_extractor.py:116-118 | no skill is listed twice, in one category or across two |
| SkillExtractionLemmas.ListedInFirstHitOrder | enhanced_skill_extractor.py:114-125 | within a category, skills are listed in the order of their first hit |
| SkillExtractionLemmas.EntriesFiledUnderTheirCategory | enhanced_skill_extractor.py:119-123 | every entry is "explicit" and sits under the category `skill_to_category` gives its name, never "Other" |
| SkillExtractionLemmas.HitsLookUpToCategories | enhanced_skill_extractor.py:119 | every hit key looks up to a registered category, so the "Other" default is never used |
| SkillExtractionLemmas.ExtractionListsEveryCategory | enhanced_skill_extractor.py:127-130 | the result lists every category of the taxonomy, in registration order |
| SkillExtractionLemmas.TotalSkillsCountsDistinctHits | enhanced_skill_extractor.py:132-135 | `total_skills` is the number of distinct skills hit |
| SkillExtractionLemmas.TotalOfFormattedCounts | enhanced_skill_extractor.py:134 | when every name looks up to a taxonomy category, the total is the number of names |
| SkillExtractionLemmas.EmptyDocumentFindsNothing | enhanced_skill_extractor.py:107-135 | a text without tokens yields every category empty and a total of 0 |
| SkillExtractionLemmas.SkillsDatabaseWellFormed | enhanced_skill_extractor.py:27-91 | the literal taxonomy has unique skill names and distinct category names |
| SkillExtractionLemmas.ExampleAliasFound | enhanced_skill_extractor.py:99-102 | a lower-case alias that appears as a token lists its skill under its category |
| SkillExtractionLemmas.JsFindsJavaScript | enhanced_skill_extractor.py:41 | the token "js" lists JavaScript under Frontend Development |
| SkillExtractionLemmas.ReactjsFindsReact | enhanced_skill_extractor.py:40 | the token "reactjs" lists React under Frontend Development |
| SkillExtractionLemmas.GolangFindsGo | enhanced_skill_extractor.py:35 | the token "golang" lists Go under Programming Languages |
| SkillExtractionLemmas.K8sFindsKubernetes | enhanced_skill_extractor.py:74 | the token "k8s" lists Kubernetes under Cloud & DevOps |
| SkillExtractionLemmas.GoNeedsWholeToken | enhanced_skill_extractor.py:18 | without a token equal to "go" or "golang" (so "going" does not count), Go is not listed |
| SkillExtractionLemmas.GoAliasAbsent | enhanced_skill_extractor.py:35 | without those tokens no alias of Go occurs |
| SkillExtractionLemmas.GoAliases | enhanced_skill_extractor.py:35 | Go's aliases are exactly "go" and "golang" |
| QuestionGeneration.GenerateQuestions | question_generator.py:23-65 | the questions are the per-skill batches over the flattened skills, concatenated and numbered |
| QuestionGeneration.CollectSkills | question_generator.py:44-48 | the (name, category) pairs, category after category, in listing order |
| QuestionGeneration.AppendNumbered | question_generator.py:60-63 | appending one skill's questions numbers them on from the current id |
| QuestionGeneration.Numbered | question_generator.py:53-63 | numbering keeps the length |
| QuestionGeneration.NumberedIds | question_generator.py:53-63 | question `k` gets id `k + 1`, and nothing else about it changes |
| QuestionGeneration.DecodedReplyKept | question_generator.py:116-124 | an undecodable reply gives no questions, a decoded list is kept as is, and a single object is wrapped into a one-element list |
| QuestionGeneration.FencedReplyDecodesBody | question_generator.py:116-121 | a reply wrapped in ``` or ```json fences is decoded from the text between them |
| QuestionGeneration.SkillResultsIsolated | question_generator.py:56-63 | each skill's questions sit between those of the skills before and after it, so one failed call costs only its own skill |
| QuestionGeneration.BatchAppend | question_generator.py:56-63 | the batch over two skill lists is the concatenation of their batches |
| QuestionGeneration.BatchLength | question_generator.py:56-63 | the number of questions is the sum of what each skill's call returned |
| QuestionGeneration.AllSkillsAppend | question_generator.py:46-48 | flattening distributes over concatenated category lists |
| QuestionGeneration.AllSkillsLength | question_generator.py:46-48 | there is one pair per detected skill |
| QuestionGeneration.SkillVisitedInOrder | question_generator.py:46-48 | skill `p` of category `i` is visited after every skill of the earlier categories |
| QuestionGeneration.NoSkillsNoQuestions | question_generator.py:50-51 | with no detected skills the result is empty |
| QuestionGeneration.PerSkillCounts | question_generator.py:56-63 | one count per skill |
| LlmReplies.StripFences | answer_evaluator.py:109-111 | the text handed to `json.loads` is always stripped |
| LlmReplies.StripFencesUnwrapsFencedBody | question_generator.py:116-119 | surrounding space, an opening ``` or ```json fence followed by space, and a closing fence are all removed, leaving the body |
| LlmReplies.StripFencesKeepsUnfencedReply | answer_evaluator.py:109-111 | a reply with no fence at either end is only stripped |
| LlmReplies.JsonFenceIsFence | answer_evaluator.py:110 | a ```json prefix is also a ``` prefix, so the longer alternative must be tried first |
| LlmReplies.DropClosingFenceOf | answer_evaluator.py:111 | a trailing fence is removed |
| LlmReplies.DropOpeningFenceBeforeSpace | answer_evaluator.py:110 | an opening fence followed by space is removed |
| AnswerEvaluation.EvaluateAnswer | answer_evaluator.py:30-122 | the method returns the evaluation the specification gives for the answer, the reply and the decoder |
| AnswerEvaluation.ScoreToGrade | answer_evaluator.py:174-181 | the grade of a score is never "Error" |
| AnswerEvaluation.ScoreToGradeThresholds | answer_evaluator.py:174-181 | Excellent exactly from 85, Good exactly in [70, 85), Average exactly in [50, 70), Needs Improvement exactly below 50 |
| AnswerEvaluation.ScoreToGradeMonotone | answer_evaluator.py:174-181 | a higher score never gets a lower grade |
| AnswerEvaluation.EmptyResultCoversRubric | answer_evaluator.py:184-198 | the empty-answer breakdown lists exactly the criteria of `SCORING_RUBRIC` (lines 15-20), in rubric order, each with 0 points |
| AnswerEvaluation.BlankAnswerNeedsNoModel | answer_evaluator.py:55-56 | an empty or whitespace-only answer gets the fixed empty-answer result whatever the model would reply, a consistent 0 / Needs Improvement |
| AnswerEvaluation.EvaluationScoredOrError | answer_evaluator.py:30-122 | every result either has a grade that matches its total and a total that sums its breakdown, or is the error result (0, "Error", empty breakdown) |
| AnswerEvaluation.ErrorResultIff | answer_evaluator.py:93-122 | for a non-blank answer the result is the error result exactly when the call or decoding fails or the breakdown cannot be summed |
| AnswerEvaluation.FromReviewIsNotErrorResult | answer_evaluator.py:114-118 | a scored reply never coincides with the error result |
| AnswerEvaluation.FailedCallGivesErrorResult | answer_evaluator.py:93-112 | a transport failure gives no review, and a completion gives none exactly when its fence-stripped text does not decode |
| AnswerEvaluation.FromReviewFailsIff | answer_evaluator.py:114-115 | summing fails exactly when the breakdown is not an object or holds a non-numeric value |
| AnswerEvaluation.ClaimedScoreIgnored | answer_evaluator.py:116-117 | any total or grade the model claims is overwritten |
| AnswerEvaluation.MissingBreakdownScoresZero | answer_evaluator.py:114-117 | a reply without a breakdown scores 0 and grades Needs Improvement |
| AnswerEvaluation.FromReviewSumsBreakdown | answer_evaluator.py:114-117 | the total is the sum of the listed points and the grade is that of the total |
| AnswerEvaluation.TotalNotClamped | answer_evaluator.py:114-116 | a breakdown of 90 and 30 totals 120: the sum is not capped at the rubric maximum |
| AnswerEvaluation.NumericEntries | answer_evaluator.py:115 | the breakdown sums only when every value is a number, and then keeps every key and value |
| AnswerEvaluation.LabelsDistinct | answer_evaluator.py:174-209 | distinct grades have distinct labels |
| SessionAggregation.ComputeSessionSummary | answer_evaluator.py:128-167 | the method returns the specified report, or none (`{}`) for no evaluations; a missing `total_score` is read as 0 |
| SessionAggregation.MissingTotalCountsAsZero | answer_evaluator.py:136-145 | an evaluation without `total_score` gives the same report as one with a total of 0: its score is 0 and, when aligned, it adds 0 to its question's category |
| SessionAggregation.SameReadingsSameSummary | answer_evaluator.py:128-167 | the report depends on each evaluation only through its score (default 0), its strengths and its improvements |
| SessionAggregation.SameReadingsSameGroups | answer_evaluator.py:139-156 | evaluations that read the same give the same category groups and the same feedback lists |
| SessionAggregation.GroupByCategory | answer_evaluator.py:139-145 | after the loop each category's list is its group of scores, and the key order is the order in which categories were first met |
| SessionAggregation.GroupedAverages | answer_evaluator.py:147-150 | averaging the grouped dict gives the specified category averages |
| SessionAggregation.CollectFeedback | answer_evaluator.py:152-156 | strengths and improvements are every list concatenated in input order, a missing key read as empty |
| SessionAggregation.SummaryDescribesScores | answer_evaluator.py:133-163 | for a non-empty session: total_questions is the count; highest and lowest are attained scores bounding all; the average lies between them within 0.05 of the exact mean; the grade is that of the average |
| SessionAggregation.CategoryKeysAre | answer_evaluator.py:139-150 | the category keys are distinct and are exactly the categories of questions aligned with an evaluation |
| SessionAggregation.CategoryAverageOfGroup | answer_evaluator.py:147-150 | each category average is the rounded mean of a non-empty group and lies between its lowest and highest score |
| SessionAggregation.GroupScoresAre | answer_evaluator.py:140-145 | a score is in a category's group exactly when some aligned evaluation with a question of that category has it |
| SessionAggregation.GroupNonEmpty | answer_evaluator.py:140-145 | a category gets scores exactly when some aligned question carries it |
| SessionAggregation.AlignedCategoriesAre | answer_evaluator.py:140-142 | the aligned categories are those of the first `min(len(evaluations), len(questions))` questions |
| SessionAggregation.MissingCategoryCountsAsOther | answer_evaluator.py:142 | an aligned question with no category counts under "Other" |
| SessionAggregation.ExtraEvaluationsIgnored | answer_evaluator.py:140-141 | evaluations beyond the last question enter no category average |
| SessionAggregation.AlignedCategoriesIgnoreExtra | answer_evaluator.py:140-141 | evaluations beyond the last question change no group |
| SessionAggregation.StrengthsAre | answer_evaluator.py:154-155 | a strength is collected exactly when some evaluation lists it |
| SessionAggregation.ImprovementsAre | answer_evaluator.py:154-156 | an improvement is collected exactly when some evaluation lists it |
| SessionAggregation.TopIsFirstDistinct | answer_evaluator.py:165-166 | at most five, no repeats, a prefix of the first-occurrence order, every item mentioned, and all kept when there are at most five distinct |
| SessionAggregation.MeanBounds | answer_evaluator.py:137 | the mean lies between the smallest and the largest score |
| SessionAggregation.RoundTenthClose | answer_evaluator.py:137 | `round(x, 1)` moves a value by at most 0.05 |
| SessionAggregation.RoundTenthBetween | answer_evaluator.py:137 | a value between two whole numbers stays between them once rounded |
| SessionAggregation.RoundHalfEvenClose | answer_evaluator.py:137 | half-even rounding moves a value by at most one half |
| SessionAggregation.RoundHalfEvenOfInteger | answer_evaluator.py:137 | rounding keeps whole numbers |
| SessionAggregation.RoundHalfEvenMonotone | answer_evaluator.py:137 | rounding is monotone |
| SessionAggregation.RoundingCanRaiseGrade | answer_evaluator.py:137-161 | a mean of 84.96 is Good, but its rounded average 85.0 earns Excellent |
| SessionAggregation.SumBounds | answer_evaluator.py:137 | a sum of values in [lo, hi] lies between `n * lo` and `n * hi` |
| ResumeParsing.ExtractText | resume_parser.py:16-26 | the method returns the specified dispatch result |
| ResumeParsing.ExtractTextDispatch | resume_parser.py:16-26 | `.pdf`, `.docx`/`.doc` and `.txt`, in any letter case, pick their reader; any other suffix fails with "Unsupported file format: " and the lowercased suffix, exactly when it is none of the four |
| ResumeParsing.ReadersReturnStrippedText | resume_parser.py:28-57 | a reader never raises: a failed read gives "", and any text it gives is stripped |
| ResumeParsing.ReadFile | resume_parser.py:28-57 | the method returns what the specified reader gives |
| ResumeParsing.JoinParts | resume_parser.py:30-34 | the loop yields every page or paragraph followed by a newline |
| ResumeParsing.UpperCaseSuffixIsPdf | resume_parser.py:17-20 | "cv.PDF" is read as a PDF |
| ResumeParsing.Suffix | resume_parser.py:17 | the suffix is empty or a dot followed by at least one non-dot character |
| ResumeParsing.BaseName | resume_parser.py:17 | the file name holds no separator |
| ResumeParsing.LastIndexOf | resume_parser.py:17 | the index found holds the character, and none follows it; none is found only when the character is absent |
| ResumeParsing.ExperienceYears | resume_parser.py:120-129 | the result is at least every number found, is one of them, and is 0 when there is none |
| ResumeParsing.FivePlusYears | resume_parser.py:122-127 | "5+ Years" counts as 5 |
| ResumeParsing.YearsMatchAt | resume_parser.py:122 | a match at `p` ends after `p` and within the text |
| ResumeParsing.DigitRunEnd | resume_parser.py:122 | the run of digits from `p` is maximal |
| ResumeParsing.SpaceRunEnd | resume_parser.py:122 | the run of whitespace from `p` is maximal |
| ResumeParsing.NameFromFirstLines | resume_parser.py:94-101 | the fallback loop returns the first stripped line that looks like a name |
| ResumeParsing.NameIsFirstShortLine | resume_parser.py:94-101 | the name is the first non-empty stripped line of at most four words and under 50 characters; there is none exactly when no line qualifies |
| ResumeParsing.FirstStrippedWhereIsFirst | resume_parser.py:81-85 | a first-match search finds the first passing line, stripped, and finds none exactly when no line passes |
| ResumeParsing.FirstFound | resume_parser.py:81-84 | a found line is the first that passes |
| ResumeParsing.FirstMissing | resume_parser.py:85 | nothing is found only when no line passes |
| ResumeParsing.FirstKeywordMatch | resume_parser.py:113-116 | the inner loop finds a keyword exactly when the line mentions one, ignoring case |
| ResumeParsing.ExtractEducation | resume_parser.py:103-118 | the result has no repeats and holds exactly the stripped lines that mention a keyword |
| ResumeParsing.EducationLinesOf | resume_parser.py:109-116 | the loop keeps each line that mentions a keyword, stripped, in order |
| ResumeParsing.EducationLinesSound | resume_parser.py:112-116 | every kept entry is a stripped line that mentions a keyword |
| ResumeParsing.EducationLinesComplete | resume_parser.py:112-116 | every line that mentions a keyword is kept, stripped |
| ResumeParsing.MemberCountsAsEducation | resume_parser.py:113-114 | as written, "Member" counts as an education line, because "me" occurs inside it |
| ResumeParsing.WordMatchIsSubstringMatch | resume_parser.py:113-114 | the whole-word test accepts only lines the substring test accepts |
| ResumeParsing.WordMatchRejectsMember | resume_parser.py:113-114 | the whole-word test rejects "Member" |
| ResumeParsing.WordMatchKeepsDegree | resume_parser.py:104-114 | the whole-word test still accepts "BE in Computer Science" |
| InterviewSession.Session.constructor | enhanced_app.py:214-220 | the first run sets every key to its default and satisfies the invariant |
| InterviewSession.Session.StartOver | enhanced_app.py:277-280 | from any stage, every key goes back to its default |
| InterviewSession.Session.ExtractSkills | enhanced_app.py:312-332 | an unsupported file or an empty text leaves the page on upload with nothing changed; otherwise the skills found are stored and the page moves to configure |
| InterviewSession.Session.Back | enhanced_app.py:386-387 | back to upload, nothing else changed |
| InterviewSession.Session.GenerateAndStart | enhanced_app.py:389-404 | no skills or no generated questions changes nothing; otherwise the interview starts on the first generated question with no answers and no evaluations |
| InterviewSession.Session.Previous | enhanced_app.py:466-469 | the previous question becomes current, nothing else changed |
| InterviewSession.Session.Submit | enhanced_app.py:470-484 | a blank answer changes nothing; otherwise the answer is stored and its evaluation replaces any earlier one, with "", "" and "medium" when the question lacks those fields |
| InterviewSession.Session.Next | enhanced_app.py:485-490 | the next question becomes current, and the typed answer is kept only when it is not blank and the question is unevaluated |
| InterviewSession.Session.ViewResults | enhanced_app.py:527-538 | with at least one evaluation, the page moves to results, nothing else changed |
| InterviewSession.Session.ResultsSummary | enhanced_app.py:546-556 | the results page always gets a summary, over the evaluated answers paired with their own questions, counting every evaluation |
| InterviewSession.Session.EvaluationsInOrder | enhanced_app.py:553 | one evaluation per answered index |
| InterviewSession.Session.QuestionsInOrder | enhanced_app.py:554 | one question per answered index |
| InterviewSession.Session.EvaluatedCount | enhanced_app.py:552-554 | every evaluated question appears once among the answered indices |
| InterviewSession.KeysBelowSorted | enhanced_app.py:552 | `sorted(evaluations.keys())` is increasing and holds exactly the keys |
| InterviewSession.DistinctCount | enhanced_app.py:527 | a list without repeats has as many elements as the set of its elements |
| InterviewSession.GradeColorsCoverGrades | enhanced_app.py:152-161 | every grade has a palette of its own, and any other text is shown in the "Error" palette |
| Text.StripIsStripped | answer_evaluator.py:55 | `strip()` leaves no leading or trailing whitespace and never lengthens the text |
| Text.StripIsInfix | answer_evaluator.py:55 | `strip()` removes only whitespace, from the two ends |
| Text.StripIdempotent | answer_evaluator.py:109-111 | stripping twice is stripping once |
| Text.StripPadded | answer_evaluator.py:109-111 | stripping whitespace padding off stripped text gives the text back |
| Text.BlankIffAllSpace | answer_evaluator.py:55 | `not answer.strip()` holds exactly when the answer is all whitespace |
| Text.TrimStartIsSuffix | answer_evaluator.py:109 | the left trim drops whitespace only, up to the first non-space |
| Text.TrimEndIsPrefix | answer_evaluator.py:109 | the right trim drops whitespace only, back to the last non-space |
| Text.TrimStartSkipsSpace | answer_evaluator.py:109 | leading whitespace does not change the left trim |
| Text.TrimEndSkipsSpace | answer_evaluator.py:109 | trailing whitespace does not change the right trim |
| Text.LowerIdempotent | resume_parser.py:114 | lowering twice is lowering once |
| Text.LowerAppend | resume_parser.py:114 | lowering distributes over concatenation, character by character |
| Text.LowerOfLowercase | resume_parser.py:114 | text without upper-case letters is its own lower case |
| Text.Contains | resume_parser.py:114 | `t in s` holds exactly when `t` occurs at some position of `s` |
| Text.Split | resume_parser.py:80 | `split('\n')` yields at least one part, no part holds the separator, and joining the parts gives the text back |
| Text.WordEnd | resume_parser.py:83 | a word runs to the next whitespace or the end |
| Text.WordsEmptyIffBlank | resume_parser.py:83 | `split()` yields no words exactly when the text is blank |
| Seqs.Dedup | answer_evaluator.py:165-166 | `list(dict.fromkeys(s))` has no repeats and the same elements as `s` |
| Seqs.DedupMembership | answer_evaluator.py:165-166 | an element is kept exactly when it occurs |
| Seqs.DedupKeepsFirstOccurrenceOrder | answer_evaluator.py:165-166 | the kept elements are in the order of their first occurrence |
| Seqs.DedupAppend | answer_evaluator.py:165-166 | appending an element extends the result only when it is new |
| Seqs.DedupOfDistinct | answer_evaluator.py:165-166 | a list without repeats is unchanged |
| Seqs.Take | answer_evaluator.py:165-166 | `s[:n]` is the prefix of length `min(len(s), n)` |
| Seqs.Max | answer_evaluator.py:162 | the maximum is an element and bounds all |
| Seqs.Min | answer_evaluator.py:163 | the minimum is an element and bounds all |
| Seqs.SumOfConcat | enhanced_skill_extractor.py:134 | a sum splits over concatenation |

## Left out

- The spaCy pipeline is a `Tokenizer` parameter. `PhraseMatcher` matching is modelled as
  case-insensitive equality of whole token runs. Its hit order is taken as by start token,
  then by pattern registration order, which spaCy does not document.
- The named-entity path of `extract_name` (resume_parser.py:87-92) needs the spaCy model.
  Only the first-line fallback is modelled.
- `extract_email` and `extract_phone` (resume_parser.py:59-75) are regular expressions
  outside the core the rest of the system uses; they are not part of this model.
- The Groq client, the prompts, the model name, the temperature and the token limits are
  one `llm` parameter per client. Prompt text does not influence the model.
- `json.loads` is a `parse` parameter. A decoded question list element that is not an
  object, and so raises on `q["id"] = qid`, is not modelled.
- Evaluation results carry integer points. Float or boolean breakdown values are summed
  by Python but modelled only as "numeric or not".
- `round(x, 1)` is modelled as exact half-even rounding to tenths (`RoundTenth`).
  Rounding errors of binary floating point are not modelled.
- `Lower` lowers ASCII letters only, and `IsDigit` accepts only ASCII digits; Python's
  Unicode case mapping and `\d` are wider.
- `BaseName` and `Suffix` handle `/` separators only.
- `ExtractEducation`: `list(set(education))` has no defined order, so the contract states
  the elements and the absence of repeats but not the order.
- Temporary upload files, `os.makedirs`, `os.remove` and the `st.error`/`st.warning`
  messages are I/O. A handler that only shows a message is modelled as changing nothing.
- Rendering, progress bars, badges, score and breakdown HTML, `st.rerun()` and the
  percentages on the results page are presentation and are left out.
- Buttons the page shows only in some states (Previous from the second question on, Next
  before the last, View Results once something is evaluated) are preconditions of their
  methods.
- `InterviewSession.Session.Submit`: a question without a "question" text raises
  `KeyError` after the answer has been stored, so evaluations stay as they were. The
  page's error display after that exception is not modelled.
- `InterviewSession.Session.ResultsSummary`: the page's "No answers evaluated yet" branch
  (enhanced_app.py:550-551) cannot be reached from the results stage, which `Valid()`
  guarantees holds an evaluation.
- `SkillExtraction.SkillExtractor.CategorizeMatches` and `FormatCategories` split
  `extract_all_skills` into its two loops. `CreatePatterns`, `AddCategory` and
  `AliasPatternsOf` split `_create_patterns` into its three nested loops.

## Findings

| source | as written | input that shows it | evidently intended | confidence | as-written member | corrected member |
|---|---|---|---|---|---|---|
| resume_parser.py:113-115 | a line counts as education when a lowercased keyword occurs anywhere in the lowercased line, so the short keywords "be" and "me" match inside ordinary words | the line "Member" (and any line containing "become", "time" or "Remember") is returned as an education entry | the keyword occurs as a whole word of the line | high, not executed | ResumeParsing.MemberCountsAsEducation | ResumeParsing.WordMatchRejectsMember |

`ResumeParsing.ExtractEducation` keeps the substring test of the code. The whole-word test
`ResumeParsing.MentionsEducationWord` is stated beside it. `WordMatchIsSubstringMatch`
proves it only narrows the written test, `WordMatchRejectsMember` proves it rejects the
counterexample, and `WordMatchKeepsDegree` proves it still accepts a real degree line.

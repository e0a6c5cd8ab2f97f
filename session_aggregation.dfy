/**
 * `AnswerEvaluator.compute_session_summary` (answer_evaluator.py:128-167): the report
 * over all evaluated answers, with the mean, best and worst score, the per-category
 * means of the answers aligned with their questions by index, and the first five
 * distinct strengths and improvements.
 *
 * Averages are exact rationals rounded half-to-even to one decimal; Python's binary
 * floating point is not modelled.
 */
module SessionAggregation {
  import opened Wrappers
  import opened Seqs
  import opened AnswerEvaluation
  import opened QuestionGeneration

  /** The dict `compute_session_summary` returns for a non-empty session; `category_averages` in key order. */
  datatype SessionSummary = SessionSummary(
    totalQuestions: nat,
    averageScore: real,
    overallGrade: string,
    highestScore: int,
    lowestScore: int,
    categoryAverages: seq<(string, real)>,
    topStrengths: seq<string>,
    topImprovements: seq<string>)

  /** The category a question counts under when it names none. */
  const OtherCategory := "Other"

  /** At most this many strengths and improvements are reported. */
  const TopCount := 5

  // ---------------- rounding ----------------

  /** The integer nearest to `y`, ties to the even neighbour, as Python's `round`. */
  function RoundHalfEven(y: real): int {
    var f := y.Floor;
    var d := y - f as real;
    if d < 0.5 then f
    else if d > 0.5 then f + 1
    else if f % 2 == 0 then f
    else f + 1
  }

  /** `round(x, 1)` on the exact value. */
  function RoundTenth(x: real): real {
    RoundHalfEven(x * 10.0) as real / 10.0
  }

  lemma RoundHalfEvenClose(y: real)
    ensures -0.5 <= RoundHalfEven(y) as real - y <= 0.5
  {
  }

  lemma RoundHalfEvenOfInteger(n: int)
    ensures RoundHalfEven(n as real) == n
  {
  }

  lemma RoundHalfEvenMonotone(a: real, b: real)
    requires a <= b
    ensures RoundHalfEven(a) <= RoundHalfEven(b)
  {
    assert a.Floor <= b.Floor;
  }

  /** Rounding moves a value by at most half a tenth. */
  lemma RoundTenthClose(x: real)
    ensures -0.05 <= RoundTenth(x) - x <= 0.05
  {
    RoundHalfEvenClose(x * 10.0);
  }

  /** A value between two whole numbers stays between them once rounded. */
  lemma RoundTenthBetween(x: real, lo: int, hi: int)
    requires lo as real <= x <= hi as real
    ensures lo as real <= RoundTenth(x) <= hi as real
  {
    RoundHalfEvenMonotone((lo * 10) as real, x * 10.0);
    RoundHalfEvenMonotone(x * 10.0, (hi * 10) as real);
    RoundHalfEvenOfInteger(lo * 10);
    RoundHalfEvenOfInteger(hi * 10);
  }

  /** The grade is taken of the rounded mean: a mean just below 85 can still earn Excellent. */
  lemma RoundingCanRaiseGrade()
    ensures ScoreToGrade(84.96) == Good
    ensures RoundTenth(84.96) == 85.0 && ScoreToGrade(RoundTenth(84.96)) == Excellent
  {
    assert (84.96 * 10.0).Floor == 849;
  }

  // ---------------- means ----------------

  /** `sum(s) / len(s)` */
  function Mean(s: seq<int>): real
    requires s != []
  {
    Sum(s) as real / |s| as real
  }

  lemma {:induction false} SumBounds(s: seq<int>, lo: int, hi: int)
    requires forall i :: 0 <= i < |s| ==> lo <= s[i] <= hi
    ensures |s| * lo <= Sum(s) <= |s| * hi
    decreases |s|
  {
    if s != [] {
      var n := |s| - 1;
      SumBounds(s[..n], lo, hi);
      assert Sum(s) == Sum(s[..n]) + s[n];
      assert |s| * lo == n * lo + lo && |s| * hi == n * hi + hi;
    }
  }

  lemma QuotientAtLeast(a: int, n: int, lo: int)
    requires n > 0 && n * lo <= a
    ensures lo as real <= a as real / n as real
  {
    assert a as real / n as real - lo as real == (a - n * lo) as real / n as real;
  }

  lemma QuotientAtMost(a: int, n: int, hi: int)
    requires n > 0 && a <= n * hi
    ensures a as real / n as real <= hi as real
  {
    assert hi as real - a as real / n as real == (n * hi - a) as real / n as real;
  }

  /** The mean lies between the smallest and the largest value. */
  lemma MeanBounds(s: seq<int>)
    requires s != []
    ensures Min(s) as real <= Mean(s) <= Max(s) as real
  {
    SumBounds(s, Min(s), Max(s));
    QuotientAtLeast(Sum(s), |s|, Min(s));
    QuotientAtMost(Sum(s), |s|, Max(s));
  }

  // ---------------- the summary ----------------

  /** `e.get("total_score", 0)` */
  function ScoreOf(e: Evaluation): int {
    e.totalScore.GetOr(0)
  }

  /** `scores`: the totals in input order. */
  function Scores(evaluations: seq<Evaluation>): (r: seq<int>)
    ensures |r| == |evaluations| && forall i :: 0 <= i < |evaluations| ==> r[i] == ScoreOf(evaluations[i])
  {
    seq(|evaluations|, i requires 0 <= i < |evaluations| => ScoreOf(evaluations[i]))
  }

  /** `question.get("category", "Other")` */
  function CategoryOf(q: Question): string {
    q.category.GetOr(OtherCategory)
  }

  /** The categories of the questions the evaluations are aligned with: only indices below `len(questions)` count. */
  function AlignedCategories(evaluations: seq<Evaluation>, questions: seq<Question>): seq<string> {
    if evaluations == [] then []
    else
      var i := |evaluations| - 1;
      AlignedCategories(evaluations[..i], questions) + (if i < |questions| then [CategoryOf(questions[i])] else [])
  }

  /** The scores `category_scores[category]` collects, in input order. */
  function GroupScores(evaluations: seq<Evaluation>, questions: seq<Question>, category: string): seq<int> {
    if evaluations == [] then []
    else
      var i := |evaluations| - 1;
      GroupScores(evaluations[..i], questions, category)
        + (if i < |questions| && CategoryOf(questions[i]) == category then [ScoreOf(evaluations[i])] else [])
  }

  /** A category gets scores exactly when some aligned question carries it. */
  lemma {:induction false} GroupNonEmpty(evaluations: seq<Evaluation>, questions: seq<Question>, category: string)
    ensures GroupScores(evaluations, questions, category) != [] <==> category in AlignedCategories(evaluations, questions)
    decreases |evaluations|
  {
    if evaluations != [] {
      GroupNonEmpty(evaluations[..|evaluations| - 1], questions, category);
    }
  }

  /** `category_averages`, keys in the order in which `setdefault` first met them. */
  function CategoryAverages(evaluations: seq<Evaluation>, questions: seq<Question>): seq<(string, real)> {
    var keys := Dedup(AlignedCategories(evaluations, questions));
    seq(|keys|, k requires 0 <= k < |keys| =>
      GroupNonEmpty(evaluations, questions, keys[k]);
      (keys[k], RoundTenth(Mean(GroupScores(evaluations, questions, keys[k])))))
  }

  /** `strengths` after the loop: every list in input order, a missing key read as `[]`. */
  function Strengths(evaluations: seq<Evaluation>): seq<string> {
    if evaluations == [] then []
    else Strengths(evaluations[..|evaluations| - 1]) + evaluations[|evaluations| - 1].strengths.GetOr([])
  }

  /** `improvements` after the loop. */
  function Improvements(evaluations: seq<Evaluation>): seq<string> {
    if evaluations == [] then []
    else Improvements(evaluations[..|evaluations| - 1]) + evaluations[|evaluations| - 1].improvements.GetOr([])
  }

  /** `list(dict.fromkeys(items))[:5]` */
  function Top(items: seq<string>): seq<string> {
    Take(Dedup(items), TopCount)
  }

  /** The report `compute_session_summary` returns; `None` stands for `{}`. */
  function Summary(evaluations: seq<Evaluation>, questions: seq<Question>): Option<SessionSummary> {
    if evaluations == [] then None
    else
      var scores := Scores(evaluations);
      var average := RoundTenth(Mean(scores));
      Some(SessionSummary(|evaluations|, average, ScoreToGrade(average).Label(), Max(scores), Min(scores),
        CategoryAverages(evaluations, questions), Top(Strengths(evaluations)), Top(Improvements(evaluations))))
  }

  // ---------------- the loops ----------------

  lemma GroupStep(evaluations: seq<Evaluation>, questions: seq<Question>, i: nat, category: string)
    requires i < |evaluations|
    ensures AlignedCategories(evaluations[..i + 1], questions)
      == AlignedCategories(evaluations[..i], questions) + (if i < |questions| then [CategoryOf(questions[i])] else [])
    ensures GroupScores(evaluations[..i + 1], questions, category)
      == GroupScores(evaluations[..i], questions, category)
       + (if i < |questions| && CategoryOf(questions[i]) == category then [ScoreOf(evaluations[i])] else [])
  {
    assert evaluations[..i + 1][..i] == evaluations[..i];
  }

  ghost predicate Grouped(evaluations: seq<Evaluation>, questions: seq<Question>, order: seq<string>, categoryScores: map<string, seq<int>>) {
    && order == Dedup(AlignedCategories(evaluations, questions))
    && (forall c :: c in categoryScores <==> c in order)
    && (forall c :: c in categoryScores ==> categoryScores[c] == GroupScores(evaluations, questions, c))
  }

  /** A pass of the grouping loop over an evaluation with no aligned question changes nothing. */
  lemma {:induction false} UnalignedStep(evaluations: seq<Evaluation>, questions: seq<Question>, i: nat,
                      order: seq<string>, categoryScores: map<string, seq<int>>)
    requires |questions| <= i < |evaluations|
    requires Grouped(evaluations[..i], questions, order, categoryScores)
    ensures Grouped(evaluations[..i + 1], questions, order, categoryScores)
  {
    var e := evaluations[..i + 1];
    assert e[..i] == evaluations[..i];
    assert AlignedCategories(e, questions) == AlignedCategories(evaluations[..i], questions) + [];
    assert AlignedCategories(e, questions) == AlignedCategories(evaluations[..i], questions);
    forall c ensures GroupScores(e, questions, c) == GroupScores(evaluations[..i], questions, c) {
      assert GroupScores(e, questions, c) == GroupScores(evaluations[..i], questions, c) + [];
    }
  }

  /** The pass of the grouping loop adds the score to its own category only. */
  lemma {:induction false} AlignedGroupStep(evaluations: seq<Evaluation>, questions: seq<Question>, i: nat)
    requires i < |evaluations| && i < |questions|
    ensures AlignedCategories(evaluations[..i + 1], questions) == AlignedCategories(evaluations[..i], questions) + [CategoryOf(questions[i])]
    ensures GroupScores(evaluations[..i + 1], questions, CategoryOf(questions[i]))
      == GroupScores(evaluations[..i], questions, CategoryOf(questions[i])) + [ScoreOf(evaluations[i])]
    ensures forall c :: c != CategoryOf(questions[i]) ==> GroupScores(evaluations[..i + 1], questions, c) == GroupScores(evaluations[..i], questions, c)
  {
    var e := evaluations[..i + 1];
    assert e[..i] == evaluations[..i];
    forall c | c != CategoryOf(questions[i]) ensures GroupScores(e, questions, c) == GroupScores(evaluations[..i], questions, c) {
      assert GroupScores(e, questions, c) == GroupScores(evaluations[..i], questions, c) + [];
    }
  }

  /** A pass of the grouping loop adds a category to the key order when it is new. */
  lemma {:induction false} AlignedKeysStep(evaluations: seq<Evaluation>, questions: seq<Question>, i: nat,
                                            order: seq<string>, categoryScores: map<string, seq<int>>,
                                            order': seq<string>, categoryScores': map<string, seq<int>>)
    requires i < |evaluations| && i < |questions|
    requires Grouped(evaluations[..i], questions, order, categoryScores)
    requires var c := CategoryOf(questions[i]);
      && order' == (if c in categoryScores then order else order + [c])
      && categoryScores' == categoryScores[c := (if c in categoryScores then categoryScores[c] else []) + [ScoreOf(evaluations[i])]]
    ensures order' == Dedup(AlignedCategories(evaluations[..i + 1], questions))
    ensures forall c' :: c' in categoryScores' <==> c' in order'
  {
    var c := CategoryOf(questions[i]);
    var before := AlignedCategories(evaluations[..i], questions);
    AlignedGroupStep(evaluations, questions, i);
    DedupAppend(before, c);
    DedupMembership(before, c);
  }

  /** A pass of the grouping loop appends the score to the list of its question's category. */
  lemma {:induction false} AlignedScoresStep(evaluations: seq<Evaluation>, questions: seq<Question>, i: nat,
                                              order: seq<string>, categoryScores: map<string, seq<int>>, categoryScores': map<string, seq<int>>)
    requires i < |evaluations| && i < |questions|
    requires Grouped(evaluations[..i], questions, order, categoryScores)
    requires var c := CategoryOf(questions[i]);
      categoryScores' == categoryScores[c := (if c in categoryScores then categoryScores[c] else []) + [ScoreOf(evaluations[i])]]
    ensures forall c' :: c' in categoryScores' ==> categoryScores'[c'] == GroupScores(evaluations[..i + 1], questions, c')
  {
    var c := CategoryOf(questions[i]);
    AlignedGroupStep(evaluations, questions, i);
    DedupMembership(AlignedCategories(evaluations[..i], questions), c);
    GroupNonEmpty(evaluations[..i], questions, c);
    forall c' | c' in categoryScores' ensures categoryScores'[c'] == GroupScores(evaluations[..i + 1], questions, c') {
      if c' != c {
        assert categoryScores'[c'] == categoryScores[c'];
      }
    }
  }

  lemma {:induction false} AlignedStep(evaluations: seq<Evaluation>, questions: seq<Question>, i: nat,
                                        order: seq<string>, categoryScores: map<string, seq<int>>,
                                        order': seq<string>, categoryScores': map<string, seq<int>>)
    requires i < |evaluations| && i < |questions|
    requires Grouped(evaluations[..i], questions, order, categoryScores)
    requires var c := CategoryOf(questions[i]);
      && order' == (if c in categoryScores then order else order + [c])
      && categoryScores' == categoryScores[c := (if c in categoryScores then categoryScores[c] else []) + [ScoreOf(evaluations[i])]]
    ensures Grouped(evaluations[..i + 1], questions, order', categoryScores')
  {
    AlignedKeysStep(evaluations, questions, i, order, categoryScores, order', categoryScores');
    AlignedScoresStep(evaluations, questions, i, order, categoryScores, categoryScores');
  }

  lemma WholePrefix<T>(s: seq<T>)
    ensures s[..|s|] == s
  {
  }

  /** The loop filling `category_scores` with `setdefault(cat, []).append(score)`; `order` is the dict's key order. */
  method GroupByCategory(evaluations: seq<Evaluation>, questions: seq<Question>)
    returns (order: seq<string>, categoryScores: map<string, seq<int>>)
    ensures Grouped(evaluations, questions, order, categoryScores)
  {
    order, categoryScores := [], map[];
    var i := 0;
    while i < |evaluations|
      invariant 0 <= i <= |evaluations|
      invariant Grouped(evaluations[..i], questions, order, categoryScores)
    {
      if i < |questions| {
        ghost var order0, scores0 := order, categoryScores;
        var cat := CategoryOf(questions[i]);
        if cat !in categoryScores {
          order := order + [cat];
          categoryScores := categoryScores[cat := []];
        }
        categoryScores := categoryScores[cat := categoryScores[cat] + [ScoreOf(evaluations[i])]];
        AlignedStep(evaluations, questions, i, order0, scores0, order, categoryScores);
      } else {
        UnalignedStep(evaluations, questions, i, order, categoryScores);
      }
      i := i + 1;
    }
    WholePrefix(evaluations);
  }

  /** The `category_averages` comprehension over the dict with key order `order`. */
  function AveragesOf(order: seq<string>, categoryScores: map<string, seq<int>>): (r: seq<(string, real)>)
    requires forall k :: 0 <= k < |order| ==> order[k] in categoryScores && categoryScores[order[k]] != []
  {
    seq(|order|, k requires 0 <= k < |order| && order[k] in categoryScores && categoryScores[order[k]] != [] =>
      (order[k], RoundTenth(Mean(categoryScores[order[k]]))))
  }

  lemma GroupedAverages(evaluations: seq<Evaluation>, questions: seq<Question>, order: seq<string>, categoryScores: map<string, seq<int>>)
    requires Grouped(evaluations, questions, order, categoryScores)
    ensures forall k :: 0 <= k < |order| ==> order[k] in categoryScores && categoryScores[order[k]] != []
    ensures AveragesOf(order, categoryScores) == CategoryAverages(evaluations, questions)
  {
    forall k | 0 <= k < |order| ensures categoryScores[order[k]] != [] {
      GroupNonEmpty(evaluations, questions, order[k]);
    }
  }

  /** The loop extending `strengths` and `improvements`. */
  method CollectFeedback(evaluations: seq<Evaluation>) returns (strengths: seq<string>, improvements: seq<string>)
    ensures strengths == Strengths(evaluations) && improvements == Improvements(evaluations)
  {
    strengths, improvements := [], [];
    var i := 0;
    while i < |evaluations|
      invariant 0 <= i <= |evaluations|
      invariant strengths == Strengths(evaluations[..i]) && improvements == Improvements(evaluations[..i])
    {
      assert evaluations[..i + 1][..i] == evaluations[..i];
      strengths := strengths + evaluations[i].strengths.GetOr([]);
      improvements := improvements + evaluations[i].improvements.GetOr([]);
      i := i + 1;
    }
    WholePrefix(evaluations);
  }

  /** `compute_session_summary(evaluations, questions)` */
  method ComputeSessionSummary(evaluations: seq<Evaluation>, questions: seq<Question>) returns (r: Option<SessionSummary>)
    ensures r == Summary(evaluations, questions)
  {
    if evaluations == [] {
      return None;
    }
    var scores := Scores(evaluations);
    var average := RoundTenth(Mean(scores));
    var order, categoryScores := GroupByCategory(evaluations, questions);
    GroupedAverages(evaluations, questions, order, categoryScores);
    var averages := AveragesOf(order, categoryScores);
    var strengths, improvements := CollectFeedback(evaluations);
    r := Some(SessionSummary(|evaluations|, average, ScoreToGrade(average).Label(), Max(scores), Min(scores),
      averages, Top(strengths), Top(improvements)));
  }

  // ---------------- properties ----------------

  /** `total_questions`, `highest_score`, `lowest_score` and `average_score` describe the scores, and `overall_grade` is the grade of the rounded mean. */
  lemma SummaryDescribesScores(evaluations: seq<Evaluation>, questions: seq<Question>)
    requires evaluations != []
    ensures Summary(evaluations, questions).Some?
    ensures var r := Summary(evaluations, questions).value;
      && r.totalQuestions == |evaluations|
      && (forall i :: 0 <= i < |evaluations| ==> r.lowestScore <= ScoreOf(evaluations[i]) <= r.highestScore)
      && (exists i :: 0 <= i < |evaluations| && ScoreOf(evaluations[i]) == r.highestScore)
      && (exists i :: 0 <= i < |evaluations| && ScoreOf(evaluations[i]) == r.lowestScore)
      && r.lowestScore as real <= r.averageScore <= r.highestScore as real
      && -0.05 <= r.averageScore - Mean(Scores(evaluations)) <= 0.05
      && r.overallGrade == ScoreToGrade(r.averageScore).Label()
  {
    var scores := Scores(evaluations);
    MeanBounds(scores);
    RoundTenthBetween(Mean(scores), Min(scores), Max(scores));
    RoundTenthClose(Mean(scores));
    var hi :| 0 <= hi < |scores| && scores[hi] == Max(scores);
    var lo :| 0 <= lo < |scores| && scores[lo] == Min(scores);
    assert ScoreOf(evaluations[hi]) == Max(scores) && ScoreOf(evaluations[lo]) == Min(scores);
  }

  /** The aligned categories are those of the first `min(len(evaluations), len(questions))` questions. */
  lemma {:induction false} AlignedCategoriesAre(evaluations: seq<Evaluation>, questions: seq<Question>)
    ensures var r := AlignedCategories(evaluations, questions);
      && |r| == (if |evaluations| <= |questions| then |evaluations| else |questions|)
      && forall i :: 0 <= i < |r| ==> r[i] == CategoryOf(questions[i])
    decreases |evaluations|
  {
    if evaluations != [] {
      AlignedCategoriesAre(evaluations[..|evaluations| - 1], questions);
    }
  }

  /** The keys of `category_averages` are distinct and are exactly the categories of the questions aligned with an evaluation. */
  lemma CategoryKeysAre(evaluations: seq<Evaluation>, questions: seq<Question>, c: string)
    ensures Distinct(Keys(CategoryAverages(evaluations, questions)))
    ensures c in Keys(CategoryAverages(evaluations, questions))
      <==> exists i :: 0 <= i < |evaluations| && i < |questions| && CategoryOf(questions[i]) == c
  {
    var aligned := AlignedCategories(evaluations, questions);
    AlignedCategoriesAre(evaluations, questions);
    assert Keys(CategoryAverages(evaluations, questions)) == Dedup(aligned);
    DedupMembership(aligned, c);
    if c in aligned {
      var i :| 0 <= i < |aligned| && aligned[i] == c;
      assert i < |evaluations| && i < |questions| && CategoryOf(questions[i]) == c;
    }
    if exists i :: 0 <= i < |evaluations| && i < |questions| && CategoryOf(questions[i]) == c {
      var i :| 0 <= i < |evaluations| && i < |questions| && CategoryOf(questions[i]) == c;
      assert aligned[i] == c;
    }
  }

  /** The keys of a list of pairs. */
  function Keys(entries: seq<(string, real)>): (r: seq<string>)
    ensures |r| == |entries| && forall k :: 0 <= k < |entries| ==> r[k] == entries[k].0
  {
    seq(|entries|, k requires 0 <= k < |entries| => entries[k].0)
  }

  /** A question aligned with an evaluation but naming no category is counted under "Other". */
  lemma MissingCategoryCountsAsOther(evaluations: seq<Evaluation>, questions: seq<Question>, i: nat)
    requires i < |evaluations| && i < |questions| && questions[i].category.None?
    ensures OtherCategory in Keys(CategoryAverages(evaluations, questions))
    ensures ScoreOf(evaluations[i]) in GroupScores(evaluations, questions, OtherCategory)
  {
    CategoryKeysAre(evaluations, questions, OtherCategory);
    GroupScoresAre(evaluations, questions, OtherCategory, ScoreOf(evaluations[i]));
  }

  /** A category's group holds exactly the scores of the evaluations aligned with a question of that category. */
  lemma {:induction false} GroupScoresAre(evaluations: seq<Evaluation>, questions: seq<Question>, c: string, x: int)
    ensures x in GroupScores(evaluations, questions, c)
      <==> exists i :: 0 <= i < |evaluations| && i < |questions| && CategoryOf(questions[i]) == c && ScoreOf(evaluations[i]) == x
    decreases |evaluations|
  {
    if evaluations != [] {
      var n := |evaluations| - 1;
      var prefix := evaluations[..n];
      GroupScoresAre(prefix, questions, c, x);
      if exists i :: 0 <= i < |evaluations| && i < |questions| && CategoryOf(questions[i]) == c && ScoreOf(evaluations[i]) == x {
        var i :| 0 <= i < |evaluations| && i < |questions| && CategoryOf(questions[i]) == c && ScoreOf(evaluations[i]) == x;
        if i < n {
          assert prefix[i] == evaluations[i];
        }
      }
      if exists i :: 0 <= i < |prefix| && i < |questions| && CategoryOf(questions[i]) == c && ScoreOf(prefix[i]) == x {
        var i :| 0 <= i < |prefix| && i < |questions| && CategoryOf(questions[i]) == c && ScoreOf(prefix[i]) == x;
        assert evaluations[i] == prefix[i];
      }
    }
  }

  /** Each category average is the rounded mean of its group and lies between the group's lowest and highest score. */
  lemma CategoryAverageOfGroup(evaluations: seq<Evaluation>, questions: seq<Question>, k: nat)
    requires k < |CategoryAverages(evaluations, questions)|
    ensures var (c, average) := CategoryAverages(evaluations, questions)[k];
      var group := GroupScores(evaluations, questions, c);
      && group != []
      && average == RoundTenth(Mean(group))
      && Min(group) as real <= average <= Max(group) as real
  {
    var keys := Dedup(AlignedCategories(evaluations, questions));
    var c := keys[k];
    GroupNonEmpty(evaluations, questions, c);
    var group := GroupScores(evaluations, questions, c);
    MeanBounds(group);
    RoundTenthBetween(Mean(group), Min(group), Max(group));
  }

  lemma {:induction false} AlignedCategoriesIgnoreExtra(evaluations: seq<Evaluation>, extra: seq<Evaluation>, questions: seq<Question>)
    requires |evaluations| >= |questions|
    ensures AlignedCategories(evaluations + extra, questions) == AlignedCategories(evaluations, questions)
    ensures forall c :: GroupScores(evaluations + extra, questions, c) == GroupScores(evaluations, questions, c)
    decreases |extra|
  {
    if extra == [] {
      assert evaluations + extra == evaluations;
    } else {
      var shorter := extra[..|extra| - 1];
      var all := evaluations + extra;
      assert all[..|all| - 1] == evaluations + shorter;
      AlignedCategoriesIgnoreExtra(evaluations, shorter, questions);
      assert AlignedCategories(all, questions) == AlignedCategories(evaluations + shorter, questions) + [];
      forall c ensures GroupScores(all, questions, c) == GroupScores(evaluations, questions, c) {
        assert GroupScores(all, questions, c) == GroupScores(evaluations + shorter, questions, c) + [];
      }
    }
  }

  /** Evaluations beyond the last question do not enter any category average. */
  lemma ExtraEvaluationsIgnored(evaluations: seq<Evaluation>, extra: seq<Evaluation>, questions: seq<Question>)
    requires |evaluations| >= |questions|
    ensures CategoryAverages(evaluations + extra, questions) == CategoryAverages(evaluations, questions)
  {
    AlignedCategoriesIgnoreExtra(evaluations, extra, questions);
  }

  /** A strength is collected exactly when some evaluation lists it. */
  lemma {:induction false} StrengthsAre(evaluations: seq<Evaluation>, x: string)
    ensures x in Strengths(evaluations) <==> exists i :: 0 <= i < |evaluations| && x in evaluations[i].strengths.GetOr([])
    decreases |evaluations|
  {
    if evaluations != [] {
      var n := |evaluations| - 1;
      StrengthsAre(evaluations[..n], x);
      if exists i :: 0 <= i < |evaluations| && x in evaluations[i].strengths.GetOr([]) {
        var i :| 0 <= i < |evaluations| && x in evaluations[i].strengths.GetOr([]);
        if i < n { assert evaluations[..n][i] == evaluations[i]; }
      }
      if exists i :: 0 <= i < n && x in evaluations[..n][i].strengths.GetOr([]) {
        var i :| 0 <= i < n && x in evaluations[..n][i].strengths.GetOr([]);
        assert evaluations[i] == evaluations[..n][i];
      }
    }
  }

  /** An improvement is collected exactly when some evaluation lists it. */
  lemma {:induction false} ImprovementsAre(evaluations: seq<Evaluation>, x: string)
    ensures x in Improvements(evaluations) <==> exists i :: 0 <= i < |evaluations| && x in evaluations[i].improvements.GetOr([])
    decreases |evaluations|
  {
    if evaluations != [] {
      var n := |evaluations| - 1;
      ImprovementsAre(evaluations[..n], x);
      if exists i :: 0 <= i < |evaluations| && x in evaluations[i].improvements.GetOr([]) {
        var i :| 0 <= i < |evaluations| && x in evaluations[i].improvements.GetOr([]);
        if i < n { assert evaluations[..n][i] == evaluations[i]; }
      }
      if exists i :: 0 <= i < n && x in evaluations[..n][i].improvements.GetOr([]) {
        var i :| 0 <= i < n && x in evaluations[..n][i].improvements.GetOr([]);
        assert evaluations[i] == evaluations[..n][i];
      }
    }
  }

  /**
   * `top_strengths` and `top_improvements`: at most five, no repeats, in order of first
   * mention, and every item mentioned is kept when there are at most five distinct ones.
   */
  lemma TopIsFirstDistinct(items: seq<string>)
    ensures var r := Top(items);
      && |r| <= TopCount
      && Distinct(r)
      && r == Dedup(items)[..|r|]
      && (forall k :: 0 <= k < |r| ==> r[k] in items)
      && (forall p, q :: 0 <= p < q < |r| ==> FirstIndex(items, r[p]) < FirstIndex(items, r[q]))
      && (|Dedup(items)| <= TopCount ==> forall x :: x in items ==> x in r)
  {
    var d := Dedup(items);
    var r := Top(items);
    forall p, q | 0 <= p < q < |r| ensures FirstIndex(items, r[p]) < FirstIndex(items, r[q]) {
      assert r[p] == d[p] && r[q] == d[q];
      DedupKeepsFirstOccurrenceOrder(items, p, q);
    }
    forall x | x in items && |d| <= TopCount ensures x in r {
      DedupMembership(items, x);
    }
  }

  // ---------------- a missing total ----------------

  /** The two lists of evaluations read the same score, strengths and improvements at every index. */
  predicate SameReadings(a: seq<Evaluation>, b: seq<Evaluation>) {
    |a| == |b| && forall i :: 0 <= i < |a| ==>
      ScoreOf(a[i]) == ScoreOf(b[i]) && a[i].strengths == b[i].strengths && a[i].improvements == b[i].improvements
  }

  /** Evaluations that read the same give the same category groups and the same feedback lists. */
  lemma {:induction false} SameReadingsSameGroups(a: seq<Evaluation>, b: seq<Evaluation>, questions: seq<Question>)
    requires SameReadings(a, b)
    ensures AlignedCategories(a, questions) == AlignedCategories(b, questions)
    ensures forall c :: GroupScores(a, questions, c) == GroupScores(b, questions, c)
    ensures Strengths(a) == Strengths(b) && Improvements(a) == Improvements(b)
    decreases |a|
  {
    if a != [] {
      var n := |a| - 1;
      assert SameReadings(a[..n], b[..n]) by {
        forall i | 0 <= i < n ensures a[..n][i] == a[i] && b[..n][i] == b[i] { }
      }
      SameReadingsSameGroups(a[..n], b[..n], questions);
    }
  }

  /** Evaluations that read the same give the same report. */
  lemma SameReadingsSameSummary(a: seq<Evaluation>, b: seq<Evaluation>, questions: seq<Question>)
    requires SameReadings(a, b)
    ensures Summary(a, questions) == Summary(b, questions)
  {
    SameReadingsSameGroups(a, b, questions);
    assert Scores(a) == Scores(b);
    assert CategoryAverages(a, questions) == CategoryAverages(b, questions);
  }

  /**
   * An evaluation without `total_score` counts as a score of 0: the report is the one for a
   * total of 0, its score is 0, and an aligned one adds 0 to its question's category.
   */
  lemma MissingTotalCountsAsZero(evaluations: seq<Evaluation>, questions: seq<Question>, i: nat)
    requires i < |evaluations| && evaluations[i].totalScore.None?
    ensures Summary(evaluations, questions) == Summary(evaluations[i := evaluations[i].(totalScore := Some(0))], questions)
    ensures Scores(evaluations)[i] == 0
    ensures i < |questions| ==> 0 in GroupScores(evaluations, questions, CategoryOf(questions[i]))
  {
    var zeroed := evaluations[i := evaluations[i].(totalScore := Some(0))];
    assert SameReadings(evaluations, zeroed);
    SameReadingsSameSummary(evaluations, zeroed, questions);
    if i < |questions| {
      assert ScoreOf(evaluations[i]) == 0;
      GroupScoresAre(evaluations, questions, CategoryOf(questions[i]), 0);
    }
  }
}

/**
 * `EnhancedSkillExtractor` (enhanced_skill_extractor.py): the constructor registers one
 * phrase pattern per alias and fills `skill_to_category`; `extract_all_skills` walks the
 * phrase-matcher hits, keeps the first hit of every skill, files it under its category
 * and reports all six categories with the total count.
 *
 * spaCy is foreign.  Its pipeline appears here only as a tokenizer, a function from text
 * to token texts, used both on the document and on every alias (`nlp.make_doc`).  The
 * `PhraseMatcher` with `attr="LOWER"` is specified by `Matches`: a hit is a non-empty,
 * contiguous run of document tokens whose lowercase forms equal the pattern's tokens'
 * lowercase forms; hits are ordered by start token, then by pattern registration order.
 */
module SkillExtraction {
  import opened Wrappers
  import opened Text
  import opened Seqs
  import opened SkillTaxonomy

  /** The loaded spaCy pipeline, reduced to the texts of the tokens it produces. */
  type Tokenizer = string -> seq<string>

  const ModelMissingMessage := "spaCy model not found. Run: python -m spacy download en_core_web_sm"
  const OtherCategory := "Other"
  const ExplicitSource := "explicit"

  /** One phrase pattern registered with the matcher under the key `skill`. */
  datatype Pattern = Pattern(skill: string, tokens: seq<string>)
  /** A matcher hit `(match_id, start, end)`, the id already resolved to its key string. */
  datatype Match = Match(skill: string, start: nat, end: nat)
  /** `{"name": ..., "source": ...}` */
  datatype DetectedSkill = DetectedSkill(name: string, source: string)
  datatype CategorySkills = CategorySkills(category: string, skills: seq<DetectedSkill>)
  /** `{"categories": ..., "total_skills": ...}`; the categories dict in key order. */
  datatype ExtractionResult = ExtractionResult(categories: seq<CategorySkills>, totalSkills: int)

  // ---------------- patterns ----------------

  /** `a` indexes alias `a` of skill `j` of category `i` of `db`. */
  predicate AliasAt(db: seq<CategoryEntry>, i: int, j: int, a: int) {
    0 <= i < |db| && 0 <= j < |db[i].skills| && 0 <= a < |db[i].skills[j].aliases|
  }

  /** The patterns of one skill, one per alias in alias order. */
  function AliasPatterns(skill: string, aliases: seq<string>, tok: Tokenizer): seq<Pattern> {
    if aliases == [] then []
    else AliasPatterns(skill, aliases[..|aliases| - 1], tok) + [Pattern(skill, tok(aliases[|aliases| - 1]))]
  }

  /** The patterns of one category, skill after skill. */
  function SkillPatterns(skills: seq<SkillEntry>, tok: Tokenizer): seq<Pattern> {
    if skills == [] then []
    else
      var n := |skills| - 1;
      SkillPatterns(skills[..n], tok) + AliasPatterns(skills[n].name, skills[n].aliases, tok)
  }

  /** Every pattern the constructor registers, in registration order. */
  function Patterns(db: seq<CategoryEntry>, tok: Tokenizer): seq<Pattern> {
    if db == [] then []
    else
      var n := |db| - 1;
      Patterns(db[..n], tok) + SkillPatterns(db[n].skills, tok)
  }

  // ---------------- the phrase matcher ----------------

  /** The pattern `pat` matches the document tokens `doc` from token `start` on, ignoring case. */
  predicate TokensMatch(doc: seq<string>, pat: seq<string>, start: nat) {
    |pat| > 0 && start + |pat| <= |doc| && forall k :: 0 <= k < |pat| ==> Lower(doc[start + k]) == Lower(pat[k])
  }

  /** The hits that start at token `start`, in pattern registration order. */
  function MatchesAt(doc: seq<string>, pats: seq<Pattern>, start: nat): seq<Match> {
    if pats == [] then []
    else
      var p := pats[|pats| - 1];
      MatchesAt(doc, pats[..|pats| - 1], start)
        + (if TokensMatch(doc, p.tokens, start) then [Match(p.skill, start, start + |p.tokens|)] else [])
  }

  /** The hits that start before token `n`, by start token. */
  function MatchesBefore(doc: seq<string>, pats: seq<Pattern>, n: nat): seq<Match> {
    if n == 0 then [] else MatchesBefore(doc, pats, n - 1) + MatchesAt(doc, pats, n - 1)
  }

  /** `matcher(doc)`: every hit of every registered pattern. */
  function Matches(doc: seq<string>, pats: seq<Pattern>): seq<Match> {
    MatchesBefore(doc, pats, |doc|)
  }

  /** The key of every hit, in hit order. */
  function MatchNames(ms: seq<Match>): (r: seq<string>)
    ensures |r| == |ms| && forall k :: 0 <= k < |ms| ==> r[k] == ms[k].skill
  {
    seq(|ms|, k requires 0 <= k < |ms| => ms[k].skill)
  }

  // ---------------- filing the hits ----------------

  /** `self.skill_to_category.get(skill_name, "Other")` */
  function Lookup(skillToCategory: map<string, string>, name: string): string {
    if name in skillToCategory then skillToCategory[name] else OtherCategory
  }

  /** `categorized_skills.get(category, [])` */
  function Get(categorized: map<string, seq<DetectedSkill>>, category: string): seq<DetectedSkill> {
    if category in categorized then categorized[category] else []
  }

  /** The entries that `names`, each already first-seen, append to the list of `category`. */
  function Filed(names: seq<string>, category: string, skillToCategory: map<string, string>): seq<DetectedSkill> {
    if names == [] then []
    else
      var x := names[|names| - 1];
      Filed(names[..|names| - 1], category, skillToCategory)
        + (if Lookup(skillToCategory, x) == category then [DetectedSkill(x, ExplicitSource)] else [])
  }

  /** `formatted_output`: every category of `db` in order, with the entries filed under it. */
  function Formatted(names: seq<string>, db: seq<CategoryEntry>, skillToCategory: map<string, string>): (r: seq<CategorySkills>)
    ensures |r| == |db|
  {
    if db == [] then []
    else
      var n := |db| - 1;
      Formatted(names, db[..n], skillToCategory) + [CategorySkills(db[n].name, Filed(names, db[n].name, skillToCategory))]
  }

  /** `sum(len(v) for v in formatted_output.values())` */
  function TotalOf(categories: seq<CategorySkills>): int {
    if categories == [] then 0 else TotalOf(categories[..|categories| - 1]) + |categories[|categories| - 1].skills|
  }

  /** The result `extract_all_skills` builds from the keys of the matcher hits. */
  function Extraction(db: seq<CategoryEntry>, skillToCategory: map<string, string>, names: seq<string>): ExtractionResult {
    var categories := Formatted(Dedup(names), db, skillToCategory);
    ExtractionResult(categories, TotalOf(categories))
  }

  /** The key of every matcher hit on `text`, in hit order. */
  function MatchedNames(db: seq<CategoryEntry>, tok: Tokenizer, text: string): seq<string> {
    MatchNames(Matches(tok(text), Patterns(db, tok)))
  }

  /** What `extract_all_skills(text)` returns for an extractor built over `db` and `tok`. */
  function ExtractionOf(db: seq<CategoryEntry>, tok: Tokenizer, text: string): ExtractionResult {
    Extraction(db, SkillToCategory(db), MatchedNames(db, tok, text))
  }

  // ---------------- the extractor object ----------------

  class SkillExtractor {
    const tokenize: Tokenizer
    const skillsDb: seq<CategoryEntry>
    var skillToCategory: map<string, string>
    /** The patterns registered with `self.matcher`, in registration order. */
    var patterns: seq<Pattern>

    /** The matcher and `skill_to_category` are the ones `_create_patterns` builds from `skills_db`. */
    ghost predicate Valid()
      reads this
    {
      && skillToCategory == SkillToCategory(skillsDb)
      && patterns == Patterns(skillsDb, tokenize)
    }

    /** `__init__` once `spacy.load` has succeeded. */
    constructor (tok: Tokenizer)
      ensures Valid() && tokenize == tok && skillsDb == SkillsDatabase()
    {
      tokenize := tok;
      skillsDb := SkillsDatabase();
      skillToCategory := map[];
      patterns := [];
      new;
      CreatePatterns();
    }

    /** `_create_patterns()`: registers every alias of every skill and fills `skill_to_category`. */
    method CreatePatterns()
      requires skillToCategory == map[] && patterns == []
      modifies this
      ensures skillToCategory == SkillToCategory(skillsDb)
      ensures patterns == Patterns(skillsDb, tokenize)
    {
      var i := 0;
      while i < |skillsDb|
        invariant 0 <= i <= |skillsDb|
        invariant skillToCategory == SkillToCategory(skillsDb[..i])
        invariant patterns == Patterns(skillsDb[..i], tokenize)
      {
        AddCategory(skillsDb[i]);
        assert skillsDb[..i + 1][..i] == skillsDb[..i];
        i := i + 1;
      }
      assert skillsDb[..i] == skillsDb;
    }

    /** One pass of the outer loop of `_create_patterns`: every skill of one category. */
    method AddCategory(category: CategoryEntry)
      modifies this
      ensures skillToCategory == RegisterCategory(old(skillToCategory), category.name, category.skills)
      ensures patterns == old(patterns) + SkillPatterns(category.skills, tokenize)
    {
      var j := 0;
      while j < |category.skills|
        invariant 0 <= j <= |category.skills|
        invariant skillToCategory == RegisterCategory(old(skillToCategory), category.name, category.skills[..j])
        invariant patterns == old(patterns) + SkillPatterns(category.skills[..j], tokenize)
      {
        var skill := category.skills[j];
        skillToCategory := skillToCategory[skill.name := category.name];
        var aliasPatterns := AliasPatternsOf(skill);
        assert category.skills[..j + 1][..j] == category.skills[..j];
        patterns := patterns + aliasPatterns;
        j := j + 1;
      }
      assert category.skills[..j] == category.skills;
    }

    /** The innermost loop of `_create_patterns`: one pattern per alias of a skill. */
    method AliasPatternsOf(skill: SkillEntry) returns (aliasPatterns: seq<Pattern>)
      ensures aliasPatterns == AliasPatterns(skill.name, skill.aliases, tokenize)
    {
      aliasPatterns := [];
      var a := 0;
      while a < |skill.aliases|
        invariant 0 <= a <= |skill.aliases|
        invariant aliasPatterns == AliasPatterns(skill.name, skill.aliases[..a], tokenize)
      {
        assert skill.aliases[..a + 1][..a] == skill.aliases[..a];
        aliasPatterns := aliasPatterns + [Pattern(skill.name, tokenize(skill.aliases[a]))];
        a := a + 1;
      }
      assert skill.aliases[..a] == skill.aliases;
    }

    /** `extract_all_skills(text)` */
    method ExtractAllSkills(text: string) returns (r: ExtractionResult)
      requires Valid()
      ensures r == ExtractionOf(skillsDb, tokenize, text)
    {
      var doc := tokenize(text);
      var matches := Matches(doc, patterns);
      var categorized := CategorizeMatches(matches);
      var formatted := FormatCategories(categorized, Dedup(MatchNames(matches)));
      r := ExtractionResult(formatted, TotalOf(formatted));
    }

    /** The loop over the hits of `extract_all_skills`: the first hit of each skill is filed under its category. */
    method CategorizeMatches(matches: seq<Match>) returns (categorized: map<string, seq<DetectedSkill>>)
      ensures forall c :: Get(categorized, c) == Filed(Dedup(MatchNames(matches)), c, skillToCategory)
    {
      ghost var names := MatchNames(matches);
      ghost var firstSeen: seq<string> := [];
      categorized := map[];
      var seen: set<string> := {};
      var i := 0;
      while i < |matches|
        invariant 0 <= i <= |matches|
        invariant forall x :: x in seen <==> x in names[..i]
        invariant firstSeen == Dedup(names[..i])
        invariant forall c :: Get(categorized, c) == Filed(firstSeen, c, skillToCategory)
      {
        var skillName := matches[i].skill;
        SeenStep(names, i, seen);
        if skillName !in seen {
          seen := seen + {skillName};
          var category := Lookup(skillToCategory, skillName);
          ghost var before := categorized;
          categorized := categorized[category := Get(categorized, category) + [DetectedSkill(skillName, ExplicitSource)]];
          FirstHitStep(firstSeen, skillName, skillToCategory, before, categorized);
          FirstSeenStep(names, i);
          firstSeen := firstSeen + [skillName];
        } else {
          RepeatedHitStep(names, i);
        }
        i := i + 1;
      }
      assert names[..i] == names by { WholePrefix(names); }
    }

    /** The loop of `extract_all_skills` that lists every category of `skills_db`, empty or not. */
    method FormatCategories(categorized: map<string, seq<DetectedSkill>>, ghost names: seq<string>)
      returns (formatted: seq<CategorySkills>)
      requires forall c :: Get(categorized, c) == Filed(names, c, skillToCategory)
      ensures formatted == Formatted(names, skillsDb, skillToCategory)
    {
      formatted := [];
      var k := 0;
      while k < |skillsDb|
        invariant 0 <= k <= |skillsDb|
        invariant formatted == Formatted(names, skillsDb[..k], skillToCategory)
      {
        var category := skillsDb[k].name;
        FormattedStep(names, skillsDb, k, skillToCategory);
        formatted := formatted + [CategorySkills(category, Get(categorized, category))];
        k := k + 1;
      }
      WholePrefix(skillsDb);
    }
  }

  /** `EnhancedSkillExtractor()`: fails with the install hint when the spaCy model cannot be loaded. */
  method NewSkillExtractor(model: Option<Tokenizer>) returns (r: Result<SkillExtractor, string>)
    ensures model.None? ==> r == Failure(ModelMissingMessage)
    ensures model.Some? ==>
      r.Success? && fresh(r.value) && r.value.Valid() && r.value.tokenize == model.value && r.value.skillsDb == SkillsDatabase()
  {
    match model
    case None => r := Failure(ModelMissingMessage);
    case Some(tok) =>
      var extractor := new SkillExtractor(tok);
      r := Success(extractor);
  }

  // ---------------- helper lemmas ----------------

  /** The first hit of a skill appends it to the list of its category and to nothing else. */
  lemma FirstHitStep(firstSeen: seq<string>, x: string, skillToCategory: map<string, string>,
                     before: map<string, seq<DetectedSkill>>, after: map<string, seq<DetectedSkill>>)
    requires forall c :: Get(before, c) == Filed(firstSeen, c, skillToCategory)
    requires after == before[Lookup(skillToCategory, x) :=
      Get(before, Lookup(skillToCategory, x)) + [DetectedSkill(x, ExplicitSource)]]
    ensures forall c :: Get(after, c) == Filed(firstSeen + [x], c, skillToCategory)
  {
    var category := Lookup(skillToCategory, x);
    forall c ensures Get(after, c) == Filed(firstSeen + [x], c, skillToCategory) {
      FiledAppend(firstSeen, x, c, skillToCategory);
      if c == category {
        assert Get(after, c) == Get(before, c) + [DetectedSkill(x, ExplicitSource)];
      } else {
        assert Get(after, c) == Get(before, c);
      }
    }
  }

  /** The first hit of a skill extends the first-seen names by it. */
  lemma FirstSeenStep(names: seq<string>, i: nat)
    requires i < |names| && names[i] !in names[..i]
    ensures Dedup(names[..i + 1]) == Dedup(names[..i]) + [names[i]]
  {
    assert names[..i + 1] == names[..i] + [names[i]];
    DedupAppend(names[..i], names[i]);
  }

  /** `seen` holds the names of the hits so far, before and after hit `i`. */
  lemma SeenStep(names: seq<string>, i: nat, seen: set<string>)
    requires i < |names|
    requires forall x :: x in seen <==> x in names[..i]
    ensures names[i] in seen <==> names[i] in names[..i]
    ensures names[i] !in seen ==> forall x :: x in seen + {names[i]} <==> x in names[..i + 1]
    ensures names[i] in seen ==> forall x :: x in seen <==> x in names[..i + 1]
  {
    assert names[..i + 1] == names[..i] + [names[i]];
  }

  /** A later hit of an already seen skill changes nothing. */
  lemma RepeatedHitStep(names: seq<string>, i: nat)
    requires i < |names| && names[i] in names[..i]
    ensures Dedup(names[..i + 1]) == Dedup(names[..i])
  {
    assert names[..i + 1] == names[..i] + [names[i]];
    DedupAppend(names[..i], names[i]);
  }

  lemma WholePrefix<T>(s: seq<T>)
    ensures s[..|s|] == s
  {
  }

  lemma FormattedStep(names: seq<string>, db: seq<CategoryEntry>, k: nat, skillToCategory: map<string, string>)
    requires k < |db|
    ensures Formatted(names, db[..k + 1], skillToCategory)
      == Formatted(names, db[..k], skillToCategory) + [CategorySkills(db[k].name, Filed(names, db[k].name, skillToCategory))]
  {
    assert db[..k + 1][..k] == db[..k];
  }

  lemma FiledAppend(names: seq<string>, x: string, category: string, skillToCategory: map<string, string>)
    ensures Filed(names + [x], category, skillToCategory)
      == Filed(names, category, skillToCategory) + (if Lookup(skillToCategory, x) == category then [DetectedSkill(x, ExplicitSource)] else [])
  {
    assert (names + [x])[..|names|] == names;
  }
}

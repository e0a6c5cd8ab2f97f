/**
 * What `extract_all_skills` guarantees (enhanced_skill_extractor.py:107-135), proved
 * about the specification `ExtractionOf` that `SkillExtractor.ExtractAllSkills`
 * implements.
 */
module SkillExtractionLemmas {
  import opened Text
  import opened Seqs
  import opened SkillTaxonomy
  import opened SkillExtraction

  /** The conditions on a taxonomy under which the extractor behaves as intended. */
  predicate WellFormedTaxonomy(db: seq<CategoryEntry>) {
    SkillNamesUnique(db) && Distinct(CategoryNames(db)) && OtherCategory !in CategoryNames(db)
  }

  /** Some alias of skill `x` of category `i` occurs, as a whole case-insensitive token run, in `doc`. */
  ghost predicate AliasOccurs(db: seq<CategoryEntry>, tok: Tokenizer, doc: seq<string>, i: int, x: string) {
    exists j, a, s: nat :: AliasAt(db, i, j, a) && db[i].skills[j].name == x && TokensMatch(doc, tok(db[i].skills[j].aliases[a]), s)
  }

  lemma SkillsDatabaseWellFormed()
    ensures WellFormedTaxonomy(SkillsDatabase())
  {
    SkillsDatabaseNamesUnique();
    SkillsDatabaseCategories();
  }

  // ---------------- the patterns and the matcher ----------------

  lemma {:induction false} AliasPatternsAre(skill: string, aliases: seq<string>, tok: Tokenizer)
    ensures |AliasPatterns(skill, aliases, tok)| == |aliases|
    ensures forall a :: 0 <= a < |aliases| ==> AliasPatterns(skill, aliases, tok)[a] == Pattern(skill, tok(aliases[a]))
    decreases |aliases|
  {
    if aliases != [] {
      AliasPatternsAre(skill, aliases[..|aliases| - 1], tok);
    }
  }

  lemma {:induction false} SkillPatternsAre(skills: seq<SkillEntry>, tok: Tokenizer)
    ensures forall p :: p in SkillPatterns(skills, tok) <==>
      exists j, a :: 0 <= j < |skills| && 0 <= a < |skills[j].aliases| && p == Pattern(skills[j].name, tok(skills[j].aliases[a]))
    decreases |skills|
  {
    if skills != [] {
      var n := |skills| - 1;
      var prefix := skills[..n];
      SkillPatternsAre(prefix, tok);
      var own := AliasPatterns(skills[n].name, skills[n].aliases, tok);
      AliasPatternsAre(skills[n].name, skills[n].aliases, tok);
      assert forall j :: 0 <= j < n ==> prefix[j] == skills[j];
      forall p | p in own ensures exists a :: 0 <= a < |skills[n].aliases| && p == Pattern(skills[n].name, tok(skills[n].aliases[a])) {
        var a :| 0 <= a < |own| && own[a] == p;
      }
      forall j, a | 0 <= j < |skills| && 0 <= a < |skills[j].aliases|
        ensures Pattern(skills[j].name, tok(skills[j].aliases[a])) in SkillPatterns(skills, tok)
      {
        if j == n { assert own[a] == Pattern(skills[j].name, tok(skills[j].aliases[a])); }
      }
    }
  }

  /** The registered patterns are exactly the tokenized aliases, each under its skill's name. */
  lemma {:induction false} PatternsAre(db: seq<CategoryEntry>, tok: Tokenizer)
    ensures forall p :: p in Patterns(db, tok) <==>
      exists i, j, a :: AliasAt(db, i, j, a) && p == Pattern(db[i].skills[j].name, tok(db[i].skills[j].aliases[a]))
    decreases |db|
  {
    if db != [] {
      var n := |db| - 1;
      var prefix := db[..n];
      PatternsAre(prefix, tok);
      SkillPatternsAre(db[n].skills, tok);
      assert forall i :: 0 <= i < n ==> prefix[i] == db[i];
      var r := Patterns(db, tok);
      forall p | p in r ensures exists i, j, a :: AliasAt(db, i, j, a) && p == Pattern(db[i].skills[j].name, tok(db[i].skills[j].aliases[a])) {
        if p in Patterns(prefix, tok) {
          var i, j, a :| AliasAt(prefix, i, j, a) && p == Pattern(prefix[i].skills[j].name, tok(prefix[i].skills[j].aliases[a]));
          assert AliasAt(db, i, j, a);
        } else {
          var j, a :| 0 <= j < |db[n].skills| && 0 <= a < |db[n].skills[j].aliases| && p == Pattern(db[n].skills[j].name, tok(db[n].skills[j].aliases[a]));
          assert AliasAt(db, n, j, a);
        }
      }
      forall i, j, a | AliasAt(db, i, j, a) ensures Pattern(db[i].skills[j].name, tok(db[i].skills[j].aliases[a])) in r {
        if i < n { assert AliasAt(prefix, i, j, a); }
      }
    }
  }

  lemma {:induction false} MatchesAtAre(doc: seq<string>, pats: seq<Pattern>, start: nat)
    ensures forall m :: m in MatchesAt(doc, pats, start) <==>
      exists p :: p in pats && TokensMatch(doc, p.tokens, start) && m == Match(p.skill, start, start + |p.tokens|)
    decreases |pats|
  {
    if pats != [] {
      var prefix := pats[..|pats| - 1];
      assert pats == prefix + [pats[|pats| - 1]];
      MatchesAtAre(doc, prefix, start);
    }
  }

  lemma {:induction false} MatchesBeforeAre(doc: seq<string>, pats: seq<Pattern>, n: nat)
    ensures forall m :: m in MatchesBefore(doc, pats, n) <==>
      exists p, s: nat :: s < n && p in pats && TokensMatch(doc, p.tokens, s) && m == Match(p.skill, s, s + |p.tokens|)
  {
    if n > 0 {
      MatchesBeforeAre(doc, pats, n - 1);
      MatchesAtAre(doc, pats, n - 1);
    }
  }

  /** The matcher reports a hit for exactly the pattern occurrences in the document. */
  lemma MatchesAre(doc: seq<string>, pats: seq<Pattern>)
    ensures forall m :: m in Matches(doc, pats) <==>
      exists p, s: nat :: p in pats && TokensMatch(doc, p.tokens, s) && m == Match(p.skill, s, s + |p.tokens|)
  {
    MatchesBeforeAre(doc, pats, |doc|);
  }

  /**
   * A skill is among the matcher's keys exactly when one of its aliases, tokenized like
   * the text, occurs as a whole case-insensitive token run.
   */
  lemma MatchedNameIff(db: seq<CategoryEntry>, tok: Tokenizer, text: string, x: string)
    ensures x in MatchedNames(db, tok, text) <==> exists i :: 0 <= i < |db| && AliasOccurs(db, tok, tok(text), i, x)
  {
    var doc := tok(text);
    var pats := Patterns(db, tok);
    var ms := Matches(doc, pats);
    var names := MatchNames(ms);
    PatternsAre(db, tok);
    MatchesAre(doc, pats);
    if x in names {
      var k :| 0 <= k < |names| && names[k] == x;
      assert ms[k] in ms;
      var p, s: nat :| p in pats && TokensMatch(doc, p.tokens, s) && ms[k] == Match(p.skill, s, s + |p.tokens|);
      var i, j, a :| AliasAt(db, i, j, a) && p == Pattern(db[i].skills[j].name, tok(db[i].skills[j].aliases[a]));
      assert AliasOccurs(db, tok, doc, i, x);
    }
    if i :| 0 <= i < |db| && AliasOccurs(db, tok, doc, i, x) {
      var j, a, s: nat :| AliasAt(db, i, j, a) && db[i].skills[j].name == x && TokensMatch(doc, tok(db[i].skills[j].aliases[a]), s);
      var p := Pattern(x, tok(db[i].skills[j].aliases[a]));
      assert p in pats;
      var m := Match(x, s, s + |p.tokens|);
      assert m in ms;
      var k :| 0 <= k < |ms| && ms[k] == m;
      assert names[k] == x;
    }
  }

  // ---------------- filing ----------------

  /** A category's list holds exactly the first-seen names that look up to that category. */
  lemma {:induction false} FiledAre(names: seq<string>, category: string, skillToCategory: map<string, string>)
    ensures forall q :: 0 <= q < |Filed(names, category, skillToCategory)| ==>
      var e := Filed(names, category, skillToCategory)[q];
      e.name in names && Lookup(skillToCategory, e.name) == category && e.source == ExplicitSource
    ensures forall k :: 0 <= k < |names| && Lookup(skillToCategory, names[k]) == category ==>
      DetectedSkill(names[k], ExplicitSource) in Filed(names, category, skillToCategory)
    decreases |names|
  {
    if names != [] {
      var prefix := names[..|names| - 1];
      assert names == prefix + [names[|names| - 1]];
      FiledAre(prefix, category, skillToCategory);
    }
  }

  /** Entries of one category keep the order of `names`. */
  lemma {:induction false} FiledKeepsOrder(names: seq<string>, category: string, skillToCategory: map<string, string>, p: nat, q: nat)
    requires Distinct(names)
    requires p < q < |Filed(names, category, skillToCategory)|
    ensures Filed(names, category, skillToCategory)[p].name in names
    ensures Filed(names, category, skillToCategory)[q].name in names
    ensures FirstIndex(names, Filed(names, category, skillToCategory)[p].name)
          < FirstIndex(names, Filed(names, category, skillToCategory)[q].name)
    decreases |names|
  {
    var f := Filed(names, category, skillToCategory);
    FiledAre(names, category, skillToCategory);
    assert f[p] in f && f[q] in f;
    var prefix := names[..|names| - 1];
    var x := names[|names| - 1];
    var g := Filed(prefix, category, skillToCategory);
    FiledPrefix(names, category, skillToCategory, p);
    if q < |g| {
      FiledPrefix(names, category, skillToCategory, q);
      DistinctPrefix(names);
      FiledKeepsOrder(prefix, category, skillToCategory, p, q);
    } else {
      FiledLast(names, category, skillToCategory, q);
    }
  }

  lemma DistinctPrefix(names: seq<string>)
    requires Distinct(names) && names != []
    ensures Distinct(names[..|names| - 1])
  {
  }

  /** An entry inherited from the shorter list keeps its position among the names. */
  lemma FiledPrefix(names: seq<string>, category: string, skillToCategory: map<string, string>, p: nat)
    requires names != []
    requires p < |Filed(names[..|names| - 1], category, skillToCategory)|
    ensures p < |Filed(names, category, skillToCategory)|
    ensures Filed(names, category, skillToCategory)[p] == Filed(names[..|names| - 1], category, skillToCategory)[p]
    ensures Filed(names, category, skillToCategory)[p].name in names[..|names| - 1]
    ensures FirstIndex(names, Filed(names, category, skillToCategory)[p].name)
         == FirstIndex(names[..|names| - 1], Filed(names, category, skillToCategory)[p].name)
  {
    var prefix := names[..|names| - 1];
    var x := names[|names| - 1];
    assert names == prefix + [x];
    FiledAre(prefix, category, skillToCategory);
    var g := Filed(prefix, category, skillToCategory);
    assert g[p].name in prefix;
    FirstIndexOfPrefix(prefix, g[p].name, x);
  }

  /** An entry past the shorter list is the last name, which comes after every earlier one. */
  lemma FiledLast(names: seq<string>, category: string, skillToCategory: map<string, string>, q: nat)
    requires names != [] && Distinct(names)
    requires |Filed(names[..|names| - 1], category, skillToCategory)| <= q < |Filed(names, category, skillToCategory)|
    ensures Filed(names, category, skillToCategory)[q].name == names[|names| - 1]
    ensures FirstIndex(names, names[|names| - 1]) == |names| - 1
  {
    var prefix := names[..|names| - 1];
    var x := names[|names| - 1];
    assert names == prefix + [x];
    assert x !in prefix;
  }

  lemma {:induction false} FormattedAre(names: seq<string>, db: seq<CategoryEntry>, skillToCategory: map<string, string>)
    ensures |Formatted(names, db, skillToCategory)| == |db|
    ensures forall i :: 0 <= i < |db| ==>
      Formatted(names, db, skillToCategory)[i] == CategorySkills(db[i].name, Filed(names, db[i].name, skillToCategory))
    decreases |db|
  {
    if db != [] {
      var n := |db| - 1;
      FormattedAre(names, db[..n], skillToCategory);
    }
  }

  lemma TotalOfAppend(cs: seq<CategorySkills>, c: CategorySkills)
    ensures TotalOf(cs + [c]) == TotalOf(cs) + |c.skills|
  {
    assert (cs + [c])[..|cs|] == cs;
  }

  lemma DistinctCategoriesSplit(db: seq<CategoryEntry>)
    requires db != [] && Distinct(CategoryNames(db))
    ensures CategoryNames(db) == CategoryNames(db[..|db| - 1]) + [db[|db| - 1].name]
    ensures Distinct(CategoryNames(db[..|db| - 1]))
    ensures db[|db| - 1].name !in CategoryNames(db[..|db| - 1])
  {
    var n := |db| - 1;
    var prefix := db[..n];
    assert CategoryNames(db) == CategoryNames(prefix) + [db[n].name];
    forall p, q | 0 <= p < q < |prefix| ensures CategoryNames(prefix)[p] != CategoryNames(prefix)[q] {
      assert CategoryNames(db)[p] != CategoryNames(db)[q];
    }
  }

  /** Appending one name adds one to the total when it looks up to one of the (distinct) categories. */
  lemma {:induction false} TotalOfFormattedAppend(names: seq<string>, x: string, db: seq<CategoryEntry>, skillToCategory: map<string, string>)
    requires Distinct(CategoryNames(db))
    ensures TotalOf(Formatted(names + [x], db, skillToCategory))
      == TotalOf(Formatted(names, db, skillToCategory)) + if Lookup(skillToCategory, x) in CategoryNames(db) then 1 else 0
    decreases |db|
  {
    if db != [] {
      var n := |db| - 1;
      var prefix := db[..n];
      var c := db[n].name;
      DistinctCategoriesSplit(db);
      TotalOfFormattedAppend(names, x, prefix, skillToCategory);
      TotalOfAppend(Formatted(names + [x], prefix, skillToCategory), CategorySkills(c, Filed(names + [x], c, skillToCategory)));
      TotalOfAppend(Formatted(names, prefix, skillToCategory), CategorySkills(c, Filed(names, c, skillToCategory)));
      FiledAppend(names, x, c, skillToCategory);
      var inPrefix := Lookup(skillToCategory, x) in CategoryNames(prefix);
      assert Lookup(skillToCategory, x) in CategoryNames(db) <==> inPrefix || Lookup(skillToCategory, x) == c;
      assert !(inPrefix && Lookup(skillToCategory, x) == c);
    }
  }

  /** When every name looks up to a category of `db`, the total is the number of names. */
  lemma {:induction false} TotalOfFormattedCounts(names: seq<string>, db: seq<CategoryEntry>, skillToCategory: map<string, string>)
    requires Distinct(CategoryNames(db))
    requires forall k :: 0 <= k < |names| ==> Lookup(skillToCategory, names[k]) in CategoryNames(db)
    ensures TotalOf(Formatted(names, db, skillToCategory)) == |names|
    decreases |names|
  {
    if names == [] {
      FormattedAre(names, db, skillToCategory);
      TotalOfEmptyLists(Formatted(names, db, skillToCategory));
    } else {
      var prefix := names[..|names| - 1];
      assert names == prefix + [names[|names| - 1]];
      TotalOfFormattedCounts(prefix, db, skillToCategory);
      TotalOfFormattedAppend(prefix, names[|names| - 1], db, skillToCategory);
    }
  }

  lemma {:induction false} TotalOfEmptyLists(cs: seq<CategorySkills>)
    requires forall i :: 0 <= i < |cs| ==> cs[i].skills == []
    ensures TotalOf(cs) == 0
    decreases |cs|
  {
    if cs != [] {
      TotalOfEmptyLists(cs[..|cs| - 1]);
    }
  }

  // ---------------- properties of extract_all_skills ----------------

  /** Every first-seen hit looks up to a registered category. */
  lemma HitsLookUpToCategories(db: seq<CategoryEntry>, tok: Tokenizer, text: string, x: string)
    requires WellFormedTaxonomy(db)
    requires x in MatchedNames(db, tok, text)
    ensures exists i :: 0 <= i < |db| && AliasOccurs(db, tok, tok(text), i, x) && Lookup(SkillToCategory(db), x) == db[i].name
    ensures Lookup(SkillToCategory(db), x) in CategoryNames(db)
  {
    MatchedNameIff(db, tok, text, x);
    var i :| 0 <= i < |db| && AliasOccurs(db, tok, tok(text), i, x);
    var j, a, s: nat :| AliasAt(db, i, j, a) && db[i].skills[j].name == x && TokensMatch(tok(text), tok(db[i].skills[j].aliases[a]), s);
    SkillToCategoryIsRegistration(db, i, j);
    assert CategoryNames(db)[i] == db[i].name;
  }

  /** The result lists every category of the taxonomy, in registration order. */
  lemma ExtractionListsEveryCategory(db: seq<CategoryEntry>, tok: Tokenizer, text: string)
    ensures |ExtractionOf(db, tok, text).categories| == |db|
    ensures forall i :: 0 <= i < |db| ==> ExtractionOf(db, tok, text).categories[i].category == db[i].name
  {
    FormattedAre(Dedup(MatchedNames(db, tok, text)), db, SkillToCategory(db));
  }

  /** `total_skills` is the number of distinct skills the matcher found: no hit is filed under "Other" and lost. */
  lemma TotalSkillsCountsDistinctHits(db: seq<CategoryEntry>, tok: Tokenizer, text: string)
    requires WellFormedTaxonomy(db)
    ensures ExtractionOf(db, tok, text).totalSkills == |Dedup(MatchedNames(db, tok, text))|
  {
    var names := MatchedNames(db, tok, text);
    var d := Dedup(names);
    forall k | 0 <= k < |d| ensures Lookup(SkillToCategory(db), d[k]) in CategoryNames(db) {
      HitsLookUpToCategories(db, tok, text, d[k]);
    }
    TotalOfFormattedCounts(d, db, SkillToCategory(db));
  }

  /** Every entry is explicit and filed under the category `skill_to_category` gives its name, never "Other". */
  lemma EntriesFiledUnderTheirCategory(db: seq<CategoryEntry>, tok: Tokenizer, text: string, i: int, q: int)
    requires WellFormedTaxonomy(db)
    requires 0 <= i < |ExtractionOf(db, tok, text).categories|
    requires 0 <= q < |ExtractionOf(db, tok, text).categories[i].skills|
    ensures var r := ExtractionOf(db, tok, text);
      && r.categories[i].skills[q].source == ExplicitSource
      && r.categories[i].skills[q].name in SkillToCategory(db)
      && SkillToCategory(db)[r.categories[i].skills[q].name] == r.categories[i].category
      && r.categories[i].category != OtherCategory
  {
    var d := Dedup(MatchedNames(db, tok, text));
    FormattedAre(d, db, SkillToCategory(db));
    FiledAre(d, db[i].name, SkillToCategory(db));
    var e := ExtractionOf(db, tok, text).categories[i].skills[q];
    HitsLookUpToCategories(db, tok, text, e.name);
    assert CategoryNames(db)[i] == db[i].name;
  }

  /** No skill is listed twice, in one category or across two. */
  lemma EachSkillListedOnce(db: seq<CategoryEntry>, tok: Tokenizer, text: string, i: int, p: int, i2: int, q: int)
    requires WellFormedTaxonomy(db)
    requires 0 <= i < |ExtractionOf(db, tok, text).categories| && 0 <= i2 < |ExtractionOf(db, tok, text).categories|
    requires 0 <= p < |ExtractionOf(db, tok, text).categories[i].skills|
    requires 0 <= q < |ExtractionOf(db, tok, text).categories[i2].skills|
    requires ExtractionOf(db, tok, text).categories[i].skills[p].name == ExtractionOf(db, tok, text).categories[i2].skills[q].name
    ensures i == i2 && p == q
  {
    var s2c := SkillToCategory(db);
    var d := Dedup(MatchedNames(db, tok, text));
    FormattedAre(d, db, s2c);
    FiledAre(d, db[i].name, s2c);
    FiledAre(d, db[i2].name, s2c);
    var f := Filed(d, db[i].name, s2c);
    assert CategoryNames(db)[i] == db[i].name && CategoryNames(db)[i2] == db[i2].name;
    assert i == i2;
    if p < q {
      FiledKeepsOrder(d, db[i].name, s2c, p, q);
    } else if q < p {
      FiledKeepsOrder(d, db[i].name, s2c, q, p);
    }
  }

  /** A skill listed under category `i` has an alias of that category in the text. */
  lemma ListedOnlyIfAliasOccurs(db: seq<CategoryEntry>, tok: Tokenizer, text: string, i: int, x: string)
    requires WellFormedTaxonomy(db)
    requires 0 <= i < |db|
    requires DetectedSkill(x, ExplicitSource) in ExtractionOf(db, tok, text).categories[i].skills
    ensures AliasOccurs(db, tok, tok(text), i, x)
  {
    var s2c := SkillToCategory(db);
    var names := MatchedNames(db, tok, text);
    var d := Dedup(names);
    FormattedAre(d, db, s2c);
    var f := Filed(d, db[i].name, s2c);
    assert ExtractionOf(db, tok, text).categories[i].skills == f;
    FiledAre(d, db[i].name, s2c);
    var q :| 0 <= q < |f| && f[q] == DetectedSkill(x, ExplicitSource);
    assert x in d && Lookup(s2c, x) == db[i].name;
    DedupMembership(names, x);
    HitsLookUpToCategories(db, tok, text, x);
    var i2 :| 0 <= i2 < |db| && AliasOccurs(db, tok, tok(text), i2, x) && Lookup(s2c, x) == db[i2].name;
    assert CategoryNames(db)[i] == CategoryNames(db)[i2];
    assert i == i2;
  }

  /** A skill with an alias in the text is listed under its category. */
  lemma ListedIfAliasOccurs(db: seq<CategoryEntry>, tok: Tokenizer, text: string, i: int, x: string)
    requires WellFormedTaxonomy(db)
    requires 0 <= i < |db|
    requires AliasOccurs(db, tok, tok(text), i, x)
    ensures DetectedSkill(x, ExplicitSource) in ExtractionOf(db, tok, text).categories[i].skills
  {
    var s2c := SkillToCategory(db);
    var names := MatchedNames(db, tok, text);
    var d := Dedup(names);
    FormattedAre(d, db, s2c);
    FiledAre(d, db[i].name, s2c);
    MatchedNameIff(db, tok, text, x);
    var j, a, s: nat :| AliasAt(db, i, j, a) && db[i].skills[j].name == x && TokensMatch(tok(text), tok(db[i].skills[j].aliases[a]), s);
    SkillToCategoryIsRegistration(db, i, j);
    var k :| 0 <= k < |names| && names[k] == x;
    var k2 :| 0 <= k2 < |d| && d[k2] == x;
  }

  /**
   * A skill is listed under category `i` exactly when it is registered there and one of
   * its aliases occurs in the text as a whole case-insensitive token run.
   */
  lemma ListedIffAliasOccurs(db: seq<CategoryEntry>, tok: Tokenizer, text: string, i: int, x: string)
    requires WellFormedTaxonomy(db)
    requires 0 <= i < |db|
    ensures DetectedSkill(x, ExplicitSource) in ExtractionOf(db, tok, text).categories[i].skills
        <==> AliasOccurs(db, tok, tok(text), i, x)
  {
    if DetectedSkill(x, ExplicitSource) in ExtractionOf(db, tok, text).categories[i].skills {
      ListedOnlyIfAliasOccurs(db, tok, text, i, x);
    }
    if AliasOccurs(db, tok, tok(text), i, x) {
      ListedIfAliasOccurs(db, tok, text, i, x);
    }
  }

  /** Within a category, skills are listed in the order of their first hit. */
  lemma ListedInFirstHitOrder(db: seq<CategoryEntry>, tok: Tokenizer, text: string, i: int, p: int, q: int)
    requires 0 <= i < |ExtractionOf(db, tok, text).categories|
    requires 0 <= p < q < |ExtractionOf(db, tok, text).categories[i].skills|
    ensures ExtractionOf(db, tok, text).categories[i].skills[p].name in MatchedNames(db, tok, text)
    ensures ExtractionOf(db, tok, text).categories[i].skills[q].name in MatchedNames(db, tok, text)
    ensures FirstIndex(MatchedNames(db, tok, text), ExtractionOf(db, tok, text).categories[i].skills[p].name)
          < FirstIndex(MatchedNames(db, tok, text), ExtractionOf(db, tok, text).categories[i].skills[q].name)
  {
    var s2c := SkillToCategory(db);
    var names := MatchedNames(db, tok, text);
    var d := Dedup(names);
    FormattedAre(d, db, s2c);
    var f := Filed(d, db[i].name, s2c);
    FiledKeepsOrder(d, db[i].name, s2c, p, q);
    var pp := FirstIndex(d, f[p].name);
    var qq := FirstIndex(d, f[q].name);
    DedupKeepsFirstOccurrenceOrder(names, pp, qq);
  }

  /** A document without tokens yields every category, each empty, and a total of 0. */
  lemma EmptyDocumentFindsNothing(db: seq<CategoryEntry>, tok: Tokenizer, text: string)
    requires tok(text) == []
    ensures |ExtractionOf(db, tok, text).categories| == |db|
    ensures forall i :: 0 <= i < |db| ==> ExtractionOf(db, tok, text).categories[i] == CategorySkills(db[i].name, [])
    ensures ExtractionOf(db, tok, text).totalSkills == 0
  {
    var names := MatchedNames(db, tok, text);
    assert names == [];
    FormattedAre(Dedup(names), db, SkillToCategory(db));
    TotalOfEmptyLists(ExtractionOf(db, tok, text).categories);
  }

  // ---------------- the alias examples of the taxonomy ----------------

  /** Token `s` of the text is `word`, ignoring case, and the tokenizer keeps `word` as one token. */
  predicate WordAt(tok: Tokenizer, text: string, word: string, s: nat) {
    tok(word) == [word] && s < |tok(text)| && Lower(tok(text)[s]) == word
  }

  lemma ExampleAliasFound(db: seq<CategoryEntry>, tok: Tokenizer, text: string, i: int, j: int, a: int, s: nat)
    requires WellFormedTaxonomy(db)
    requires AliasAt(db, i, j, a)
    requires Lower(db[i].skills[j].aliases[a]) == db[i].skills[j].aliases[a]
    requires WordAt(tok, text, db[i].skills[j].aliases[a], s)
    ensures DetectedSkill(db[i].skills[j].name, ExplicitSource) in ExtractionOf(db, tok, text).categories[i].skills
  {
    var alias := db[i].skills[j].aliases[a];
    assert TokensMatch(tok(text), tok(alias), s);
    assert AliasOccurs(db, tok, tok(text), i, db[i].skills[j].name);
    ListedIffAliasOccurs(db, tok, text, i, db[i].skills[j].name);
  }

  /** "js" in the text lists JavaScript under Frontend Development. */
  lemma JsFindsJavaScript(tok: Tokenizer, text: string, s: nat)
    requires WordAt(tok, text, "js", s)
    ensures DetectedSkill("JavaScript", ExplicitSource) in ExtractionOf(SkillsDatabase(), tok, text).categories[1].skills
  {
    assert Lower("js") == "js";
    SkillsDatabaseWellFormed();
    ExampleAliasFound(SkillsDatabase(), tok, text, 1, 1, 1, s);
  }

  /** "reactjs" lists React under Frontend Development. */
  lemma ReactjsFindsReact(tok: Tokenizer, text: string, s: nat)
    requires WordAt(tok, text, "reactjs", s)
    ensures DetectedSkill("React", ExplicitSource) in ExtractionOf(SkillsDatabase(), tok, text).categories[1].skills
  {
    assert Lower("reactjs") == "reactjs";
    SkillsDatabaseWellFormed();
    ExampleAliasFound(SkillsDatabase(), tok, text, 1, 0, 1, s);
  }

  /** "golang" lists Go under Programming Languages. */
  lemma GolangFindsGo(tok: Tokenizer, text: string, s: nat)
    requires WordAt(tok, text, "golang", s)
    ensures DetectedSkill("Go", ExplicitSource) in ExtractionOf(SkillsDatabase(), tok, text).categories[0].skills
  {
    assert Lower("golang") == "golang";
    SkillsDatabaseWellFormed();
    ExampleAliasFound(SkillsDatabase(), tok, text, 0, 4, 1, s);
  }

  /** "k8s" lists Kubernetes under Cloud & DevOps. */
  lemma K8sFindsKubernetes(tok: Tokenizer, text: string, s: nat)
    requires WordAt(tok, text, "k8s", s)
    ensures DetectedSkill("Kubernetes", ExplicitSource) in ExtractionOf(SkillsDatabase(), tok, text).categories[4].skills
  {
    assert Lower("k8s") == "k8s";
    SkillsDatabaseWellFormed();
    ExampleAliasFound(SkillsDatabase(), tok, text, 4, 4, 1, s);
  }

  /**
   * Matching is by whole tokens: when no token of the text is "go" or "golang" (the text
   * "going", for instance), Go is not listed.
   */
  lemma GoNeedsWholeToken(tok: Tokenizer, text: string)
    requires tok("go") == ["go"] && tok("golang") == ["golang"]
    requires forall k :: 0 <= k < |tok(text)| ==> Lower(tok(text)[k]) != "go" && Lower(tok(text)[k]) != "golang"
    ensures DetectedSkill("Go", ExplicitSource) !in ExtractionOf(SkillsDatabase(), tok, text).categories[0].skills
  {
    GoAliasAbsent(tok, text);
    SkillsDatabaseWellFormed();
    if DetectedSkill("Go", ExplicitSource) in ExtractionOf(SkillsDatabase(), tok, text).categories[0].skills {
      ListedOnlyIfAliasOccurs(SkillsDatabase(), tok, text, 0, "Go");
    }
  }

  /** Without a "go" or "golang" token, no alias of Go occurs. */
  lemma GoAliasAbsent(tok: Tokenizer, text: string)
    requires tok("go") == ["go"] && tok("golang") == ["golang"]
    requires forall k :: 0 <= k < |tok(text)| ==> Lower(tok(text)[k]) != "go" && Lower(tok(text)[k]) != "golang"
    ensures !AliasOccurs(SkillsDatabase(), tok, tok(text), 0, "Go")
  {
    var db := SkillsDatabase();
    if AliasOccurs(db, tok, tok(text), 0, "Go") {
      var j, a, s: nat :| AliasAt(db, 0, j, a) && db[0].skills[j].name == "Go" && TokensMatch(tok(text), tok(db[0].skills[j].aliases[a]), s);
      GoAliases(j);
      assert false;
    }
  }

  /** The only skill named "Go" in the first category has the aliases "go" and "golang". */
  lemma GoAliases(j: int)
    requires 0 <= j < |SkillsDatabase()[0].skills| && SkillsDatabase()[0].skills[j].name == "Go"
    ensures SkillsDatabase()[0].skills[j].aliases == ["go", "golang"]
  {
  }
}

/**
 * The fixed skill taxonomy of the extractor (enhanced_skill_extractor.py:27-89): six
 * categories, each an ordered list of canonical skill names with their lowercase
 * aliases, and the reverse map from skill name to category that the constructor
 * builds (enhanced_skill_extractor.py:93-97).  Python dicts keep insertion order, so
 * both levels are sequences here.
 */
module SkillTaxonomy {
  import opened Seqs

  datatype SkillEntry = SkillEntry(name: string, aliases: seq<string>)
  datatype CategoryEntry = CategoryEntry(name: string, skills: seq<SkillEntry>)

  function ProgrammingLanguages(): seq<SkillEntry> {
    [ SkillEntry("Python", ["python", "python3"]),
      SkillEntry("Java", ["java"]),
      SkillEntry("C++", ["c++", "cpp"]),
      SkillEntry("C#", ["c#", "csharp"]),
      SkillEntry("Go", ["go", "golang"]),
      SkillEntry("R", ["r programming", "r"]) ]
  }

  function FrontendDevelopment(): seq<SkillEntry> {
    [ SkillEntry("React", ["react", "reactjs", "react.js"]),
      SkillEntry("JavaScript", ["javascript", "js"]),
      SkillEntry("TypeScript", ["typescript", "ts"]),
      SkillEntry("Angular", ["angular", "angularjs"]),
      SkillEntry("Vue.js", ["vue", "vuejs"]),
      SkillEntry("HTML", ["html"]),
      SkillEntry("CSS", ["css"]),
      SkillEntry("Bootstrap", ["bootstrap"]),
      SkillEntry("Tailwind CSS", ["tailwind", "tailwindcss"]) ]
  }

  function BackendDevelopment(): seq<SkillEntry> {
    [ SkillEntry("Node.js", ["node", "nodejs", "node.js"]),
      SkillEntry("Express.js", ["express", "expressjs"]),
      SkillEntry("Django", ["django"]),
      SkillEntry("Flask", ["flask"]),
      SkillEntry("Spring Boot", ["spring boot"]),
      SkillEntry(".NET Core", [".net core", "dotnet core"]) ]
  }

  function DatabaseSkills(): seq<SkillEntry> {
    [ SkillEntry("MySQL", ["mysql"]),
      SkillEntry("SQL", ["sql"]),
      SkillEntry("PostgreSQL", ["postgresql", "postgres"]),
      SkillEntry("MongoDB", ["mongodb", "mongo"]),
      SkillEntry("SQLite", ["sqlite"]),
      SkillEntry("Oracle", ["oracle db", "oracle"]) ]
  }

  function CloudDevOps(): seq<SkillEntry> {
    [ SkillEntry("AWS", ["aws", "amazon web services"]),
      SkillEntry("Azure", ["azure", "microsoft azure"]),
      SkillEntry("Google Cloud", ["gcp", "google cloud"]),
      SkillEntry("Docker", ["docker"]),
      SkillEntry("Kubernetes", ["kubernetes", "k8s"]),
      SkillEntry("Git", ["git", "github", "gitlab"]),
      SkillEntry("CI/CD", ["ci/cd", "continuous integration", "continuous deployment"]) ]
  }

  function DataScienceAI(): seq<SkillEntry> {
    [ SkillEntry("Machine Learning", ["machine learning", "ml"]),
      SkillEntry("Deep Learning", ["deep learning", "dl"]),
      SkillEntry("NLP", ["nlp", "natural language processing"]),
      SkillEntry("TensorFlow", ["tensorflow", "tf"]),
      SkillEntry("PyTorch", ["pytorch"]),
      SkillEntry("Pandas", ["pandas"]),
      SkillEntry("NumPy", ["numpy"]),
      SkillEntry("Scikit-learn", ["scikit learn", "sklearn"]) ]
  }

  /** `_load_skills_database()`: the six categories in registration order. */
  function SkillsDatabase(): seq<CategoryEntry> {
    [ CategoryEntry("Programming Languages", ProgrammingLanguages()),
      CategoryEntry("Frontend Development", FrontendDevelopment()),
      CategoryEntry("Backend Development", BackendDevelopment()),
      CategoryEntry("Databases", DatabaseSkills()),
      CategoryEntry("Cloud & DevOps", CloudDevOps()),
      CategoryEntry("Data Science & AI", DataScienceAI()) ]
  }

  function CategoryNames(db: seq<CategoryEntry>): (r: seq<string>)
    ensures |r| == |db| && forall i :: 0 <= i < |db| ==> r[i] == db[i].name
  {
    seq(|db|, i requires 0 <= i < |db| => db[i].name)
  }

  function SkillNames(skills: seq<SkillEntry>): (r: seq<string>)
    ensures |r| == |skills| && forall j :: 0 <= j < |skills| ==> r[j] == skills[j].name
  {
    seq(|skills|, j requires 0 <= j < |skills| => skills[j].name)
  }

  predicate DisjointNames(a: seq<string>, b: seq<string>) {
    forall p, q :: 0 <= p < |a| && 0 <= q < |b| ==> a[p] != b[q]
  }

  /** No canonical skill name is registered twice, within a category or across two. */
  predicate SkillNamesUnique(db: seq<CategoryEntry>) {
    && (forall i :: 0 <= i < |db| ==> Distinct(SkillNames(db[i].skills)))
    && (forall i, i2 :: 0 <= i < i2 < |db| ==> DisjointNames(SkillNames(db[i].skills), SkillNames(db[i2].skills)))
  }

  /** `name` is registered as a skill of category `i` of `db`. */
  predicate RegisteredIn(db: seq<CategoryEntry>, i: int, name: string) {
    0 <= i < |db| && name in SkillNames(db[i].skills)
  }

  /**
   * The effect of the inner loop of `_create_patterns` on `skill_to_category`: each
   * skill of one category is mapped to that category, a later assignment replacing an
   * earlier one.
   */
  function RegisterCategory(m: map<string, string>, category: string, skills: seq<SkillEntry>): map<string, string> {
    if skills == [] then m
    else RegisterCategory(m, category, skills[..|skills| - 1])[skills[|skills| - 1].name := category]
  }

  /** `skill_to_category` after `_create_patterns` has run over the categories of `db`. */
  function SkillToCategory(db: seq<CategoryEntry>): map<string, string> {
    if db == [] then map[]
    else RegisterCategory(SkillToCategory(db[..|db| - 1]), db[|db| - 1].name, db[|db| - 1].skills)
  }

  /** Registering one category adds exactly its skills, each mapped to that category. */
  lemma {:induction false} RegisterCategoryMaps(m: map<string, string>, category: string, skills: seq<SkillEntry>)
    ensures forall k :: k in RegisterCategory(m, category, skills) <==> k in m || k in SkillNames(skills)
    ensures forall k :: k in RegisterCategory(m, category, skills) ==>
      RegisterCategory(m, category, skills)[k] == if k in SkillNames(skills) then category else m[k]
    decreases |skills|
  {
    if skills != [] {
      var prefix := skills[..|skills| - 1];
      assert SkillNames(skills) == SkillNames(prefix) + [skills[|skills| - 1].name];
      RegisterCategoryMaps(m, category, prefix);
    }
  }

  /**
   * `skill_to_category` holds exactly the registered skill names, and maps each to a
   * category it is registered under.
   */
  lemma {:induction false} SkillToCategoryMaps(db: seq<CategoryEntry>)
    ensures forall k :: k in SkillToCategory(db) <==> exists i :: RegisteredIn(db, i, k)
    ensures forall k :: k in SkillToCategory(db) ==> exists i :: RegisteredIn(db, i, k) && SkillToCategory(db)[k] == db[i].name
    decreases |db|
  {
    if db != [] {
      var n := |db| - 1;
      var prefix := db[..n];
      var m := SkillToCategory(prefix);
      SkillToCategoryMaps(prefix);
      RegisterCategoryMaps(m, db[n].name, db[n].skills);
      var r := SkillToCategory(db);
      assert forall i :: 0 <= i < n ==> prefix[i] == db[i];
      forall k | k in r ensures exists i :: RegisteredIn(db, i, k) && r[k] == db[i].name {
        if k in SkillNames(db[n].skills) {
          assert RegisteredIn(db, n, k);
        } else {
          var i :| RegisteredIn(prefix, i, k) && m[k] == prefix[i].name;
          assert RegisteredIn(db, i, k);
        }
      }
      forall k | exists i :: RegisteredIn(db, i, k) ensures k in r {
        var i :| RegisteredIn(db, i, k);
        if i < n { assert RegisteredIn(prefix, i, k); }
      }
    }
  }

  /** With unique names, every skill is mapped to exactly the category it is listed under. */
  lemma SkillToCategoryIsRegistration(db: seq<CategoryEntry>, i: int, j: int)
    requires SkillNamesUnique(db)
    requires 0 <= i < |db| && 0 <= j < |db[i].skills|
    ensures db[i].skills[j].name in SkillToCategory(db)
    ensures SkillToCategory(db)[db[i].skills[j].name] == db[i].name
  {
    var name := db[i].skills[j].name;
    var m := SkillToCategory(db);
    SkillToCategoryMaps(db);
    assert SkillNames(db[i].skills)[j] == name;
    assert RegisteredIn(db, i, name);
    var i2 :| RegisteredIn(db, i2, name) && m[name] == db[i2].name;
    assert i2 == i;
  }

  lemma ProgrammingLanguagesDistinct() ensures Distinct(SkillNames(ProgrammingLanguages())) {}
  lemma FrontendDevelopmentDistinct() ensures Distinct(SkillNames(FrontendDevelopment())) {}
  lemma BackendDevelopmentDistinct() ensures Distinct(SkillNames(BackendDevelopment())) {}
  lemma DatabaseSkillsDistinct() ensures Distinct(SkillNames(DatabaseSkills())) {}
  lemma CloudDevOpsDistinct() ensures Distinct(SkillNames(CloudDevOps())) {}
  lemma DataScienceAIDistinct() ensures Distinct(SkillNames(DataScienceAI())) {}

  lemma ProgrammingLanguagesApartFrontendDevelopment() ensures DisjointNames(SkillNames(ProgrammingLanguages()), SkillNames(FrontendDevelopment())) {}
  lemma ProgrammingLanguagesApartBackendDevelopment() ensures DisjointNames(SkillNames(ProgrammingLanguages()), SkillNames(BackendDevelopment())) {}
  lemma ProgrammingLanguagesApartDatabaseSkills() ensures DisjointNames(SkillNames(ProgrammingLanguages()), SkillNames(DatabaseSkills())) {}
  lemma ProgrammingLanguagesApartCloudDevOps() ensures DisjointNames(SkillNames(ProgrammingLanguages()), SkillNames(CloudDevOps())) {}
  lemma ProgrammingLanguagesApartDataScienceAI() ensures DisjointNames(SkillNames(ProgrammingLanguages()), SkillNames(DataScienceAI())) {}
  lemma FrontendDevelopmentApartBackendDevelopment() ensures DisjointNames(SkillNames(FrontendDevelopment()), SkillNames(BackendDevelopment())) {}
  lemma FrontendDevelopmentApartDatabaseSkills() ensures DisjointNames(SkillNames(FrontendDevelopment()), SkillNames(DatabaseSkills())) {}
  lemma FrontendDevelopmentApartCloudDevOps() ensures DisjointNames(SkillNames(FrontendDevelopment()), SkillNames(CloudDevOps())) {}
  lemma FrontendDevelopmentApartDataScienceAI() ensures DisjointNames(SkillNames(FrontendDevelopment()), SkillNames(DataScienceAI())) {}
  lemma BackendDevelopmentApartDatabaseSkills() ensures DisjointNames(SkillNames(BackendDevelopment()), SkillNames(DatabaseSkills())) {}
  lemma BackendDevelopmentApartCloudDevOps() ensures DisjointNames(SkillNames(BackendDevelopment()), SkillNames(CloudDevOps())) {}
  lemma BackendDevelopmentApartDataScienceAI() ensures DisjointNames(SkillNames(BackendDevelopment()), SkillNames(DataScienceAI())) {}
  lemma DatabaseSkillsApartCloudDevOps() ensures DisjointNames(SkillNames(DatabaseSkills()), SkillNames(CloudDevOps())) {}
  lemma DatabaseSkillsApartDataScienceAI() ensures DisjointNames(SkillNames(DatabaseSkills()), SkillNames(DataScienceAI())) {}
  lemma CloudDevOpsApartDataScienceAI() ensures DisjointNames(SkillNames(CloudDevOps()), SkillNames(DataScienceAI())) {}

  /** The literal taxonomy registers every canonical name once. */
  lemma SkillsDatabaseNamesUnique()
    ensures SkillNamesUnique(SkillsDatabase())
  {
    var db := SkillsDatabase();
    ProgrammingLanguagesDistinct(); FrontendDevelopmentDistinct(); BackendDevelopmentDistinct();
    DatabaseSkillsDistinct(); CloudDevOpsDistinct(); DataScienceAIDistinct();
    ProgrammingLanguagesApartFrontendDevelopment(); ProgrammingLanguagesApartBackendDevelopment(); ProgrammingLanguagesApartDatabaseSkills();
    ProgrammingLanguagesApartCloudDevOps(); ProgrammingLanguagesApartDataScienceAI(); FrontendDevelopmentApartBackendDevelopment();
    FrontendDevelopmentApartDatabaseSkills(); FrontendDevelopmentApartCloudDevOps(); FrontendDevelopmentApartDataScienceAI();
    BackendDevelopmentApartDatabaseSkills(); BackendDevelopmentApartCloudDevOps(); BackendDevelopmentApartDataScienceAI();
    DatabaseSkillsApartCloudDevOps(); DatabaseSkillsApartDataScienceAI(); CloudDevOpsApartDataScienceAI();
    forall i | 0 <= i < |db| ensures Distinct(SkillNames(db[i].skills)) {}
    forall i, i2 | 0 <= i < i2 < |db| ensures DisjointNames(SkillNames(db[i].skills), SkillNames(db[i2].skills)) {}
  }

  /** The six categories, in registration order; "Other" is none of them. */
  lemma SkillsDatabaseCategories()
    ensures CategoryNames(SkillsDatabase()) == ["Programming Languages", "Frontend Development",
      "Backend Development", "Databases", "Cloud & DevOps", "Data Science & AI"]
    ensures Distinct(CategoryNames(SkillsDatabase()))
    ensures "Other" !in CategoryNames(SkillsDatabase())
  {
    var names := CategoryNames(SkillsDatabase());
    assert names == ["Programming Languages", "Frontend Development",
      "Backend Development", "Databases", "Cloud & DevOps", "Data Science & AI"];
  }
}

/**
 * The PortfolioGenerator of resume-to-portfoliov2/portfolio-integration.py:
 * the keyword-based skill categoriser, the four HTML fragment generators and
 * populate_template, which fills a template's `{{KEY}}` tokens from a resume.
 */
module Integration {
  import opened Text
  import opened Values
  import opened Decimal
  import opened Replace
  import opened Keys

  /** An experience, education or project dict of the resume. */
  type Record = map<string, Value>

  /** f"{record.get(field, default)}". */
  function Field(r: Record, field: string, default: string): string
  {
    if field in r then ToStr(r[field]) else default
  }

  // ----- extract_skills_by_category -----

  datatype Category = ProgrammingLanguages | Frameworks | Databases | CloudDevops

  /** The categories in dictionary order, the order in which they are tried. */
  const CategoryOrder: seq<Category> := [ProgrammingLanguages, Frameworks, Databases, CloudDevops]

  const LanguageKeywords: seq<string> := [
    "python", "javascript", "java", "c++", "c#", "php", "ruby",
    "go", "rust", "typescript", "swift", "kotlin", "scala", "r"]

  const FrameworkKeywords: seq<string> := [
    "react", "angular", "vue", "node.js", "express", "django",
    "flask", "spring", "laravel", "rails", "asp.net", "next.js",
    "nuxt.js", "svelte", "fastapi", "nestjs"]

  const DatabaseKeywords: seq<string> := [
    "mysql", "postgresql", "mongodb", "redis", "sqlite",
    "oracle", "cassandra", "elasticsearch", "dynamodb", "firebase"]

  const CloudKeywords: seq<string> := [
    "aws", "azure", "gcp", "docker", "kubernetes", "jenkins",
    "git", "github", "gitlab", "terraform", "ansible", "nginx"]

  function Keywords(c: Category): seq<string>
  {
    match c
    case ProgrammingLanguages => LanguageKeywords
    case Frameworks => FrameworkKeywords
    case Databases => DatabaseKeywords
    case CloudDevops => CloudKeywords
  }


  /** One of c's keywords occurs in s. */
  predicate Mentions(s: string, c: Category)
  {
    AnyIn(s, Keywords(c))
  }

  /** The first category of order that hit accepts, programming languages when there is none. */
  function FirstWhere(order: seq<Category>, hit: Category -> bool): Category
    decreases |order|
  {
    if order == [] then ProgrammingLanguages
    else if hit(order[0]) then order[0]
    else FirstWhere(order[1..], hit)
  }

  /** The first category of order with a keyword in s, programming languages when there is none. */
  function FirstHit(s: string, order: seq<Category>): Category
  {
    FirstWhere(order, c => Mentions(s, c))
  }

  /** skill.lower().strip(): the text the keywords are searched in. */
  function Normalised(skill: string): string
  {
    Strip(Lower(skill))
  }

  /** The category extract_skills_by_category puts a skill in. */
  function Classify(skill: string): Category
  {
    FirstHit(Normalised(skill), CategoryOrder)
  }

  /** The skills that classify puts in c, in input order. */
  function Bucket(skills: seq<string>, classify: string -> Category, c: Category): seq<string>
    decreases |skills|
  {
    if skills == [] then []
    else
      var last := skills[|skills| - 1];
      Bucket(skills[..|skills| - 1], classify, c) + (if classify(last) == c then [last] else [])
  }

  /** A keyword list is missed when each keyword has a character that s lacks. */
  lemma NoneInByChars(s: string, keywords: seq<string>, witnesses: seq<char>)
    requires |witnesses| == |keywords|
    requires forall i | 0 <= i < |keywords| :: witnesses[i] in keywords[i] && witnesses[i] !in s
    ensures !AnyIn(s, keywords)
  {
    forall i | 0 <= i < |keywords| ensures !Contains(s, keywords[i]) {
      MissingChar(s, keywords[i], witnesses[i]);
    }
  }

  /** The first accepted category wins: the categories before it were rejected. */
  lemma {:induction false} FirstWhereAt(order: seq<Category>, hit: Category -> bool, j: nat)
    requires j < |order| && hit(order[j])
    requires forall t | 0 <= t < j :: !hit(order[t])
    ensures FirstWhere(order, hit) == order[j]
    decreases j
  {
    if j > 0 {
      assert !hit(order[0]);
      forall t | 0 <= t < j - 1 ensures !hit(order[1..][t]) {
        assert order[1..][t] == order[t + 1];
      }
      FirstWhereAt(order[1..], hit, j - 1);
    }
  }

  /** With no category accepted, the default is programming languages. */
  lemma {:induction false} FirstWhereNone(order: seq<Category>, hit: Category -> bool)
    requires forall t | 0 <= t < |order| :: !hit(order[t])
    ensures FirstWhere(order, hit) == ProgrammingLanguages
    decreases |order|
  {
    if order != [] {
      assert !hit(order[0]);
      FirstWhereNone(order[1..], hit);
    }
  }

  /** The first category hit wins: the categories before it were missed. */
  lemma FirstHitAt(s: string, order: seq<Category>, j: nat)
    requires j < |order| && Mentions(s, order[j])
    requires forall t | 0 <= t < j :: !Mentions(s, order[t])
    ensures FirstHit(s, order) == order[j]
  {
    FirstWhereAt(order, c => Mentions(s, c), j);
  }

  /** With no category hit, the skill defaults to programming languages. */
  lemma FirstHitNone(s: string, order: seq<Category>)
    requires forall t | 0 <= t < |order| :: !Mentions(s, order[t])
    ensures FirstHit(s, order) == ProgrammingLanguages
  {
    FirstWhereNone(order, c => Mentions(s, c));
  }

  /**
   * The classification spelled out: a skill is a framework, a database or a
   * cloud/DevOps tool exactly when the lower-cased, stripped skill holds a
   * keyword of that category and none of an earlier one; it is a programming
   * language when it holds a language keyword or no keyword at all.
   */
  lemma ClassifyCases(skill: string)
    ensures var s := Normalised(skill);
      var lang, fw, db, cloud := AnyIn(s, LanguageKeywords), AnyIn(s, FrameworkKeywords),
        AnyIn(s, DatabaseKeywords), AnyIn(s, CloudKeywords);
      && (Classify(skill) == ProgrammingLanguages <==> lang || (!fw && !db && !cloud))
      && (Classify(skill) == Frameworks <==> !lang && fw)
      && (Classify(skill) == Databases <==> !lang && !fw && db)
      && (Classify(skill) == CloudDevops <==> !lang && !fw && !db && cloud)
  {
  }

  /** Adding one more skill appends it to its own bucket and leaves the others alone. */
  lemma BucketStep(skills: seq<string>, classify: string -> Category, i: nat, c: Category)
    requires i < |skills|
    ensures Bucket(skills[..i + 1], classify, c) == Bucket(skills[..i], classify, c) + (if classify(skills[i]) == c then [skills[i]] else [])
  {
    assert skills[..i + 1][..i] == skills[..i];
  }

  /** The dict extract_skills_by_category fills: one list per category. */
  datatype Categorized = Categorized(
    languages: seq<string>, frameworks: seq<string>, databases: seq<string>, cloud: seq<string>)
  {
    /** categorized[c]. */
    function At(c: Category): seq<string>
    {
      match c
      case ProgrammingLanguages => languages
      case Frameworks => frameworks
      case Databases => databases
      case CloudDevops => cloud
    }

    /** categorized[c].append(skill). */
    function Append(c: Category, skill: string): (r: Categorized)
      ensures r.At(c) == At(c) + [skill]
      ensures forall d | d != c :: r.At(d) == At(d)
    {
      match c
      case ProgrammingLanguages => this.(languages := languages + [skill])
      case Frameworks => this.(frameworks := frameworks + [skill])
      case Databases => this.(databases := databases + [skill])
      case CloudDevops => this.(cloud := cloud + [skill])
    }
  }

  /** The dict extract_skills_by_category returns. */
  function Categorize(skills: seq<string>): Categorized
  {
    Categorized(
      Bucket(skills, Classify, ProgrammingLanguages), Bucket(skills, Classify, Frameworks),
      Bucket(skills, Classify, Databases), Bucket(skills, Classify, CloudDevops))
  }

  /**
   * The inner loop of extract_skills_by_category over the lower-cased,
   * stripped skill: the first category, in dictionary order, one of whose
   * keywords occurs in it; programming languages when there is none.
   */
  method MatchCategory(skillLower: string) returns (category: Category)
    ensures category == FirstHit(skillLower, CategoryOrder)
  {
    var placed := false;
    category := ProgrammingLanguages;
    for j := 0 to |CategoryOrder|
      invariant !placed
      invariant forall t | 0 <= t < j :: !Mentions(skillLower, CategoryOrder[t])
    {
      if Mentions(skillLower, CategoryOrder[j]) {
        FirstHitAt(skillLower, CategoryOrder, j);
        category := CategoryOrder[j];
        placed := true;
        break;
      }
    }
    if !placed {
      FirstHitNone(skillLower, CategoryOrder);
    }
  }

  /** extract_skills_by_category: every skill is appended to the list of its category, in input order. */
  method ExtractSkillsByCategory(skills: seq<string>) returns (categorized: Categorized)
    ensures categorized == Categorize(skills)
  {
    categorized := Categorized([], [], [], []);
    for i := 0 to |skills|
      invariant forall c: Category :: categorized.At(c) == Bucket(skills[..i], Classify, c)
    {
      var skillLower := Normalised(skills[i]);
      var category := MatchCategory(skillLower);
      CategorizeStep(skills, i, categorized);
      categorized := categorized.Append(category, skills[i]);
    }
    CategorizeDone(skills, categorized);
  }

  /** One pass of the loop keeps every list equal to its bucket of the skills seen so far. */
  lemma CategorizeStep(skills: seq<string>, i: nat, before: Categorized)
    requires i < |skills|
    requires forall c: Category :: before.At(c) == Bucket(skills[..i], Classify, c)
    ensures forall c: Category ::
      before.Append(Classify(skills[i]), skills[i]).At(c) == Bucket(skills[..i + 1], Classify, c)
  {
    var after := before.Append(Classify(skills[i]), skills[i]);
    forall c: Category ensures after.At(c) == Bucket(skills[..i + 1], Classify, c) {
      BucketStep(skills, Classify, i, c);
    }
  }

  /** Lists equal to the buckets of all the skills make up Categorize(skills). */
  lemma CategorizeDone(skills: seq<string>, categorized: Categorized)
    requires forall c: Category :: categorized.At(c) == Bucket(skills[..|skills|], Classify, c)
    ensures categorized == Categorize(skills)
  {
    assert skills[..|skills|] == skills;
    assert categorized.At(ProgrammingLanguages) == Bucket(skills, Classify, ProgrammingLanguages);
    assert categorized.At(Frameworks) == Bucket(skills, Classify, Frameworks);
    assert categorized.At(Databases) == Bucket(skills, Classify, Databases);
    assert categorized.At(CloudDevops) == Bucket(skills, Classify, CloudDevops);
  }

  /** Every skill occurs in the four buckets together exactly as often as in the input. */
  lemma {:induction false} BucketCounts(skills: seq<string>, classify: string -> Category, x: string)
    ensures multiset(Bucket(skills, classify, ProgrammingLanguages))[x] + multiset(Bucket(skills, classify, Frameworks))[x]
      + multiset(Bucket(skills, classify, Databases))[x] + multiset(Bucket(skills, classify, CloudDevops))[x]
      == multiset(skills)[x]
    decreases |skills|
  {
    if skills != [] {
      var init := skills[..|skills| - 1];
      var last := skills[|skills| - 1];
      BucketCounts(init, classify, x);
      CountSnoc(skills, x);
      BucketCountStep(skills, classify, ProgrammingLanguages, x);
      BucketCountStep(skills, classify, Frameworks, x);
      BucketCountStep(skills, classify, Databases, x);
      BucketCountStep(skills, classify, CloudDevops, x);
    }
  }

  lemma CountSnoc(s: seq<string>, x: string)
    requires s != []
    ensures multiset(s)[x] == multiset(s[..|s| - 1])[x] + (if s[|s| - 1] == x then 1 else 0)
  {
    assert s == s[..|s| - 1] + [s[|s| - 1]];
  }

  lemma BucketCountStep(skills: seq<string>, classify: string -> Category, c: Category, x: string)
    requires skills != []
    ensures var last := skills[|skills| - 1];
      multiset(Bucket(skills, classify, c))[x]
      == multiset(Bucket(skills[..|skills| - 1], classify, c))[x] + (if classify(last) == c && last == x then 1 else 0)
  {
  }

  /** The four buckets split the input: together they hold every skill exactly as often as the input does. */
  lemma BucketsPartition(skills: seq<string>, classify: string -> Category)
    ensures multiset(Bucket(skills, classify, ProgrammingLanguages)) + multiset(Bucket(skills, classify, Frameworks))
      + multiset(Bucket(skills, classify, Databases)) + multiset(Bucket(skills, classify, CloudDevops)) == multiset(skills)
  {
    forall x {
      BucketCounts(skills, classify, x);
    }
  }

  /** No skill is lost or duplicated: the bucket sizes add up to the number of skills. */
  lemma BucketSizes(skills: seq<string>, classify: string -> Category)
    ensures |Bucket(skills, classify, ProgrammingLanguages)| + |Bucket(skills, classify, Frameworks)|
      + |Bucket(skills, classify, Databases)| + |Bucket(skills, classify, CloudDevops)| == |skills|
  {
    BucketsPartition(skills, classify);
    assert |multiset(skills)| == |skills|;
  }

  /** A bucket holds exactly the input skills classified into it. */
  lemma {:induction false} BucketMembers(skills: seq<string>, classify: string -> Category, c: Category, x: string)
    ensures x in Bucket(skills, classify, c) <==> x in skills && classify(x) == c
    decreases |skills|
  {
    if skills != [] {
      var init := skills[..|skills| - 1];
      BucketMembers(init, classify, c, x);
      assert skills == init + [skills[|skills| - 1]];
    }
  }

  /** Bucketing distributes over concatenation, so every bucket keeps the input order. */
  lemma {:induction false} BucketAppend(a: seq<string>, b: seq<string>, classify: string -> Category, c: Category)
    ensures Bucket(a + b, classify, c) == Bucket(a, classify, c) + Bucket(b, classify, c)
    decreases |b|
  {
    if b == [] {
      assert a + b == a;
    } else {
      var init := b[..|b| - 1];
      BucketAppend(a, init, classify, c);
      assert (a + b)[..|a + b| - 1] == a + init;
    }
  }

  /** Stripping keeps every non-blank character. */
  lemma StripKeeps(s: string, i: nat)
    requires i < |s| && !IsSpace(s[i])
    ensures s[i] in Strip(s)
  {
    var l := StripLeft(s);
    var d := |s| - |l|;
    assert d <= i;
    assert l[i - d] == s[i];
    var r := StripRight(l);
    assert i - d < |r|;
    assert r[i - d] == s[i];
  }

  /** A non-blank character of a skill survives normalisation, lower-cased. */
  lemma NormalisedKeeps(skill: string, c: char)
    requires c in skill && !IsSpace(c)
    ensures LowerChar(c) in Normalised(skill)
  {
    var i :| 0 <= i < |skill| && skill[i] == c;
    var low := Lower(skill);
    assert low[i] == LowerChar(c);
    StripKeeps(low, i);
  }

  /** The one-letter keyword 'r': any skill with an r or R in it is a programming language. */
  lemma SkillWithRIsProgramming(skill: string)
    requires 'r' in skill || 'R' in skill
    ensures Classify(skill) == ProgrammingLanguages
  {
    var s := Normalised(skill);
    if 'r' in skill {
      NormalisedKeeps(skill, 'r');
    } else {
      NormalisedKeeps(skill, 'R');
    }
    ContainsChar(s, 'r');
    assert Contains(s, LanguageKeywords[13]);
  }

  /** "PostgreSQL" is filed under programming languages, not databases. */
  lemma PostgreSqlIsProgramming()
    ensures Classify("PostgreSQL") == ProgrammingLanguages
  {
    assert "PostgreSQL"[5] == 'r';
    SkillWithRIsProgramming("PostgreSQL");
  }

  lemma MongoDbNormalised()
    ensures Normalised("MongoDB") == "mongodb"
  {
    assert Lower("MongoDB") == "mongodb";
    StripNoop("mongodb");
  }

  lemma MongoDbHasGo(s: string)
    requires s == "mongodb"
    ensures AnyIn(s, LanguageKeywords)
  {
    assert OccursAt(s, "go", 3);
    ContainsIff(s, "go");
    assert Contains(s, LanguageKeywords[7]);
  }

  /** "MongoDB" (and any skill normalised to "mongodb") is filed under programming languages, through the keyword "go". */
  lemma MongoDbIsProgramming(skill: string)
    requires Normalised(skill) == "mongodb"
    ensures Classify(skill) == ProgrammingLanguages
  {
    MongoDbHasGo(Normalised(skill));
    ClassifyCases(skill);
  }

  lemma MySqlNormalised()
    ensures Normalised("MySQL") == "mysql"
  {
    assert Lower("MySQL") == "mysql";
    StripNoop("mysql");
  }

  lemma MySqlNoLanguage(s: string)
    requires s == "mysql"
    ensures !AnyIn(s, LanguageKeywords)
  {
    NoneInByChars(s, LanguageKeywords, ['p', 'j', 'j', 'c', 'c', 'p', 'r', 'g', 'r', 't', 'w', 'k', 'c', 'r']);
  }

  lemma MySqlNoFramework(s: string)
    requires s == "mysql"
    ensures !AnyIn(s, FrameworkKeywords)
  {
    NoneInByChars(s, FrameworkKeywords, ['r', 'a', 'v', 'n', 'e', 'd', 'f', 'p', 'r', 'r', 'a', 'n', 'n', 'v', 'f', 'n']);
  }

  /** "MySQL" (and any skill normalised to "mysql") misses every language and framework keyword and is filed under databases. */
  lemma MySqlIsDatabase(skill: string)
    requires Normalised(skill) == "mysql"
    ensures Classify(skill) == Databases
  {
    var s := Normalised(skill);
    MySqlNoLanguage(s);
    MySqlNoFramework(s);
    assert StartsWith(s, DatabaseKeywords[0]);
    assert Contains(s, DatabaseKeywords[0]);
    ClassifyCases(skill);
  }

  // ----- generate_skill_html -----

  /** icon_map of generate_skill_html, in dictionary order. */
  const IconMap: seq<(string, string)> := [
    ("javascript", "fab fa-js-square"), ("python", "fab fa-python"), ("java", "fab fa-java"),
    ("react", "fab fa-react"), ("angular", "fab fa-angular"), ("vue", "fab fa-vuejs"),
    ("node.js", "fab fa-node-js"), ("docker", "fab fa-docker"), ("aws", "fab fa-aws"),
    ("git", "fab fa-git-alt"), ("github", "fab fa-github")]

  /** skill.lower().replace('.', '').replace(' ', ''). */
  function IconKey(skill: string): string
  {
    ReplaceAll(ReplaceAll(Lower(skill), ".", ""), " ", "")
  }

  /** icon_map.get(skill_key, 'fas fa-code'). */
  function SkillIcon(skill: string): string
  {
    var key := IconKey(skill);
    if HasKey(IconMap, key) then FirstValue(IconMap, key) else "fas fa-code"
  }

  function SkillItem(skill: string): string
  {
    Concat([
      Line(12, "<div class=\"skill-item\">"),
      Line(16, "<div class=\"skill-icon\">"),
      Line(20, "<i class=\"" + SkillIcon(skill) + "\"></i>"),
      Line(16, "</div>"),
      Line(16, "<div class=\"skill-name\">" + skill + "</div>"),
      Line(12, "</div>"),
      Line(12, "")])
  }

  /** generate_skill_html as a value: "" for no skills, else the items joined with "". */
  function SkillItemsHtml(skills: seq<string>): string
  {
    if skills == [] then "" else JoinWith(MapSeq(skills, SkillItem), "")
  }

  /** generate_skill_html; the category argument is not used by the source either. */
  method GenerateSkillHtml(skills: seq<string>, category: string) returns (html: string)
    ensures html == SkillItemsHtml(skills)
  {
    if skills == [] {
      return "";
    }
    var htmlItems := RenderEach(skills, SkillItem);
    html := JoinWith(htmlItems, "");
  }

  /** The icon key has no dots and no blanks. */
  lemma IconKeyClean(skill: string)
    ensures '.' !in IconKey(skill) && ' ' !in IconKey(skill)
  {
    var once := ReplaceAll(Lower(skill), ".", "");
    RemoveChar(Lower(skill), '.');
    RemoveChar(once, ' ');
  }

  /**
   * The 'node.js' entry of icon_map is dead: no skill's icon key contains a
   * dot, so no skill gets the Node.js icon ("Node.js" itself gets the default).
   */
  lemma NodeJsIconUnreachable(skill: string)
    ensures SkillIcon(skill) != "fab fa-node-js"
  {
    var key := IconKey(skill);
    IconKeyClean(skill);
    if HasKey(IconMap, key) {
      NodeJsIconNeedsDot();
      LookupAvoids(IconMap, key, "fab fa-node-js", '.');
    }
  }

  /** Only a key with a dot maps to the Node.js icon. */
  lemma NodeJsIconNeedsDot()
    ensures forall i | 0 <= i < |IconMap| && IconMap[i].1 == "fab fa-node-js" :: '.' in IconMap[i].0
  {
    assert "node.js"[4] == '.';
  }

  /** A key without c never looks up a value that only keys holding c map to. */
  lemma LookupAvoids(table: seq<(string, string)>, key: string, v: string, c: char)
    requires HasKey(table, key) && c !in key
    requires forall i | 0 <= i < |table| && table[i].1 == v :: c in table[i].0
    ensures FirstValue(table, key) != v
  {
    FirstValueMember(table, key);
  }

  /** No skills give ""; otherwise every skill has its item, in input order. */
  lemma SkillItemsInOrder(skills: seq<string>)
    ensures skills == [] ==> SkillItemsHtml(skills) == ""
    ensures var parts := MapSeq(skills, SkillItem);
      forall i | 0 <= i < |skills| :: OccursAt(SkillItemsHtml(skills), SkillItem(skills[i]), PartOffset(parts, "", i))
  {
    if skills != [] {
      JoinedInOrder(MapSeq(skills, SkillItem), "");
    }
  }

  // ----- generate_experience_html, generate_education_html -----

  const ExperiencePlaceholder: string := Concat([
    Line(12, "<div class=\"timeline-item\">"),
    Line(16, "<div class=\"timeline-content\">"),
    Line(20, "<h3 class=\"timeline-title\">Your Position</h3>"),
    Line(20, "<h4 class=\"timeline-company\">Your Company</h4>"),
    Line(20, "<p class=\"timeline-description\">Add your work experience details here</p>"),
    Line(16, "</div>"),
    Line(16, "<div class=\"timeline-date\">Start - End</div>"),
    Line(12, "</div>"),
    Line(12, "")])

  function ExperienceItem(x: Record): string
  {
    Concat([
      Line(12, "<div class=\"timeline-item\">"),
      Line(16, "<div class=\"timeline-content\">"),
      Line(20, "<h3 class=\"timeline-title\">" + Field(x, "position", "Position") + "</h3>"),
      Line(20, "<h4 class=\"timeline-company\">" + Field(x, "company", "Company") + "</h4>"),
      Line(20, "<p class=\"timeline-description\">"
        + Field(x, "description", "Job description and key achievements") + "</p>"),
      Line(16, "</div>"),
      Line(16, "<div class=\"timeline-date\">" + Field(x, "start_date", "Start") + " - "
        + Field(x, "end_date", "End") + "</div>"),
      Line(12, "</div>"),
      Line(12, "")])
  }

  const EducationPlaceholder: string := Concat([
    Line(12, "<div class=\"timeline-item\">"),
    Line(16, "<div class=\"timeline-content\">"),
    Line(20, "<h3 class=\"timeline-title\">Your Degree</h3>"),
    Line(20, "<h4 class=\"timeline-company\">Your Institution</h4>"),
    Line(20, "<p class=\"timeline-description\">Add your educational background</p>"),
    Line(16, "</div>"),
    Line(16, "<div class=\"timeline-date\">Year</div>"),
    Line(12, "</div>"),
    Line(12, "")])

  function EducationItem(x: Record): string
  {
    Concat([
      Line(12, "<div class=\"timeline-item\">"),
      Line(16, "<div class=\"timeline-content\">"),
      Line(20, "<h3 class=\"timeline-title\">" + Field(x, "degree", "Degree") + "</h3>"),
      Line(20, "<h4 class=\"timeline-company\">" + Field(x, "institution", "Institution") + "</h4>"),
      Line(20, "<p class=\"timeline-description\">"
        + Field(x, "description", "Relevant coursework and achievements") + "</p>"),
      Line(16, "</div>"),
      Line(16, "<div class=\"timeline-date\">" + Field(x, "year", "Year") + "</div>"),
      Line(12, "</div>"),
      Line(12, "")])
  }

  /** A generator of this class: the placeholder fragment for no records, else the items joined with "". */
  function Items<T>(data: seq<T>, render: T -> string, placeholder: string): string
  {
    if data == [] then placeholder else JoinWith(MapSeq(data, render), "")
  }

  function ExperienceHtml(data: seq<Record>): string
  {
    Items(data, ExperienceItem, ExperiencePlaceholder)
  }

  function EducationHtml(data: seq<Record>): string
  {
    Items(data, EducationItem, EducationPlaceholder)
  }

  method GenerateExperienceHtml(experiences: seq<Record>) returns (html: string)
    ensures html == ExperienceHtml(experiences)
  {
    if experiences == [] {
      return ExperiencePlaceholder;
    }
    var htmlItems := RenderEach(experiences, ExperienceItem);
    html := JoinWith(htmlItems, "");
  }

  method GenerateEducationHtml(education: seq<Record>) returns (html: string)
    ensures html == EducationHtml(education)
  {
    if education == [] {
      return EducationPlaceholder;
    }
    var htmlItems := RenderEach(education, EducationItem);
    html := JoinWith(htmlItems, "");
  }

  /** The placeholder fragment for no records; otherwise every record has its item, in input order. */
  lemma ItemsInOrder<T>(data: seq<T>, render: T -> string, placeholder: string)
    ensures data == [] ==> Items(data, render, placeholder) == placeholder
    ensures var parts := MapSeq(data, render);
      forall i | 0 <= i < |data| :: OccursAt(Items(data, render, placeholder), render(data[i]), PartOffset(parts, "", i))
  {
    if data != [] {
      JoinedInOrder(MapSeq(data, render), "");
    }
  }

  // ----- generate_projects_html -----

  /** A project dict; a missing or empty 'technologies' list is []. */
  datatype ProjectRecord = ProjectRecord(fields: Record, technologies: seq<Value>)

  const ProjectPlaceholder: string := Concat([
    Line(12, "<div class=\"project-card\">"),
    Line(16, "<div class=\"project-image\">"),
    Line(20, "<i class=\"fas fa-laptop-code\"></i>"),
    Line(16, "</div>"),
    Line(16, "<div class=\"project-content\">"),
    Line(20, "<h3 class=\"project-title\">Sample Project</h3>"),
    Line(20, "<p class=\"project-description\">A brief description of your project and its key features.</p>"),
    Line(20, "<div class=\"project-tech\">"),
    Line(24, "<span class=\"tech-tag\">Technology 1</span>"),
    Line(24, "<span class=\"tech-tag\">Technology 2</span>"),
    Line(20, "</div>"),
    Line(20, "<div class=\"project-links\">"),
    Line(24, "<a href=\"#\" class=\"project-link\">"),
    Line(28, "<i class=\"fas fa-external-link-alt\"></i> Live Demo"),
    Line(24, "</a>"),
    Line(24, "<a href=\"#\" class=\"project-link\">"),
    Line(28, "<i class=\"fab fa-github\"></i> Source Code"),
    Line(24, "</a>"),
    Line(20, "</div>"),
    Line(16, "</div>"),
    Line(12, "</div>"),
    Line(12, "")])

  function TechTag(tech: Value): string
  {
    "<span class=\"tech-tag\">" + ToStr(tech) + "</span>"
  }

  function TechTags(p: ProjectRecord): string
  {
    if p.technologies == [] then "" else JoinWith(MapSeq(p.technologies, TechTag), "")
  }

  /** project.get(field) is truthy. */
  predicate HasLink(p: ProjectRecord, field: string)
  {
    field in p.fields && Truthy(p.fields[field])
  }

  function LinkHtml(url: Value, icon: string, caption: string): string
  {
    Concat([
      Line(16, "<a href=\"" + ToStr(url) + "\" class=\"project-link\" target=\"_blank\">"),
      Line(20, "<i class=\"" + icon + "\"></i> " + caption),
      Line(16, "</a>"),
      Line(16, "")])
  }

  /** The live-demo link, then the source link, each only when its URL is truthy. */
  function ProjectLinks(p: ProjectRecord): string
  {
    (if HasLink(p, "live_url") then LinkHtml(p.fields["live_url"], "fas fa-external-link-alt", "Live Demo") else "")
    + (if HasLink(p, "github_url") then LinkHtml(p.fields["github_url"], "fab fa-github", "Source Code") else "")
  }

  function ProjectItem(p: ProjectRecord): string
  {
    Concat([
      Line(12, "<div class=\"project-card\">"),
      Line(16, "<div class=\"project-image\">"),
      Line(20, "<i class=\"fas fa-laptop-code\"></i>"),
      Line(16, "</div>"),
      Line(16, "<div class=\"project-content\">"),
      Line(20, "<h3 class=\"project-title\">" + Field(p.fields, "name", "Project Name") + "</h3>"),
      Line(20, "<p class=\"project-description\">" + Field(p.fields, "description", "Project description") + "</p>"),
      Line(20, "<div class=\"project-tech\">"),
      Line(24, TechTags(p)),
      Line(20, "</div>"),
      Line(20, "<div class=\"project-links\">"),
      Line(24, ProjectLinks(p)),
      Line(20, "</div>"),
      Line(16, "</div>"),
      Line(12, "</div>"),
      Line(12, "")])
  }

  function ProjectsHtml(data: seq<ProjectRecord>): string
  {
    Items(data, ProjectItem, ProjectPlaceholder)
  }

  method GenerateProjectsHtml(projects: seq<ProjectRecord>) returns (html: string)
    ensures html == ProjectsHtml(projects)
  {
    if projects == [] {
      return ProjectPlaceholder;
    }
    var htmlItems := RenderEach(projects, ProjectItem);
    html := JoinWith(htmlItems, "");
  }

  /** A project's links are empty exactly when neither URL is truthy; the live demo comes first. */
  lemma ProjectLinksCases(p: ProjectRecord)
    ensures ProjectLinks(p) == "" <==> !HasLink(p, "live_url") && !HasLink(p, "github_url")
    ensures HasLink(p, "live_url") ==>
      StartsWith(ProjectLinks(p), LinkHtml(p.fields["live_url"], "fas fa-external-link-alt", "Live Demo"))
  {
    if HasLink(p, "live_url") {
      var l := LinkHtml(p.fields["live_url"], "fas fa-external-link-alt", "Live Demo");
      assert l[0] == '\n';
      assert ProjectLinks(p)[..|l|] == l;
    } else if HasLink(p, "github_url") {
      var l := LinkHtml(p.fields["github_url"], "fab fa-github", "Source Code");
      assert l[0] == '\n';
    }
  }

  /** Every technology gets its tag, in list order. */
  lemma TechTagsInOrder(p: ProjectRecord)
    ensures p.technologies == [] <==> TechTags(p) == ""
    ensures var parts := MapSeq(p.technologies, TechTag);
      forall i | 0 <= i < |p.technologies| ::
        OccursAt(TechTags(p), TechTag(p.technologies[i]), PartOffset(parts, "", i))
  {
    if p.technologies != [] {
      JoinedInOrder(MapSeq(p.technologies, TechTag), "");
      JoinedStart(MapSeq(p.technologies, TechTag), "");
    }
  }

  // ----- populate_template -----

  /** The resume dict; missing lists are [] and missing texts None. */
  datatype Resume = Resume(
    personalInfo: map<string, string>, summary: Option<string>, currentRole: Option<string>,
    skills: seq<string>, experience: seq<Record>, education: seq<Record>, projects: seq<ProjectRecord>)

  /** personal_info.get(field, default). */
  function Personal(r: Resume, field: string, default: string): string
  {
    if field in r.personalInfo then r.personalInfo[field] else default
  }

  function FullName(r: Resume): string
  {
    Personal(r, "name", "Your Name")
  }

  /**
   * full_name.split()[0] if full_name else 'Your': "Your" for an empty name,
   * the first word otherwise, and an IndexError for a name of blanks only.
   */
  function FirstNameOf(r: Resume): (first: Result<string>)
    ensures FullName(r) == "" ==> first == Success("Your")
    ensures FullName(r) != "" && AllSpace(FullName(r)) ==> first.Failure?
    ensures !AllSpace(FullName(r)) ==>
      (first.Success? && first.value != [] && NoSpace(first.value) && StartsWith(StripLeft(FullName(r)), first.value)
       && (|first.value| == |StripLeft(FullName(r))| || IsSpace(StripLeft(FullName(r))[|first.value|])))
  {
    var fullName := FullName(r);
    if fullName == "" then Success("Your")
    else
      var words := Words(fullName);
      if words == [] then Failure("IndexError: list index out of range")
      else
        FirstWord(fullName);
        Success(words[0])
  }

  /**
   * The EDUCATION_DEGREE value: the first education entry's degree, or
   * "Bachelor's Degree". str.replace refuses a value that is not a string.
   */
  function DegreeOf(r: Resume): (degree: Result<string>)
    ensures r.education == [] ==> degree == Success("Bachelor's Degree")
    ensures degree.Failure? <==> r.education != [] && "degree" in r.education[0] && !r.education[0]["degree"].Str?
  {
    if r.education == [] || "degree" !in r.education[0] then Success("Bachelor's Degree")
    else
      match r.education[0]["degree"]
      case Str(s) => Success(s)
      case _ => Failure("TypeError: replace() argument 2 must be str")
  }

  /** Python's max of two numbers. */
  function Max(a: nat, b: nat): nat
  {
    if a >= b then a else b
  }

  /** len(experience) * 2, floored at 1. */
  function YearsExperience(r: Resume): (n: nat)
    ensures n >= 1 && n >= 2 * |r.experience| && (n == 1 || n == 2 * |r.experience|)
  {
    Max(2 * |r.experience|, 1)
  }

  /** len(projects) + 10, floored at 5. */
  function ProjectCount(r: Resume): (n: nat)
    ensures n >= 5 && n >= |r.projects| + 10 && (n == 5 || n == |r.projects| + 10)
  {
    Max(|r.projects| + 10, 5)
  }

  /** len(skills), floored at 10. */
  function SkillCount(r: Resume): (n: nat)
    ensures n >= 10 && n >= |r.skills| && (n == 10 || n == |r.skills|)
  {
    Max(|r.skills|, 10)
  }

  /** The project count's floor never applies: the estimate is always the project count plus ten. */
  lemma ProjectCountNoFloor(r: Resume)
    ensures ProjectCount(r) == |r.projects| + 10
  {
  }

  /** None of the three counts is rendered as "0". */
  lemma CountsNeverZero(r: Resume)
    ensures NatToString(YearsExperience(r)) != "0"
    ensures NatToString(ProjectCount(r)) != "0"
    ensures NatToString(SkillCount(r)) != "0"
  {
    var y := NatToString(YearsExperience(r));
    var p := NatToString(ProjectCount(r));
    var s := NatToString(SkillCount(r));
    assert y[0] != '0' && p[0] != '0' && s[0] != '0';
  }

  /** ', '.join(skills[:5]) if skills else the fixed list. */
  function PrimarySkills(skills: seq<string>): (r: string)
    ensures skills == [] ==> r == "JavaScript, Python, React, Node.js"
  {
    if skills == [] then "JavaScript, Python, React, Node.js"
    else JoinWith(skills[..if |skills| < 5 then |skills| else 5], ", ")
  }

  /** At most the first five skills are listed, each at its place, so the list starts with the first skill. */
  lemma PrimarySkillsFirstFive(skills: seq<string>)
    requires skills != []
    ensures var shown := skills[..if |skills| < 5 then |skills| else 5];
      forall i | 0 <= i < |shown| :: OccursAt(PrimarySkills(skills), shown[i], PartOffset(shown, ", ", i))
    ensures StartsWith(PrimarySkills(skills), skills[0])
  {
    var shown := skills[..if |skills| < 5 then |skills| else 5];
    JoinedInOrder(shown, ", ");
    JoinedPartAt(shown, ", ", 0);
  }

  /** The rendered sections of populate_template. */
  datatype Fragments = Fragments(
    languages: string, frameworks: string, databases: string, cloud: string,
    experience: string, education: string, projects: string)

  /** The fragments populate_template renders for a resume. */
  function FragmentsOf(r: Resume): Fragments
  {
    RenderedFragments(Categorize(r.skills), r)
  }

  /** The fragments for the given categorized skills and the resume's lists. */
  function RenderedFragments(c: Categorized, r: Resume): Fragments
  {
    Fragments(
      SkillItemsHtml(c.languages), SkillItemsHtml(c.frameworks),
      SkillItemsHtml(c.databases), SkillItemsHtml(c.cloud),
      ExperienceHtml(r.experience), EducationHtml(r.education), ProjectsHtml(r.projects))
  }

  const ContactMessage: string := "I'm always interested in new opportunities and exciting projects. Let's connect!"

  /** The keys of the replacements dict of populate_template, in insertion order: every key once. */
  const ReplacementOrder: seq<Key> := [
    FULL_NAME, FIRST_NAME, EMAIL, PHONE, LOCATION, LINKEDIN_URL, GITHUB_URL, TWITTER_URL,
    RESUME_DOWNLOAD_LINK, JOB_TITLE, CURRENT_POSITION, PROFESSIONAL_SUMMARY, ABOUT_DESCRIPTION,
    CONTACT_MESSAGE, YEARS_EXPERIENCE, PROJECT_COUNT, SKILL_COUNT, EDUCATION_DEGREE, PRIMARY_SKILLS,
    PROGRAMMING_LANGUAGES, FRAMEWORKS, DATABASES_TOOLS, CLOUD_DEVOPS, WORK_EXPERIENCE,
    EDUCATION_HISTORY, PROJECTS_LIST, SECONDARY_TITLE_1, SECONDARY_TITLE_2, SECONDARY_TITLE_3]

  /** The value the replacements dict of populate_template gives the token of k. */
  function Replacement(k: Key, r: Resume, firstName: string, degree: string, f: Fragments): string
  {
    var summary := r.summary.GetOr("Passionate developer with expertise in modern technologies.");
    var role := r.currentRole.GetOr("Software Developer");
    match k
    case FULL_NAME => FullName(r)
    case FIRST_NAME => firstName
    case EMAIL => Personal(r, "email", "your.email@example.com")
    case PHONE => Personal(r, "phone", "+1 (555) 123-4567")
    case LOCATION => Personal(r, "location", "Your City, Country")
    case LINKEDIN_URL => Personal(r, "linkedin", "https://linkedin.com/in/yourprofile")
    case GITHUB_URL => Personal(r, "github", "https://github.com/yourusername")
    case TWITTER_URL => Personal(r, "twitter", "https://twitter.com/yourusername")
    case RESUME_DOWNLOAD_LINK => "./assets/resume.pdf"
    case JOB_TITLE => role
    case CURRENT_POSITION => role
    case PROFESSIONAL_SUMMARY => summary
    case ABOUT_DESCRIPTION => summary
    case CONTACT_MESSAGE => ContactMessage
    case YEARS_EXPERIENCE => NatToString(YearsExperience(r))
    case PROJECT_COUNT => NatToString(ProjectCount(r))
    case SKILL_COUNT => NatToString(SkillCount(r))
    case EDUCATION_DEGREE => degree
    case PRIMARY_SKILLS => PrimarySkills(r.skills)
    case PROGRAMMING_LANGUAGES => f.languages
    case FRAMEWORKS => f.frameworks
    case DATABASES_TOOLS => f.databases
    case CLOUD_DEVOPS => f.cloud
    case WORK_EXPERIENCE => f.experience
    case EDUCATION_HISTORY => f.education
    case PROJECTS_LIST => f.projects
    case SECONDARY_TITLE_1 => "Full Stack Developer"
    case SECONDARY_TITLE_2 => "Problem Solver"
    case SECONDARY_TITLE_3 => "Tech Enthusiast"
  }

  /** A table whose keys run through order has an entry for every key of order. */
  lemma TableCovers(order: seq<Key>, table: seq<(Key, string)>, k: Key)
    requires |table| == |order| && forall i | 0 <= i < |table| :: table[i].0 == order[i]
    requires k in order
    ensures HasKey(NamedTable(table), Name(k))
  {
    var i :| 0 <= i < |order| && order[i] == k;
    assert NamedTable(table)[i].0 == Name(k);
  }

  /** Every placeholder key is one of the dict's keys. */
  lemma KeyListed(k: Key)
    ensures k in ReplacementOrder
  {
  }

  /** The replacements dict of populate_template: every key with its value, in insertion order. */
  function Replacements(r: Resume, firstName: string, degree: string, f: Fragments): (table: seq<(Key, string)>)
    ensures |table| == |ReplacementOrder| && forall i | 0 <= i < |table| :: table[i].0 == ReplacementOrder[i]
  {
    seq(|ReplacementOrder|, i requires 0 <= i < |ReplacementOrder| =>
      (ReplacementOrder[i], Replacement(ReplacementOrder[i], r, firstName, degree, f)))
  }

  /** populate_template as a value, given the rendered fragments. */
  function PopulatedWith(template: string, r: Resume, f: Fragments): Result<string>
  {
    match FirstNameOf(r)
    case Failure(e) => Failure(e)
    case Success(firstName) =>
      match DegreeOf(r)
      case Failure(e) => Failure(e)
      case Success(degree) =>
        Success(SubstituteTokens(template, NamedTable(Replacements(r, firstName, degree, f))))
  }

  /** populate_template as a value. */
  function Populated(template: string, r: Resume): Result<string>
  {
    PopulatedWith(template, r, FragmentsOf(r))
  }

  /** The fragment generation of populate_template. */
  method RenderFragments(r: Resume) returns (f: Fragments)
    ensures f == FragmentsOf(r)
  {
    var categorized := ExtractSkillsByCategory(r.skills);
    var languages := GenerateSkillHtml(categorized.languages, "programming");
    var frameworks := GenerateSkillHtml(categorized.frameworks, "frameworks");
    var databases := GenerateSkillHtml(categorized.databases, "databases");
    var cloud := GenerateSkillHtml(categorized.cloud, "cloud");
    var experience := GenerateExperienceHtml(r.experience);
    var education := GenerateEducationHtml(r.education);
    var projects := GenerateProjectsHtml(r.projects);
    f := Fragments(languages, frameworks, databases, cloud, experience, education, projects);
  }

  /**
   * populate_template: the first name (or its IndexError), the rendered
   * fragments, then every `{{KEY}}` of the template replaced, one key after
   * the other in dictionary order.
   */
  method PopulateTemplate(template: string, r: Resume) returns (result: Result<string>)
    ensures result == Populated(template, r)
  {
    var fragments := RenderFragments(r);
    result := FillTemplate(template, r, fragments);
  }

  /** The replacement part of populate_template, once the fragments are rendered. */
  method FillTemplate(template: string, r: Resume, fragments: Fragments) returns (result: Result<string>)
    ensures result == PopulatedWith(template, r, fragments)
  {
    var firstName := FirstNameOf(r);
    if firstName.Failure? {
      return Failure(firstName.error);
    }
    var degree := DegreeOf(r);
    if degree.Failure? {
      return Failure(degree.error);
    }
    var replacements := Replacements(r, firstName.value, degree.value, fragments);
    var populated := ReplaceEach(template, NamedTable(replacements));
    result := Success(populated);
  }

  /** Populating fails exactly for a name of blanks only or a degree that is not a string. */
  lemma PopulatedFails(template: string, r: Resume, f: Fragments)
    ensures PopulatedWith(template, r, f).Failure? <==>
      (FullName(r) != "" && AllSpace(FullName(r)))
      || (r.education != [] && "degree" in r.education[0] && !r.education[0]["degree"].Str?)
  {
  }

  /**
   * Every one of the 29 placeholders has an entry in the replacements, so a
   * template written with these tokens and brace-free values comes out with
   * every token filled.
   */
  lemma ReplacementsCoverAllKeys(r: Resume, firstName: string, degree: string, f: Fragments, k: Key)
    ensures HasKey(NamedTable(Replacements(r, firstName, degree, f)), Name(k))
  {
    KeyListed(k);
    TableCovers(ReplacementOrder, Replacements(r, firstName, degree, f), k);
  }
}

/**
 * The placeholder resolver of config/portfolio_placeholders.py: the personal
 * and default tables, the precedence chain extracted > personal > default >
 * "[KEY]", the first-name rule and the HTML fragments of the skills,
 * experience, education and projects sections.
 */
module Placeholders {
  import opened Text
  import opened Values
  import opened Keys

  const PersonalData: seq<(string, string)> := [
    ("FULL_NAME", "Your Full Name"),
    ("FIRST_NAME", "Your"),
    ("EMAIL", "your.email@example.com"),
    ("PHONE", "+1 (555) 123-4567"),
    ("LOCATION", "Your City, Country"),
    ("JOB_TITLE", "Your Job Title"),
    ("CURRENT_POSITION", "Your Current Position"),
    ("PROFESSIONAL_SUMMARY", "Your professional summary goes here. Describe your expertise, passion, and what makes you unique in your field."),
    ("ABOUT_DESCRIPTION", "Tell your story here. What drives you? What are your goals? What makes you passionate about your work?"),
    ("LINKEDIN_URL", "https://linkedin.com/in/yourprofile"),
    ("GITHUB_URL", "https://github.com/yourusername"),
    ("TWITTER_URL", "https://twitter.com/yourusername"),
    ("RESUME_DOWNLOAD_LINK", "#"),
    ("YEARS_EXPERIENCE", "3"),
    ("PROJECT_COUNT", "10"),
    ("SKILL_COUNT", "15"),
    ("EDUCATION_DEGREE", "Your Degree"),
    ("CONTACT_MESSAGE", "I'm always interested in new opportunities and collaborations. Let's connect and discuss how we can work together!"),
    ("PRIMARY_SKILLS", "Python, JavaScript, React, Node.js"),
    ("SECONDARY_TITLE_1", "Problem Solver"),
    ("SECONDARY_TITLE_2", "Creative Thinker"),
    ("SECONDARY_TITLE_3", "Team Player")
  ]

  const DefaultData: seq<(string, string)> := [
    ("FULL_NAME", "Professional Developer"),
    ("FIRST_NAME", "Professional"),
    ("EMAIL", "contact@example.com"),
    ("PHONE", "+91 9900586091"),
    ("LOCATION", "Available Worldwide"),
    ("JOB_TITLE", "Software Developer"),
    ("CURRENT_POSITION", "Software Developer"),
    ("PROFESSIONAL_SUMMARY", "Passionate software developer with expertise in modern technologies. Dedicated to creating innovative solutions and delivering high-quality code."),
    ("ABOUT_DESCRIPTION", "I'm a dedicated professional who loves solving complex problems through technology. With a passion for continuous learning and innovation, I strive to create meaningful solutions that make a difference."),
    ("LINKEDIN_URL", "https://linkedin.com"),
    ("GITHUB_URL", "https://github.com"),
    ("TWITTER_URL", "https://twitter.com"),
    ("RESUME_DOWNLOAD_LINK", "#"),
    ("YEARS_EXPERIENCE", "2"),
    ("PROJECT_COUNT", "5"),
    ("SKILL_COUNT", "10"),
    ("EDUCATION_DEGREE", "Computer Science Degree"),
    ("CONTACT_MESSAGE", "I'm always open to discussing new opportunities and interesting projects. Feel free to reach out!"),
    ("PRIMARY_SKILLS", "Programming, Problem Solving, Team Work"),
    ("SECONDARY_TITLE_1", "Code Enthusiast"),
    ("SECONDARY_TITLE_2", "Innovation Driver"),
    ("SECONDARY_TITLE_3", "Solution Builder")
  ]

  /** Personal values still holding the shipped template text, which are never used. */
  const Sentinels: seq<string> := ["Your Full Name", "Your Job Title", "your.email@example.com"]

  /** Full names that mean "no real name yet". */
  const NamePlaceholders: seq<string> := ["Your Full Name", "Professional Developer"]

  /** DEFAULT_DATA.get(key, fallback). */
  function DefaultGet(key: string, fallback: string): string
  {
    if HasKey(DefaultData, key) then FirstValue(DefaultData, key) else fallback
  }

  /** The configured first-name default is "Professional". */
  lemma DefaultFirstName()
    ensures DefaultGet("FIRST_NAME", "Professional") == "Professional"
  {
    assert DefaultData[1] == ("FIRST_NAME", "Professional");
    assert HasKey(DefaultData, "FIRST_NAME");
    assert DefaultData[0].0 != "FIRST_NAME";
    assert DefaultData[1..][0].0 == "FIRST_NAME";
  }

  predicate NonEmptyValues(table: seq<(string, string)>)
  {
    forall i | 0 <= i < |table| :: table[i].1 != []
  }

  /** No shipped default is empty. */
  lemma ShippedDefaultsNonEmpty()
    ensures NonEmptyValues(DefaultData)
  {
    forall i | 0 <= i < |DefaultData|
      ensures DefaultData[i].1 != []
    {
    }
  }

  /** The default first name is a single word. */
  lemma ProfessionalIsOneWord()
    ensures NoSpace("Professional")
  {
  }

  /** The extracted value for key is truthy and not blank once stringified. */
  predicate ExtractedUsable(extracted: map<string, Value>, key: string)
  {
    key in extracted && Truthy(extracted[key]) && Strip(ToStr(extracted[key])) != []
  }

  /** The personal value for key is consulted when enabled, and is not blank and not a sentinel. */
  predicate PersonalUsable(key: string, usePersonal: bool, personal: seq<(string, string)>)
  {
    usePersonal && HasKey(personal, key) && FirstValue(personal, key) != []
    && Strip(FirstValue(personal, key)) != [] && Strip(FirstValue(personal, key)) !in Sentinels
  }

  /**
   * get_placeholder_value over given personal and default tables: extracted
   * data, then personal data, then the defaults, then "[KEY]". A missing
   * extracted_data is the empty map. When no default is empty, every key
   * resolves to a non-empty text.
   */
  function Resolve(key: string, extracted: map<string, Value>, usePersonal: bool,
                   personal: seq<(string, string)>, defaults: seq<(string, string)>): (r: string)
    ensures NonEmptyValues(defaults) ==> r != []
  {
    if ExtractedUsable(extracted, key) then Strip(ToStr(extracted[key]))
    else if PersonalUsable(key, usePersonal, personal) then Strip(FirstValue(personal, key))
    else if HasKey(defaults, key) then
      FirstValueMember(defaults, key);
      FirstValue(defaults, key)
    else "[" + key + "]"
  }

  /** get_placeholder_value with the module's PERSONAL_DATA and DEFAULT_DATA. */
  function PlaceholderValue(key: string, extracted: map<string, Value>, usePersonal: bool): (r: string)
    ensures r != []
  {
    ShippedDefaultsNonEmpty();
    Resolve(key, extracted, usePersonal, PersonalData, DefaultData)
  }

  /** A usable extracted value wins whatever the flag and the tables say. */
  lemma ExtractedTakesPrecedence(key: string, extracted: map<string, Value>,
                                 usePersonal: bool, personal: seq<(string, string)>, defaults: seq<(string, string)>,
                                 usePersonal': bool, personal': seq<(string, string)>, defaults': seq<(string, string)>)
    requires ExtractedUsable(extracted, key)
    ensures Resolve(key, extracted, usePersonal, personal, defaults) == Resolve(key, extracted, usePersonal', personal', defaults')
    ensures Resolve(key, extracted, usePersonal, personal, defaults) == Strip(ToStr(extracted[key]))
  {
  }

  /** A personal value that is a sentinel has no effect: resolution is as if personal data were off. */
  lemma SentinelSkipped(key: string, extracted: map<string, Value>, personal: seq<(string, string)>, defaults: seq<(string, string)>)
    requires HasKey(personal, key) && Strip(FirstValue(personal, key)) in Sentinels
    ensures Resolve(key, extracted, true, personal, defaults) == Resolve(key, extracted, false, personal, defaults)
  {
  }

  /** Without a usable extracted or personal value: the default, else "[KEY]". */
  lemma DefaultOrBracket(key: string, extracted: map<string, Value>, usePersonal: bool,
                         personal: seq<(string, string)>, defaults: seq<(string, string)>)
    requires !ExtractedUsable(extracted, key) && !PersonalUsable(key, usePersonal, personal)
    ensures HasKey(defaults, key) ==> Resolve(key, extracted, usePersonal, personal, defaults) == FirstValue(defaults, key)
    ensures !HasKey(defaults, key) ==> Resolve(key, extracted, usePersonal, personal, defaults) == "[" + key + "]"
  {
  }

  /**
   * get_first_name: the configured default for an empty or blank name and for
   * the two name placeholders, otherwise the first whitespace-separated word of
   * the stripped name. The configured default, DEFAULT_DATA's FIRST_NAME, is
   * "Professional" (lemma DefaultFirstName), written out here.
   */
  function FirstName(fullName: string): (r: string)
    ensures r != [] && NoSpace(r)
    ensures AllSpace(fullName) || Strip(fullName) in NamePlaceholders ==> r == "Professional"
    ensures !AllSpace(fullName) && Strip(fullName) !in NamePlaceholders ==>
      var t := Strip(fullName);
      StartsWith(t, r) && (|r| == |t| || IsSpace(t[|r|]))
  {
    ProfessionalIsOneWord();
    if fullName == [] || Strip(fullName) in NamePlaceholders then "Professional"
    else
      var parts := Words(Strip(fullName));
      if parts == [] then "Professional"
      else
        FirstWord(Strip(fullName));
        parts[0]
  }

  /**
   * With nothing extracted and the personal table as shipped, the name
   * resolves to the default "Professional Developer" and the first name to
   * "Professional".
   */
  lemma ShippedNameResolution()
    ensures PlaceholderValue("FULL_NAME", map[], true) == "Professional Developer"
    ensures FirstName(PlaceholderValue("FULL_NAME", map[], true)) == "Professional"
  {
    ShippedFullName();
    StripNoop("Professional Developer");
    assert Strip("Professional Developer") in NamePlaceholders;
  }

  lemma ShippedFullName()
    ensures PlaceholderValue("FULL_NAME", map[], true) == "Professional Developer"
  {
    PersonalNameIsSentinel();
    DefaultFullName();
    assert !ExtractedUsable(map[], "FULL_NAME");
  }

  lemma PersonalNameIsSentinel()
    ensures !PersonalUsable("FULL_NAME", true, PersonalData)
  {
    assert PersonalData[0] == ("FULL_NAME", "Your Full Name");
    assert HasKey(PersonalData, "FULL_NAME");
    StripNoop("Your Full Name");
  }

  lemma DefaultFullName()
    ensures HasKey(DefaultData, "FULL_NAME") && FirstValue(DefaultData, "FULL_NAME") == "Professional Developer"
  {
    assert DefaultData[0] == ("FULL_NAME", "Professional Developer");
  }

  /** dict.get(field, default) rendered by an f-string. */
  function Get(field: Option<Value>, default: string): string
  {
    match field
    case None => default
    case Some(v) => ToStr(v)
  }

  /** A skill: a {"name", "level"} record (either key may be absent) or a bare value. */
  datatype SkillEntry = Rated(name: Option<Value>, level: Option<Value>) | Bare(skill: Value)

  function SkillBlock(e: SkillEntry): string
  {
    match e
    case Rated(name, level) =>
      Concat([
        Line(16, "<div class=\"skill-item\">"),
        Line(20, "<div class=\"skill-name\">" + Get(name, "Unknown Skill") + "</div>"),
        Line(20, "<div class=\"skill-level\">" + Get(level, "Beginner") + "</div>"),
        Line(16, "</div>"),
        Line(12, "")])
    case Bare(skill) =>
      Concat([
        Line(16, "<div class=\"skill-item\">"),
        Line(20, "<div class=\"skill-name\">" + ToStr(skill) + "</div>"),
        Line(16, "</div>"),
        Line(12, "")])
  }

  /** The fixed fragment for a missing category (an opening tag and its text, written as two literals). */
  const NoSkills: string := "<div class=\"skill-item\">" + "No skills available</div>"

  /** generate_skills_html as a value. */
  function SkillsHtml(skillsData: map<string, seq<SkillEntry>>, category: string): string
  {
    if category !in skillsData then NoSkills
    else JoinWith(MapSeq(skillsData[category], SkillBlock), "\n")
  }

  /** A work-experience record; absent keys are None, absent achievements []. */
  datatype Experience = Experience(
    title: Option<Value>, company: Option<Value>, duration: Option<Value>,
    description: Option<Value>, achievements: seq<Value>)

  /** An education record. */
  datatype Education = Education(
    degree: Option<Value>, institution: Option<Value>, duration: Option<Value>,
    description: Option<Value>, achievements: seq<Value>)

  function ListItems(items: seq<Value>): string
    decreases |items|
  {
    if items == [] then [] else "<li>" + ToStr(items[0]) + "</li>" + ListItems(items[1..])
  }

  /** The timeline entry shared by the experience and education sections. */
  function TimelineBlock(orgClass: string, title: string, org: string, duration: string, description: string, achievements: seq<Value>): string
  {
    Concat([
      Line(12, "<div class=\"timeline-item\">"),
      Line(16, "<div class=\"timeline-marker\"></div>"),
      Line(16, "<div class=\"timeline-content\">"),
      Line(20, "<h3 class=\"timeline-title\">" + title + "</h3>"),
      Line(20, "<h4 class=\"" + orgClass + "\">" + org + "</h4>"),
      Line(20, "<span class=\"timeline-date\">" + duration + "</span>"),
      Line(20, "<p class=\"timeline-description\">" + description + "</p>"),
      Line(20, "<ul class=\"timeline-achievements\">"),
      Line(24, ListItems(achievements)),
      Line(20, "</ul>"),
      Line(16, "</div>"),
      Line(12, "</div>"),
      Line(8, "")])
  }

  function ExperienceBlock(x: Experience): string
  {
    TimelineBlock("timeline-company", Get(x.title, "Position"), Get(x.company, "Company"),
      Get(x.duration, "Duration"), Get(x.description, "Description"), x.achievements)
  }

  function EducationBlock(x: Education): string
  {
    TimelineBlock("timeline-institution", Get(x.degree, "Degree"), Get(x.institution, "Institution"),
      Get(x.duration, "Duration"), Get(x.description, "Description"), x.achievements)
  }

  const NoExperience: string := "<div class=\"timeline-item\">" + "No experience data available</div>"
  const NoEducation: string := "<div class=\"timeline-item\">" + "No education data available</div>"

  /** A section generator: the fixed fragment for no records, else the rendered blocks joined by newlines. */
  function Section<T>(data: seq<T>, render: T -> string, empty: string): string
  {
    if data == [] then empty else JoinWith(MapSeq(data, render), "\n")
  }

  function ExperienceHtml(data: seq<Experience>): string
  {
    Section(data, ExperienceBlock, NoExperience)
  }

  function EducationHtml(data: seq<Education>): string
  {
    Section(data, EducationBlock, NoEducation)
  }

  /** A portfolio project record. */
  datatype Project = Project(
    title: Option<Value>, description: Option<Value>, technologies: seq<string>,
    githubUrl: Option<Value>, liveUrl: Option<Value>, imageUrl: Option<Value>,
    featured: Option<Value>)

  /** project.get('featured', False) is truthy. */
  predicate IsFeatured(p: Project)
  {
    p.featured.Some? && Truthy(p.featured.value)
  }

  function ProjectCardOpening(featured: bool): string
  {
    Line(12, "<div class=\"project-card " + (if featured then "featured" else "") + "\">")
  }

  function ProjectBlock(p: Project): string
  {
    ProjectCardOpening(IsFeatured(p)) + ProjectCardBody(p)
  }

  /** Everything of a project card after its opening tag. */
  function ProjectCardBody(p: Project): string
  {
    Concat([
      Line(16, "<div class=\"project-image\">"),
      Line(20, "<img src=\"" + Get(p.imageUrl, "assets/img/project-placeholder.jpg") + "\" alt=\"" + Get(p.title, "Project") + "\">"),
      Line(20, "<div class=\"project-overlay\">"),
      Line(24, "<div class=\"project-links\">"),
      Line(28, "<a href=\"" + Get(p.githubUrl, "#") + "\" class=\"project-link\" target=\"_blank\">"),
      Line(32, "<i class=\"fab fa-github\"></i>"),
      Line(28, "</a>"),
      Line(28, "<a href=\"" + Get(p.liveUrl, "#") + "\" class=\"project-link\" target=\"_blank\">"),
      Line(32, "<i class=\"fas fa-external-link-alt\"></i>"),
      Line(28, "</a>"),
      Line(24, "</div>"),
      Line(20, "</div>"),
      Line(16, "</div>"),
      Line(16, "<div class=\"project-content\">"),
      Line(20, "<h3 class=\"project-title\">" + Get(p.title, "Project Title") + "</h3>"),
      Line(20, "<p class=\"project-description\">" + Get(p.description, "Project description") + "</p>"),
      Line(20, "<div class=\"project-technologies\">"),
      Line(24, "<span class=\"tech-label\">Technologies:</span>"),
      Line(24, "<span class=\"tech-list\">" + JoinWith(p.technologies, ", ") + "</span>"),
      Line(20, "</div>"),
      Line(16, "</div>"),
      Line(12, "</div>"),
      Line(8, "")])
  }

  const NoProjects: string := "<div class=\"project-card\">" + "No projects available</div>"

  function ProjectsHtml(data: seq<Project>): string
  {
    Section(data, ProjectBlock, NoProjects)
  }

  /** generate_skills_html: one block per entry of the category, joined by newlines. */
  method GenerateSkillsHtml(skillsData: map<string, seq<SkillEntry>>, category: string) returns (html: string)
    ensures html == SkillsHtml(skillsData, category)
  {
    if category !in skillsData {
      return NoSkills;
    }
    var parts := RenderEach(skillsData[category], SkillBlock);
    html := JoinWith(parts, "\n");
  }

  method GenerateExperienceHtml(data: seq<Experience>) returns (html: string)
    ensures html == ExperienceHtml(data)
  {
    if data == [] {
      return NoExperience;
    }
    var parts := RenderEach(data, ExperienceBlock);
    html := JoinWith(parts, "\n");
  }

  method GenerateEducationHtml(data: seq<Education>) returns (html: string)
    ensures html == EducationHtml(data)
  {
    if data == [] {
      return NoEducation;
    }
    var parts := RenderEach(data, EducationBlock);
    html := JoinWith(parts, "\n");
  }

  method GenerateProjectsHtml(data: seq<Project>) returns (html: string)
    ensures html == ProjectsHtml(data)
  {
    if data == [] {
      return NoProjects;
    }
    var parts := RenderEach(data, ProjectBlock);
    html := JoinWith(parts, "\n");
  }

  /** A rendered block begins with the newline of its first template line. */
  lemma BlocksStartWithNewline<T>(items: seq<T>, f: T -> string)
    requires items != [] && f(items[0]) != [] && f(items[0])[0] == '\n'
    ensures JoinWith(MapSeq(items, f), "\n") != [] && JoinWith(MapSeq(items, f), "\n")[0] == '\n'
  {
    JoinedStart(MapSeq(items, f), "\n");
  }

  /**
   * generate_skills_html: a missing category gives the fixed fragment, an
   * empty one gives "", otherwise one block per entry, in input order,
   * separated by newlines; so the fixed fragment appears exactly when the
   * category is missing.
   */
  lemma SkillsHtmlCases(skillsData: map<string, seq<SkillEntry>>, category: string)
    ensures SkillsHtml(skillsData, category) == NoSkills <==> category !in skillsData
    ensures category in skillsData && skillsData[category] == [] ==> SkillsHtml(skillsData, category) == ""
    ensures category in skillsData ==>
      var parts := MapSeq(skillsData[category], SkillBlock);
      forall i | 0 <= i < |parts| :: OccursAt(SkillsHtml(skillsData, category), SkillBlock(skillsData[category][i]), PartOffset(parts, "\n", i))
  {
    if category in skillsData {
      var items := skillsData[category];
      JoinedInOrder(MapSeq(items, SkillBlock), "\n");
      if items != [] {
        BlocksStartWithNewline(items, SkillBlock);
      }
    }
  }

  /**
   * A section is its fixed fragment exactly when there are no records (the
   * blocks begin with a newline, the fragment does not), and otherwise holds
   * each record's block, in input order, at its place in the join.
   */
  lemma SectionCases<T>(data: seq<T>, render: T -> string, empty: string, html: string)
    requires html == Section(data, render, empty)
    requires empty != [] && empty[0] != '\n'
    requires data != [] ==> render(data[0]) != [] && render(data[0])[0] == '\n'
    ensures html == empty <==> data == []
    ensures var parts := MapSeq(data, render);
      forall i | 0 <= i < |data| :: OccursAt(html, render(data[i]), PartOffset(parts, "\n", i))
  {
    if data != [] {
      JoinedInOrder(MapSeq(data, render), "\n");
      BlocksStartWithNewline(data, render);
    }
  }

  /**
   * generate_experience_html: the fixed fragment exactly for an empty list,
   * otherwise one block per record, in input order.
   */
  lemma ExperienceHtmlCases(data: seq<Experience>)
    ensures ExperienceHtml(data) == NoExperience <==> data == []
    ensures var parts := MapSeq(data, ExperienceBlock);
      forall i | 0 <= i < |data| :: OccursAt(ExperienceHtml(data), ExperienceBlock(data[i]), PartOffset(parts, "\n", i))
  {
    if data != [] {
      assert ExperienceBlock(data[0])[0] == '\n';
    }
    assert NoExperience[0] == '<';
    SectionCases(data, ExperienceBlock, NoExperience, ExperienceHtml(data));
  }

  /** generate_education_html: as for experience. */
  lemma EducationHtmlCases(data: seq<Education>)
    ensures EducationHtml(data) == NoEducation <==> data == []
    ensures var parts := MapSeq(data, EducationBlock);
      forall i | 0 <= i < |data| :: OccursAt(EducationHtml(data), EducationBlock(data[i]), PartOffset(parts, "\n", i))
  {
    if data != [] {
      assert EducationBlock(data[0])[0] == '\n';
    }
    assert NoEducation[0] == '<';
    SectionCases(data, EducationBlock, NoEducation, EducationHtml(data));
  }

  /** generate_projects_html: as for experience. */
  lemma ProjectsHtmlCases(data: seq<Project>)
    ensures ProjectsHtml(data) == NoProjects <==> data == []
    ensures var parts := MapSeq(data, ProjectBlock);
      forall i | 0 <= i < |data| :: OccursAt(ProjectsHtml(data), ProjectBlock(data[i]), PartOffset(parts, "\n", i))
  {
    if data != [] {
      ProjectBlockStart(data[0]);
    }
    assert NoProjects[0] == '<';
    SectionCases(data, ProjectBlock, NoProjects, ProjectsHtml(data));
  }

  lemma ProjectBlockStart(p: Project)
    ensures ProjectBlock(p) != [] && ProjectBlock(p)[0] == '\n'
  {
    var o := ProjectCardOpening(IsFeatured(p));
    assert o[0] == '\n';
  }

  /** A project card carries the `featured` class exactly when `featured` is truthy. */
  lemma FeaturedCard(p: Project)
    ensures StartsWith(ProjectBlock(p), ProjectCardOpening(true)) <==> IsFeatured(p)
  {
    OpeningDecides(IsFeatured(p), ProjectCardBody(p));
  }

  /** Whatever follows it, a card opening starts with the featured opening exactly when it is one. */
  lemma OpeningDecides(featured: bool, body: string)
    ensures StartsWith(ProjectCardOpening(featured) + body, ProjectCardOpening(true)) <==> featured
  {
    var o := ProjectCardOpening(featured);
    var b := o + body;
    assert b[..|o|] == o;
    if !featured {
      var k := |"\n" + Pad(12) + "<div class=\"project-card "|;
      assert o[k] == '"';
      assert ProjectCardOpening(true)[k] == 'f';
      assert |ProjectCardOpening(true)| > |o|;
      if |b| >= |ProjectCardOpening(true)| {
        assert b[..|ProjectCardOpening(true)|][k] == '"';
      }
    }
  }

  /** The keys get_all_placeholders resolves one by one through get_placeholder_value. */
  const BasicKeys: seq<Key> := [
    FULL_NAME, EMAIL, PHONE, LOCATION, JOB_TITLE,
    CURRENT_POSITION, PROFESSIONAL_SUMMARY, ABOUT_DESCRIPTION,
    LINKEDIN_URL, GITHUB_URL, TWITTER_URL, RESUME_DOWNLOAD_LINK,
    YEARS_EXPERIENCE, PROJECT_COUNT, SKILL_COUNT, EDUCATION_DEGREE,
    CONTACT_MESSAGE, PRIMARY_SKILLS, SECONDARY_TITLE_1,
    SECONDARY_TITLE_2, SECONDARY_TITLE_3
  ]

  /**
   * The module's data tables: PERSONAL_DATA and DEFAULT_DATA (the shipped ones
   * are PersonalData and DefaultData) and the sample SKILLS_DATA,
   * EXPERIENCE_DATA, EDUCATION_DATA and PROJECTS_DATA.
   */
  datatype DataTables = DataTables(
    personal: seq<(string, string)>, defaults: seq<(string, string)>,
    skills: map<string, seq<SkillEntry>>, experience: seq<Experience>,
    education: seq<Education>, projects: seq<Project>)

  /** Every placeholder is a basic key, FIRST_NAME, or one of the seven HTML sections, and only one of these. */
  /** BasicKeys lists exactly the basic keys. */
  lemma KeysPartitioned(k: Key)
    ensures k in BasicKeys <==> IsBasicKey(k)
  {
    BasicKeysAreBasic();
    match k
    case FULL_NAME => assert BasicKeys[0] == k;
    case EMAIL => assert BasicKeys[1] == k;
    case PHONE => assert BasicKeys[2] == k;
    case LOCATION => assert BasicKeys[3] == k;
    case JOB_TITLE => assert BasicKeys[4] == k;
    case CURRENT_POSITION => assert BasicKeys[5] == k;
    case PROFESSIONAL_SUMMARY => assert BasicKeys[6] == k;
    case ABOUT_DESCRIPTION => assert BasicKeys[7] == k;
    case LINKEDIN_URL => assert BasicKeys[8] == k;
    case GITHUB_URL => assert BasicKeys[9] == k;
    case TWITTER_URL => assert BasicKeys[10] == k;
    case RESUME_DOWNLOAD_LINK => assert BasicKeys[11] == k;
    case YEARS_EXPERIENCE => assert BasicKeys[12] == k;
    case PROJECT_COUNT => assert BasicKeys[13] == k;
    case SKILL_COUNT => assert BasicKeys[14] == k;
    case EDUCATION_DEGREE => assert BasicKeys[15] == k;
    case CONTACT_MESSAGE => assert BasicKeys[16] == k;
    case PRIMARY_SKILLS => assert BasicKeys[17] == k;
    case SECONDARY_TITLE_1 => assert BasicKeys[18] == k;
    case SECONDARY_TITLE_2 => assert BasicKeys[19] == k;
    case SECONDARY_TITLE_3 => assert BasicKeys[20] == k;
    case _ =>
  }

  lemma BasicKeysAreBasic()
    ensures forall i | 0 <= i < |BasicKeys| :: IsBasicKey(BasicKeys[i])
  {
  }

  /** The keys resolved through get_placeholder_value: all but FIRST_NAME and the seven sections. */
  predicate IsBasicKey(k: Key)
  {
    !(k == FIRST_NAME || IsSkillSection(k) || IsHistorySection(k))
  }

  /** The four skill sections, filled from SKILLS_DATA. */
  predicate IsSkillSection(k: Key)
  {
    k == PROGRAMMING_LANGUAGES || k == FRAMEWORKS || k == DATABASES_TOOLS || k == CLOUD_DEVOPS
  }

  /** The experience, education and project sections. */
  predicate IsHistorySection(k: Key)
  {
    k == WORK_EXPERIENCE || k == EDUCATION_HISTORY || k == PROJECTS_LIST
  }

  /** The loop of get_all_placeholders over the basic keys. */
  method ResolveBasicKeys(extracted: map<string, Value>, usePersonal: bool, tables: DataTables)
    returns (placeholders: map<Key, string>)
    ensures forall k: Key :: k in placeholders <==> IsBasicKey(k)
    ensures forall k {:trigger placeholders[k]} | k in placeholders ::
      placeholders[k] == Resolve(Name(k), extracted, usePersonal, tables.personal, tables.defaults)
  {
    placeholders := map[];
    for i := 0 to |BasicKeys|
      invariant placeholders.Keys == set k | k in BasicKeys[..i]
      invariant forall k {:trigger placeholders[k]} | k in placeholders ::
        placeholders[k] == Resolve(Name(k), extracted, usePersonal, tables.personal, tables.defaults)
    {
      assert BasicKeys[..i + 1] == BasicKeys[..i] + [BasicKeys[i]];
      var value := Resolve(Name(BasicKeys[i]), extracted, usePersonal, tables.personal, tables.defaults);
      placeholders := placeholders[BasicKeys[i] := value];
    }
    assert BasicKeys[..|BasicKeys|] == BasicKeys;
    forall k: Key ensures k in placeholders <==> IsBasicKey(k) {
      KeysPartitioned(k);
    }
  }

  /** The seven rendered HTML sections of get_all_placeholders. */
  datatype Sections = Sections(
    languages: string, frameworks: string, databases: string, cloud: string,
    work: string, education: string, projects: string)

  /** The assignments of get_all_placeholders after its loop over the basic keys. */
  method Assemble(basic: map<Key, string>, firstName: string, s: Sections)
    returns (placeholders: map<Key, string>)
    requires forall k: Key :: k in basic <==> IsBasicKey(k)
    ensures forall k: Key :: k in placeholders
    ensures forall k | IsBasicKey(k) :: placeholders[k] == basic[k]
    ensures placeholders[FIRST_NAME] == firstName
    ensures placeholders[PROGRAMMING_LANGUAGES] == s.languages
    ensures placeholders[FRAMEWORKS] == s.frameworks
    ensures placeholders[DATABASES_TOOLS] == s.databases
    ensures placeholders[CLOUD_DEVOPS] == s.cloud
    ensures placeholders[WORK_EXPERIENCE] == s.work
    ensures placeholders[EDUCATION_HISTORY] == s.education
    ensures placeholders[PROJECTS_LIST] == s.projects
  {
    placeholders := basic[FIRST_NAME := firstName];
    placeholders := placeholders[PROGRAMMING_LANGUAGES := s.languages];
    placeholders := placeholders[FRAMEWORKS := s.frameworks];
    placeholders := placeholders[DATABASES_TOOLS := s.databases];
    placeholders := placeholders[CLOUD_DEVOPS := s.cloud];
    placeholders := placeholders[WORK_EXPERIENCE := s.work];
    placeholders := placeholders[EDUCATION_HISTORY := s.education];
    placeholders := placeholders[PROJECTS_LIST := s.projects];
  }

  /**
   * get_all_placeholders: the 21 basic keys resolved one by one, FIRST_NAME
   * derived from the resolved FULL_NAME, and the seven HTML sections.
   */
  method GetAllPlaceholders(extracted: map<string, Value>, usePersonal: bool, tables: DataTables)
    returns (placeholders: map<Key, string>)
    ensures forall k: Key :: k in placeholders
    ensures forall k | IsBasicKey(k) ::
      placeholders[k] == Resolve(Name(k), extracted, usePersonal, tables.personal, tables.defaults)
    ensures NonEmptyValues(tables.defaults) ==> forall k | IsBasicKey(k) :: placeholders[k] != []
    ensures placeholders[FIRST_NAME] == FirstName(placeholders[FULL_NAME])
    ensures placeholders[PROGRAMMING_LANGUAGES] == SkillsHtml(tables.skills, "PROGRAMMING_LANGUAGES")
    ensures placeholders[FRAMEWORKS] == SkillsHtml(tables.skills, "FRAMEWORKS")
    ensures placeholders[DATABASES_TOOLS] == SkillsHtml(tables.skills, "DATABASES_TOOLS")
    ensures placeholders[CLOUD_DEVOPS] == SkillsHtml(tables.skills, "CLOUD_DEVOPS")
    ensures placeholders[WORK_EXPERIENCE] == ExperienceHtml(tables.experience)
    ensures placeholders[EDUCATION_HISTORY] == EducationHtml(tables.education)
    ensures placeholders[PROJECTS_LIST] == ProjectsHtml(tables.projects)
  {
    var basic := ResolveBasicKeys(extracted, usePersonal, tables);
    assert IsBasicKey(FULL_NAME);
    var fullName := basic[FULL_NAME];
    var sections := Sections(
      SkillsHtml(tables.skills, "PROGRAMMING_LANGUAGES"), SkillsHtml(tables.skills, "FRAMEWORKS"),
      SkillsHtml(tables.skills, "DATABASES_TOOLS"), SkillsHtml(tables.skills, "CLOUD_DEVOPS"),
      ExperienceHtml(tables.experience), EducationHtml(tables.education), ProjectsHtml(tables.projects));
    placeholders := Assemble(basic, FirstName(fullName), sections);
  }
}

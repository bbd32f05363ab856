/**
 * The PortfolioTemplateGenerator of resume-to-portfoliov2/template-generator.js:
 * an object holding one value per `{{KEY}}` placeholder, which populateTemplate
 * overwrites from a resume record before substituting them into a template,
 * together with the pure HTML fragment generators, the skill icon lookup and
 * the required-field check.
 */
module TemplateGenerator {
  import opened Text
  import opened Values
  import opened Decimal
  import opened Replace
  import opened Keys

  // ---------------------------------------------------------------------
  // JavaScript values and the resume record
  // ---------------------------------------------------------------------

  /** String(value), as a template literal or String.prototype.replace renders a value. */
  function JsText(v: Value): (r: string)
    ensures Truthy(v) ==> r != []
  {
    match v
    case Str(s) => s
    case Int(i) => IntToString(i)
    case Bool(b) => if b then "true" else "false"
    case Null => "null"
  }

  /** `a || b`: the left operand when it is truthy, else the right one. */
  function Or(v: Value, default: string): Value
  {
    if Truthy(v) then v else Str(default)
  }

  /** A nested object of the record, None when it is undefined or null. */
  type Section = Option<map<string, Value>>

  /** `section?.name`: undefined (here Null) when the section or the member is missing. */
  function Member(section: Section, name: string): Value
  {
    if section.Some? && name in section.value then section.value[name] else Null
  }

  datatype Experience = Experience(position: string, company: string, description: string,
                                   startDate: string, endDate: string)

  /** An education entry; an empty description stands for a missing one, both being falsy. */
  datatype Education = Education(degree: string, institution: string, year: string, description: string)

  /** A project; empty icon and link strings stand for missing ones, both being falsy. */
  datatype Project = Project(name: string, description: string, technologies: seq<string>,
                             icon: string, liveUrl: string, githubUrl: string)

  /**
   * The resume record populateTemplate reads. An absent (undefined or null)
   * member is None; `skills` keeps its entries in object order.
   */
  datatype ResumeData = ResumeData(
    personalInfo: Section,
    socialLinks: Section,
    professionalInfo: Section,
    about: Section,
    contact: Section,
    stats: Section,
    resumeUrl: Value,
    skills: Option<seq<(string, seq<string>)>>,
    education: Option<seq<Education>>,
    experience: Option<seq<Experience>>,
    projects: Option<seq<Project>>,
    typewriterTitles: Option<seq<Value>>)

  // ---------------------------------------------------------------------
  // getSkillIcon
  // ---------------------------------------------------------------------

  /** The icon object literal of getSkillIcon, 'default' included. */
  const IconMap: map<string, string> := map[
    "JavaScript" := "fab fa-js-square",
    "Python" := "fab fa-python",
    "Java" := "fab fa-java",
    "C++" := "fas fa-code",
    "C#" := "fas fa-code",
    "PHP" := "fab fa-php",
    "Ruby" := "fas fa-gem",
    "Go" := "fas fa-code",
    "Rust" := "fas fa-code",
    "TypeScript" := "fas fa-code",
    "React" := "fab fa-react",
    "Angular" := "fab fa-angular",
    "Vue" := "fab fa-vuejs",
    "Node.js" := "fab fa-node-js",
    "Express" := "fas fa-server",
    "Django" := "fas fa-code",
    "Flask" := "fas fa-code",
    "Spring" := "fas fa-leaf",
    "Laravel" := "fas fa-code",
    "MySQL" := "fas fa-database",
    "PostgreSQL" := "fas fa-database",
    "MongoDB" := "fas fa-database",
    "Redis" := "fas fa-database",
    "SQLite" := "fas fa-database",
    "AWS" := "fab fa-aws",
    "Azure" := "fas fa-cloud",
    "Google Cloud" := "fab fa-google",
    "Docker" := "fab fa-docker",
    "Kubernetes" := "fas fa-dharmachakra",
    "Jenkins" := "fas fa-tools",
    "Git" := "fab fa-git-alt",
    "GitHub" := "fab fa-github",
    "default" := "fas fa-code"]

  /** No icon in the table is the empty string. */
  lemma IconsNonEmpty()
    ensures forall s | s in IconMap :: IconMap[s] != []
  {
  }

  /**
   * getSkillIcon: `iconMap[skill] || iconMap['default']`. Every entry is a
   * non-empty class string, so a listed skill gets its own entry and any other
   * gets "fas fa-code".
   */
  function SkillIcon(skill: string): (icon: string)
    ensures icon != []
    ensures skill in IconMap ==> icon == IconMap[skill]
    ensures skill !in IconMap ==> icon == "fas fa-code"
  {
    IconsNonEmpty();
    if skill in IconMap && IconMap[skill] != [] then IconMap[skill] else IconMap["default"]
  }

  /** The lookup is exact: a different capitalisation is an unknown skill. */
  lemma SkillIconCaseSensitive()
    ensures SkillIcon("Python") == "fab fa-python"
    ensures SkillIcon("python") == "fas fa-code"
    ensures SkillIcon("node.js") == "fas fa-code"
  {
    assert "python"[0] != "Python"[0];
    assert "node.js"[0] != "Node.js"[0];
  }

  // ---------------------------------------------------------------------
  // The four fragment generators: map over the items, join with ''
  // ---------------------------------------------------------------------

  /** parts.join('') is the plain concatenation of the parts. */
  lemma {:induction false} JoinNothing(parts: seq<string>)
    ensures JoinWith(parts, "") == Concat(parts)
    decreases |parts|
  {
    if |parts| > 1 {
      JoinNothing(parts[1..]);
    }
  }

  lemma {:induction false} ConcatAppend(a: seq<string>, b: seq<string>)
    ensures Concat(a + b) == Concat(a) + Concat(b)
    decreases |a|
  {
    if a != [] {
      ConcatAppend(a[1..], b);
      assert (a + b)[0] == a[0] && (a + b)[1..] == a[1..] + b;
      calc {
        Concat(a + b);
        a[0] + Concat(a[1..] + b);
        a[0] + (Concat(a[1..]) + Concat(b));
        (a[0] + Concat(a[1..])) + Concat(b);
        Concat(a) + Concat(b);
      }
    } else {
      assert a + b == b;
    }
  }

  /**
   * `items.map(render).join('')` of a concatenation is the concatenation of
   * the two, and of one item is that item's block: one block per item, in
   * input order, with nothing in between.
   */
  lemma Blocks<T>(a: seq<T>, b: seq<T>, render: T -> string)
    ensures JoinWith(MapSeq(a + b, render), "") == JoinWith(MapSeq(a, render), "") + JoinWith(MapSeq(b, render), "")
    ensures forall x: T :: JoinWith(MapSeq([x], render), "") == render(x)
    ensures JoinWith(MapSeq([], render), "") == ""
  {
    assert MapSeq(a + b, render) == MapSeq(a, render) + MapSeq(b, render);
    JoinNothing(MapSeq(a + b, render));
    JoinNothing(MapSeq(a, render));
    JoinNothing(MapSeq(b, render));
    ConcatAppend(MapSeq(a, render), MapSeq(b, render));
    forall x: T ensures JoinWith(MapSeq([x], render), "") == render(x) {
      assert MapSeq([x], render) == [render(x)];
    }
  }

  /** The block of one skill. */
  function SkillItem(skill: string): string
  {
    Concat([
      Line(12, "<div class=\"skill-item\">"),
      Line(16, "<div class=\"skill-icon\">"),
      Line(20, "<i class=\"" + SkillIcon(skill) + "\"></i>"),
      Line(16, "</div>"),
      Line(16, "<div class=\"skill-name\">" + skill + "</div>"),
      Line(12, "</div>"),
      Line(8, "")])
  }

  /** generateSkillItems. */
  function GenerateSkillItems(skills: seq<string>): string
  {
    JoinWith(MapSeq(skills, SkillItem), "")
  }

  /** One skill block per skill, in input order; no skills give "". */
  lemma SkillItemsInOrder(a: seq<string>, b: seq<string>, skill: string)
    ensures GenerateSkillItems(a + b) == GenerateSkillItems(a) + GenerateSkillItems(b)
    ensures GenerateSkillItems([skill]) == SkillItem(skill)
    ensures GenerateSkillItems([]) == ""
  {
    Blocks(a, b, SkillItem);
  }

  /** The timeline block of one job. */
  function ExperienceItem(exp: Experience): string
  {
    Concat([
      Line(12, "<div class=\"timeline-item\">"),
      Line(16, "<div class=\"timeline-content\">"),
      Line(20, "<h3 class=\"timeline-title\">" + exp.position + "</h3>"),
      Line(20, "<h4 class=\"timeline-company\">" + exp.company + "</h4>"),
      Line(20, "<p class=\"timeline-description\">" + exp.description + "</p>"),
      Line(16, "</div>"),
      Line(16, "<div class=\"timeline-date\">" + exp.startDate + " - " + exp.endDate + "</div>"),
      Line(12, "</div>"),
      Line(8, "")])
  }

  /** generateExperienceTimeline. */
  function GenerateExperienceTimeline(experiences: seq<Experience>): string
  {
    JoinWith(MapSeq(experiences, ExperienceItem), "")
  }

  /** One timeline block per job, in input order; no jobs give "". */
  lemma ExperienceInOrder(a: seq<Experience>, b: seq<Experience>, exp: Experience)
    ensures GenerateExperienceTimeline(a + b) == GenerateExperienceTimeline(a) + GenerateExperienceTimeline(b)
    ensures GenerateExperienceTimeline([exp]) == ExperienceItem(exp)
    ensures GenerateExperienceTimeline([]) == ""
  {
    Blocks(a, b, ExperienceItem);
  }

  /** The timeline block of one degree; a falsy description gets a stock sentence. */
  function EducationItem(edu: Education): string
  {
    var description := if edu.description != [] then edu.description else "Relevant coursework and achievements";
    Concat([
      Line(12, "<div class=\"timeline-item\">"),
      Line(16, "<div class=\"timeline-content\">"),
      Line(20, "<h3 class=\"timeline-title\">" + edu.degree + "</h3>"),
      Line(20, "<h4 class=\"timeline-company\">" + edu.institution + "</h4>"),
      Line(20, "<p class=\"timeline-description\">" + description + "</p>"),
      Line(16, "</div>"),
      Line(16, "<div class=\"timeline-date\">" + edu.year + "</div>"),
      Line(12, "</div>"),
      Line(8, "")])
  }

  /** generateEducationTimeline. */
  function GenerateEducationTimeline(education: seq<Education>): string
  {
    JoinWith(MapSeq(education, EducationItem), "")
  }

  /** One timeline block per degree, in input order; no degrees give "". */
  lemma EducationInOrder(a: seq<Education>, b: seq<Education>, edu: Education)
    ensures GenerateEducationTimeline(a + b) == GenerateEducationTimeline(a) + GenerateEducationTimeline(b)
    ensures GenerateEducationTimeline([edu]) == EducationItem(edu)
    ensures GenerateEducationTimeline([]) == ""
  {
    Blocks(a, b, EducationItem);
  }

  function TechTag(tech: string): string
  {
    "<span class=\"tech-tag\">" + tech + "</span>"
  }

  /** A project link, or "" when the URL is falsy. */
  function ProjectLink(url: string, iconClass: string, caption: string): string
  {
    if url == [] then ""
    else
      "<a href=\"" + url + "\" class=\"project-link\" target=\"_blank\">"
      + Line(28, "<i class=\"" + iconClass + "\"></i> " + caption)
      + Line(24, "</a>")
  }

  /** The card of one project; a falsy icon becomes "fas fa-laptop-code". */
  function ProjectCard(project: Project): string
  {
    var icon := if project.icon != [] then project.icon else "fas fa-laptop-code";
    Concat([
      Line(12, "<div class=\"project-card\">"),
      Line(16, "<div class=\"project-image\">"),
      Line(20, "<i class=\"" + icon + "\"></i>"),
      Line(16, "</div>"),
      Line(16, "<div class=\"project-content\">"),
      Line(20, "<h3 class=\"project-title\">" + project.name + "</h3>"),
      Line(20, "<p class=\"project-description\">" + project.description + "</p>"),
      Line(20, "<div class=\"project-tech\">"),
      Line(24, JoinWith(MapSeq(project.technologies, TechTag), "")),
      Line(20, "</div>"),
      Line(20, "<div class=\"project-links\">"),
      Line(24, ProjectLink(project.liveUrl, "fas fa-external-link-alt", "Live Demo")),
      Line(24, ProjectLink(project.githubUrl, "fab fa-github", "Source Code")),
      Line(20, "</div>"),
      Line(16, "</div>"),
      Line(12, "</div>"),
      Line(8, "")])
  }

  /** generateProjectCards. */
  function GenerateProjectCards(projects: seq<Project>): string
  {
    JoinWith(MapSeq(projects, ProjectCard), "")
  }

  /** One card per project, in input order; no projects give "". */
  lemma ProjectsInOrder(a: seq<Project>, b: seq<Project>, project: Project)
    ensures GenerateProjectCards(a + b) == GenerateProjectCards(a) + GenerateProjectCards(b)
    ensures GenerateProjectCards([project]) == ProjectCard(project)
    ensures GenerateProjectCards([]) == ""
  {
    Blocks(a, b, ProjectCard);
  }

  /** The technologies line of a card holds one tag per technology, in order. */
  lemma TechTagsInOrder(a: seq<string>, b: seq<string>)
    ensures JoinWith(MapSeq(a + b, TechTag), "") == JoinWith(MapSeq(a, TechTag), "") + JoinWith(MapSeq(b, TechTag), "")
  {
    Blocks(a, b, TechTag);
  }

  // ---------------------------------------------------------------------
  // The values populateTemplate assigns
  // ---------------------------------------------------------------------

  /** The placeholders whose value is not a `x || 'default'` expression. */
  predicate Computed(k: Key)
  {
    k == SKILL_COUNT || k == EDUCATION_HISTORY || k == PROGRAMMING_LANGUAGES || k == FRAMEWORKS
    || k == DATABASES_TOOLS || k == CLOUD_DEVOPS || k == WORK_EXPERIENCE || k == PROJECTS_LIST
  }

  /** The skill array stored under name, if the record has skills and that member. */
  function SkillArray(r: ResumeData, name: string): Option<seq<string>>
  {
    if r.skills.Some? && HasKey(r.skills.value, name) then Some(FirstValue(r.skills.value, name)) else None
  }

  /** `resumeData.typewriterTitles?.[i]`. */
  function Title(r: ResumeData, i: nat): Value
  {
    if r.typewriterTitles.Some? && i < |r.typewriterTitles.value| then r.typewriterTitles.value[i] else Null
  }

  /** The left operand of the `||` that sets placeholder k. */
  function Operand(r: ResumeData, k: Key): Value
    requires !Computed(k)
  {
    match k
    case FULL_NAME => Member(r.personalInfo, "fullName")
    case FIRST_NAME => Member(r.personalInfo, "firstName")
    case EMAIL => Member(r.personalInfo, "email")
    case PHONE => Member(r.personalInfo, "phone")
    case LOCATION => Member(r.personalInfo, "location")
    case LINKEDIN_URL => Member(r.socialLinks, "linkedin")
    case GITHUB_URL => Member(r.socialLinks, "github")
    case TWITTER_URL => Member(r.socialLinks, "twitter")
    case RESUME_DOWNLOAD_LINK => r.resumeUrl
    case JOB_TITLE => Member(r.professionalInfo, "currentTitle")
    case CURRENT_POSITION => Member(r.professionalInfo, "currentPosition")
    case PROFESSIONAL_SUMMARY => Member(r.professionalInfo, "summary")
    case ABOUT_DESCRIPTION => Member(r.about, "description")
    case CONTACT_MESSAGE => Member(r.contact, "message")
    case YEARS_EXPERIENCE => Member(r.stats, "yearsExperience")
    case PROJECT_COUNT => Member(r.stats, "projectCount")
    case EDUCATION_DEGREE =>
      if r.education.Some? && r.education.value != [] then Str(r.education.value[0].degree) else Null
    case PRIMARY_SKILLS =>
      (match SkillArray(r, "primary")
       case Some(primary) => Str(JoinWith(primary, ", "))
       case None => Null)
    case SECONDARY_TITLE_1 => Title(r, 0)
    case SECONDARY_TITLE_2 => Title(r, 1)
    case SECONDARY_TITLE_3 => Title(r, 2)
  }

  const SummaryDefault :=
    "Passionate developer with "
    + "expertise in modern web "
    + "technologies and a love for "
    + "creating innovative solutions."
  const AboutDefault :=
    "I am a dedicated software "
    + "developer with a passion for "
    + "creating efficient, scalable, "
    + "and user-friendly applications. "
    + "With experience in various "
    + "technologies and frameworks, I "
    + "enjoy tackling complex problems "
    + "and turning ideas into reality."
  const ContactDefault :=
    "I'm always interested in new "
    + "opportunities and exciting "
    + "projects. Whether you have a "
    + "question or just want to say "
    + "hi, feel free to reach out!"

  /** The right operand of the `||` that sets placeholder k. */
  function OrDefault(k: Key): (d: string)
    requires !Computed(k)
    ensures d != []
  {
    match k
    case FULL_NAME => "Your Name"
    case FIRST_NAME => "Your"
    case EMAIL => "your.email@example.com"
    case PHONE => "+1 (555) 123-4567"
    case LOCATION => "Your City, Country"
    case LINKEDIN_URL => "https://linkedin.com/in/yourprofile"
    case GITHUB_URL => "https://github.com/yourusername"
    case TWITTER_URL => "https://twitter.com/yourusername"
    case RESUME_DOWNLOAD_LINK => "#"
    case JOB_TITLE => "Software Developer"
    case CURRENT_POSITION => "Software Developer"
    case PROFESSIONAL_SUMMARY => SummaryDefault
    case ABOUT_DESCRIPTION => AboutDefault
    case CONTACT_MESSAGE => ContactDefault
    case YEARS_EXPERIENCE => "3"
    case PROJECT_COUNT => "15"
    case EDUCATION_DEGREE => "Bachelor's Degree"
    case PRIMARY_SKILLS => "JavaScript, Python, React, Node.js"
    case SECONDARY_TITLE_1 => "Full Stack Developer"
    case SECONDARY_TITLE_2 => "Problem Solver"
    case SECONDARY_TITLE_3 => "Tech Enthusiast"
  }

  /** All skills of the record: `Object.values(skills).flat()`. */
  function Flat(entries: seq<(string, seq<string>)>): seq<string>
  {
    if entries == [] then [] else entries[0].1 + Flat(entries[1..])
  }

  /** The sum of the lengths of the skill arrays. */
  function Total(entries: seq<(string, seq<string>)>): nat
  {
    if entries == [] then 0 else |entries[0].1| + Total(entries[1..])
  }

  /** Flattening keeps every skill of every array and nothing else. */
  lemma {:induction false} FlatCounts(entries: seq<(string, seq<string>)>)
    ensures |Flat(entries)| == Total(entries)
    ensures forall x :: x in Flat(entries) <==> exists i | 0 <= i < |entries| :: x in entries[i].1
    decreases |entries|
  {
    if entries != [] {
      FlatCounts(entries[1..]);
      forall x | x in Flat(entries) ensures exists i | 0 <= i < |entries| :: x in entries[i].1 {
        if x !in entries[0].1 {
          var i :| 0 <= i < |entries[1..]| && x in entries[1..][i].1;
          assert x in entries[i + 1].1;
        }
      }
      forall x | exists i | 0 <= i < |entries| :: x in entries[i].1 ensures x in Flat(entries) {
        var i :| 0 <= i < |entries| && x in entries[i].1;
        if i > 0 {
          assert x in entries[1..][i - 1].1;
        }
      }
    }
  }

  const EducationDefault: string :=
    "<div class=\"timeline-item\">"
    + "<div class=\"timeline-content\">"
    + "<h3 class=\"timeline-title\">Your Education</h3>"
    + "<h4 class=\"timeline-company\">Your Institution</h4>"
    + "<p class=\"timeline-description\">Add your educational background</p></div>"
    + "<div class=\"timeline-date\">Year</div></div>"

  const ExperienceDefault: string :=
    "<div class=\"timeline-item\">"
    + "<div class=\"timeline-content\">"
    + "<h3 class=\"timeline-title\">Your Position</h3>"
    + "<h4 class=\"timeline-company\">Your Company</h4>"
    + "<p class=\"timeline-description\">Add your work experience details</p></div>"
    + "<div class=\"timeline-date\">Start - End</div></div>"

  const SampleProject: Project := Project("Sample Project",
    "A brief description of your project and its key features.",
    ["React", "Node.js", "MongoDB"], "fas fa-laptop-code", "#", "#")

  /** The skills the generator shows for a missing category. */
  function DefaultSkills(k: Key): seq<string>
  {
    match k
    case PROGRAMMING_LANGUAGES => ["JavaScript", "Python", "Java", "TypeScript"]
    case FRAMEWORKS => ["React", "Node.js", "Express", "Django"]
    case DATABASES_TOOLS => ["MySQL", "MongoDB", "PostgreSQL", "Redis"]
    case _ => ["AWS", "Docker", "Git", "Jenkins"]
  }

  /** The member of `skills` that fills a skill-list placeholder. */
  function SkillMember(k: Key): string
  {
    match k
    case PROGRAMMING_LANGUAGES => "programmingLanguages"
    case FRAMEWORKS => "frameworks"
    case DATABASES_TOOLS => "databases"
    case _ => "cloudDevops"
  }

  /** `skills?.member ? generateSkillItems(member) : generateSkillItems(defaults)`. */
  function SkillList(r: ResumeData, k: Key): string
  {
    match SkillArray(r, SkillMember(k))
    case Some(skills) => GenerateSkillItems(skills)
    case None => GenerateSkillItems(DefaultSkills(k))
  }

  /** The value populateTemplate assigns to placeholder k. */
  function PlaceholderValue(r: ResumeData, k: Key): Value
  {
    match k
    case SKILL_COUNT => if r.skills.Some? then Int(|Flat(r.skills.value)|) else Str("20")
    case EDUCATION_HISTORY =>
      Str(if r.education.Some? then GenerateEducationTimeline(r.education.value) else EducationDefault)
    case PROGRAMMING_LANGUAGES => Str(SkillList(r, k))
    case FRAMEWORKS => Str(SkillList(r, k))
    case DATABASES_TOOLS => Str(SkillList(r, k))
    case CLOUD_DEVOPS => Str(SkillList(r, k))
    case WORK_EXPERIENCE =>
      Str(if r.experience.Some? then GenerateExperienceTimeline(r.experience.value) else ExperienceDefault)
    case PROJECTS_LIST =>
      Str(GenerateProjectCards(if r.projects.Some? then r.projects.value else [SampleProject]))
    case _ => Or(Operand(r, k), OrDefault(k))
  }

  /**
   * Every `x || 'default'` placeholder takes x when it is truthy and its
   * default otherwise, so an empty string counts as missing and the value is
   * never blank.
   */
  lemma TruthyOrDefault(r: ResumeData, k: Key)
    requires !Computed(k)
    ensures Truthy(Operand(r, k)) ==> PlaceholderValue(r, k) == Operand(r, k)
    ensures !Truthy(Operand(r, k)) ==> PlaceholderValue(r, k) == Str(OrDefault(k))
    ensures Truthy(PlaceholderValue(r, k)) && JsText(PlaceholderValue(r, k)) != []
  {
    assert PlaceholderValue(r, k) == Or(Operand(r, k), OrDefault(k));
  }

  /**
   * SKILL_COUNT counts the entries of every skills array, primary included,
   * whenever the record has skills; otherwise it is the string '20'.
   */
  lemma SkillCountIsTotal(r: ResumeData)
    ensures r.skills.None? ==> PlaceholderValue(r, SKILL_COUNT) == Str("20")
    ensures r.skills.Some? ==> PlaceholderValue(r, SKILL_COUNT) == Int(Total(r.skills.value))
  {
    if r.skills.Some? {
      FlatCounts(r.skills.value);
    }
  }

  /**
   * The education default appears only when the array is absent; a present
   * empty array gives "".
   */
  lemma EducationDefaults(r: ResumeData)
    ensures r.education.None? ==> PlaceholderValue(r, EDUCATION_HISTORY) == Str(EducationDefault)
    ensures r.education == Some([]) ==> PlaceholderValue(r, EDUCATION_HISTORY) == Str("")
  {
    EducationInOrder([], [], Education("", "", "", ""));
  }

  /** Likewise for the work-experience default. */
  lemma ExperienceDefaults(r: ResumeData)
    ensures r.experience.None? ==> PlaceholderValue(r, WORK_EXPERIENCE) == Str(ExperienceDefault)
    ensures r.experience == Some([]) ==> PlaceholderValue(r, WORK_EXPERIENCE) == Str("")
  {
    ExperienceInOrder([], [], Experience("", "", "", "", ""));
  }

  /** Without projects the one sample card is shown; a present empty array gives "". */
  lemma ProjectDefaults(r: ResumeData)
    ensures r.projects.None? ==> PlaceholderValue(r, PROJECTS_LIST) == Str(ProjectCard(SampleProject))
    ensures r.projects == Some([]) ==> PlaceholderValue(r, PROJECTS_LIST) == Str("")
  {
    ProjectsInOrder([], [], SampleProject);
  }

  /** A present but empty skill category renders as "", not as the default skills. */
  lemma EmptyCategoryRendersNothing(r: ResumeData)
    requires SkillArray(r, "frameworks") == Some([])
    ensures PlaceholderValue(r, FRAMEWORKS) == Str("")
  {
    SkillItemsInOrder([], [], "");
  }

  predicate SecondaryTitle(k: Key)
  {
    k == SECONDARY_TITLE_1 || k == SECONDARY_TITLE_2 || k == SECONDARY_TITLE_3
  }

  /**
   * The secondary titles come from the first three typewriter titles; titles
   * after the third are ignored.
   */
  lemma ExtraTitlesIgnored(r: ResumeData, extra: seq<Value>, k: Key)
    requires r.typewriterTitles.Some? && |r.typewriterTitles.value| >= 3 && SecondaryTitle(k)
    ensures var r2 := r.(typewriterTitles := Some(r.typewriterTitles.value + extra));
      PlaceholderValue(r2, k) == PlaceholderValue(r, k)
  {
    var r2 := r.(typewriterTitles := Some(r.typewriterTitles.value + extra));
    assert Operand(r2, k) == Operand(r, k);
    TruthyOrDefault(r2, k);
    TruthyOrDefault(r, k);
  }

  /** Without typewriter titles the three defaults are used. */
  lemma TitleDefaults(r: ResumeData)
    requires r.typewriterTitles.None?
    ensures PlaceholderValue(r, SECONDARY_TITLE_1) == Str("Full Stack Developer")
    ensures PlaceholderValue(r, SECONDARY_TITLE_2) == Str("Problem Solver")
    ensures PlaceholderValue(r, SECONDARY_TITLE_3) == Str("Tech Enthusiast")
  {
  }

  // ---------------------------------------------------------------------
  // The placeholder object
  // ---------------------------------------------------------------------

  /** The keys of the placeholder object, in the order the constructor creates them. */
  const PlaceholderOrder: seq<Key> := [
    FULL_NAME, FIRST_NAME, EMAIL, PHONE, LOCATION, LINKEDIN_URL, GITHUB_URL, TWITTER_URL,
    RESUME_DOWNLOAD_LINK, JOB_TITLE, CURRENT_POSITION, PROFESSIONAL_SUMMARY, ABOUT_DESCRIPTION,
    CONTACT_MESSAGE, YEARS_EXPERIENCE, PROJECT_COUNT, SKILL_COUNT, EDUCATION_DEGREE,
    EDUCATION_HISTORY, PRIMARY_SKILLS, PROGRAMMING_LANGUAGES, FRAMEWORKS, DATABASES_TOOLS,
    CLOUD_DEVOPS, WORK_EXPERIENCE, PROJECTS_LIST, SECONDARY_TITLE_1, SECONDARY_TITLE_2,
    SECONDARY_TITLE_3]

  lemma KeyListed(k: Key)
    ensures k in PlaceholderOrder
  {
  }

  lemma AllKeysListed()
    ensures forall k: Key :: k in PlaceholderOrder
  {
    forall k: Key ensures k in PlaceholderOrder {
      KeyListed(k);
    }
  }

  /** The object has a value for every placeholder. */
  predicate Complete(p: map<Key, Value>)
  {
    forall k: Key :: k in p
  }

  /** The object the constructor builds: every placeholder mapped to ''. */
  function Blank(): (p: map<Key, Value>)
    ensures Complete(p)
  {
    AllKeysListed();
    map k | k in PlaceholderOrder :: Str("")
  }

  /** The object after populateTemplate has overwritten every key. */
  function Populated(r: ResumeData): (p: map<Key, Value>)
    ensures Complete(p)
  {
    AllKeysListed();
    map k | k in PlaceholderOrder :: PlaceholderValue(r, k)
  }

  /** Object.entries of a complete object as (name, String(value)) pairs, in key order. */
  function Entries(p: map<Key, Value>): (t: seq<(string, string)>)
    requires Complete(p)
    ensures |t| == |PlaceholderOrder|
  {
    seq(|PlaceholderOrder|, i requires 0 <= i < |PlaceholderOrder| =>
      (Name(PlaceholderOrder[i]), JsText(p[PlaceholderOrder[i]])))
  }

  /** The token a key is written as, both in templates and in the placeholder object. */
  function KeyToken(k: Key): string
  {
    Token(Name(k))
  }

  /** The keys of order that p holds, in that order: Object.keys of an object built in that order. */
  function PresentKeys(order: seq<Key>, p: map<Key, Value>): (keys: seq<Key>)
    ensures forall k :: k in keys <==> k in order && k in p
    ensures (forall k :: k in order ==> k in p) ==> keys == order
    decreases |order|
  {
    if order == [] then []
    else
      var rest := PresentKeys(order[1..], p);
      assert forall k :: k in order <==> k == order[0] || k in order[1..];
      assert order == [order[0]] + order[1..];
      (if order[0] in p then [order[0]] else []) + rest
  }

  /** The tokens of the present keys are those of the keys both listed and held. */
  lemma PresentTokens(order: seq<Key>, p: map<Key, Value>)
    ensures forall k | k in order && k in p :: KeyToken(k) in MapSeq(PresentKeys(order, p), KeyToken)
    ensures forall x | x in MapSeq(PresentKeys(order, p), KeyToken) :: exists k: Key :: k in p && x == KeyToken(k)
  {
    var keys := PresentKeys(order, p);
    var names := MapSeq(keys, KeyToken);
    forall k | k in order && k in p ensures KeyToken(k) in names {
      var i :| 0 <= i < |keys| && keys[i] == k;
      assert names[i] == KeyToken(k);
    }
    forall x | x in names ensures exists k: Key :: k in p && x == KeyToken(k) {
      var i :| 0 <= i < |names| && names[i] == x;
      assert keys[i] in p && x == KeyToken(keys[i]);
    }
  }

  /** Substituting into an empty template gives an empty text. */
  lemma {:induction false} SubstituteEmpty(table: seq<(string, string)>)
    ensures SubstituteTokens("", table) == ""
    decreases |table|
  {
    if table != [] {
      assert ReplaceAll("", Token(table[0].0), table[0].1) == "";
      SubstituteEmpty(table[1..]);
    }
  }

  /**
   * On a template made of literal text and brace-free tokens, populating with
   * brace-free values replaces each token by its placeholder's text and
   * leaves the literal text alone.
   */
  lemma PopulatedRender(t: seq<Piece>, r: ResumeData)
    requires Plain(t)
    requires forall k: Key :: BraceFree(JsText(PlaceholderValue(r, k)))
    ensures SubstituteTokens(Render(t), Entries(Populated(r))) == Render(FillAll(t, Entries(Populated(r))))
  {
    var table := Entries(Populated(r));
    forall i | 0 <= i < |table| ensures BraceFree(table[i].0) && BraceFree(table[i].1) {
      NameBraceFree(PlaceholderOrder[i]);
    }
    SubstituteRender(t, table);
  }

  /** What generatePortfolio returns. */
  datatype Portfolio = Portfolio(html: string, css: string, js: string, placeholders: map<Key, Value>)

  /** The required top-level members, each with whether the record's value is truthy. */
  function RequiredFields(r: ResumeData): seq<(string, bool)>
  {
    [("personalInfo", r.personalInfo.Some?), ("professionalInfo", r.professionalInfo.Some?)]
  }

  /** `requiredFields.filter(field => !resumeData[field])`. */
  function MissingFields(fields: seq<(string, bool)>): (missing: seq<string>)
    ensures |missing| <= |fields|
    ensures forall x :: x in missing <==> exists i | 0 <= i < |fields| :: fields[i] == (x, false)
    decreases |fields|
  {
    if fields == [] then []
    else
      var rest := MissingFields(fields[1..]);
      assert forall i | 0 <= i < |fields| - 1 :: fields[1..][i] == fields[i + 1];
      (if fields[0].1 then [] else [fields[0].0]) + rest
  }

  /** The filter keeps the falsy required members in their listed order. */
  lemma MissingRequired(r: ResumeData)
    ensures MissingFields(RequiredFields(r))
      == (if r.personalInfo.None? then ["personalInfo"] else [])
       + (if r.professionalInfo.None? then ["professionalInfo"] else [])
  {
    var fields := RequiredFields(r);
    assert fields[1..][1..] == [];
    assert MissingFields(fields[1..][1..]) == [];
  }

  /** The start of validateResumeData's error message. */
  const MissingPrefix := "Missing required fields: "

  /** validateResumeData: true, or the error naming the missing members. */
  function ValidateResumeData(r: ResumeData): (res: Result<bool>)
    ensures res.Success? <==> r.personalInfo.Some? && r.professionalInfo.Some?
    ensures res.Success? ==> res.value
  {
    var missing := MissingFields(RequiredFields(r));
    MissingRequired(r);
    if |missing| > 0 then Failure(MissingPrefix + JoinWith(missing, ", "))
    else Success(true)
  }

  /** The error names exactly the falsy required members, in the order they are listed. */
  lemma ValidateMessages(r: ResumeData)
    ensures r.personalInfo.None? && r.professionalInfo.None? ==>
      ValidateResumeData(r) == Failure(MissingPrefix + "personalInfo, professionalInfo")
    ensures r.personalInfo.None? && r.professionalInfo.Some? ==>
      ValidateResumeData(r) == Failure(MissingPrefix + "personalInfo")
    ensures r.personalInfo.Some? && r.professionalInfo.None? ==>
      ValidateResumeData(r) == Failure(MissingPrefix + "professionalInfo")
  {
    MissingRequired(r);
    assert JoinWith(["personalInfo", "professionalInfo"], ", ") == "personalInfo, professionalInfo";
  }

  class PortfolioTemplateGenerator {
    /** The placeholder object; its keys never change once built. */
    var placeholders: map<Key, Value>

    predicate Valid()
      reads this
    {
      Complete(placeholders)
    }

    constructor()
      ensures placeholders == Blank()
      ensures Valid()
    {
      placeholders := Blank();
    }

    /**
     * populateTemplate: overwrite all 29 placeholders from the record, then
     * replace every token of the template by its value, key by key.
     */
    method PopulateTemplate(templateContent: string, resumeData: ResumeData) returns (populatedContent: string)
      modifies this
      ensures placeholders == Populated(resumeData)
      ensures Valid()
      ensures old(Valid()) ==> GetAvailablePlaceholders() == old(GetAvailablePlaceholders())
      ensures populatedContent == SubstituteTokens(templateContent, Entries(Populated(resumeData)))
    {
      placeholders := Populated(resumeData);
      populatedContent := ReplaceEach(templateContent, Entries(placeholders));
    }

    /** generatePortfolio: populate an empty template and hand back the placeholder values. */
    method GeneratePortfolio(resumeData: ResumeData) returns (portfolio: Portfolio)
      modifies this
      ensures placeholders == Populated(resumeData)
      ensures portfolio == Portfolio("", "", "", Populated(resumeData))
    {
      var html := PopulateTemplate("", resumeData);
      SubstituteEmpty(Entries(Populated(resumeData)));
      portfolio := Portfolio(html, "", "", placeholders);
    }

    /**
     * getAvailablePlaceholders: the `{{KEY}}` names of the object; for a
     * complete object, all 29 in creation order.
     */
    function GetAvailablePlaceholders(): (names: seq<string>)
      reads this
      ensures forall k: Key :: k in placeholders ==> KeyToken(k) in names
      ensures forall x :: x in names ==> exists k: Key :: k in placeholders && x == KeyToken(k)
      ensures Valid() ==> names == MapSeq(PlaceholderOrder, KeyToken)
    {
      AllKeysListed();
      PresentTokens(PlaceholderOrder, placeholders);
      MapSeq(PresentKeys(PlaceholderOrder, placeholders), KeyToken)
    }
  }
}

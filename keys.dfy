/**
 * The 29 placeholder names every template of the system uses. Each is a
 * constructor here and its text is the name inside the `{{...}}` token.
 */
module Keys {
  import opened Replace

  datatype Key =
    | FULL_NAME | FIRST_NAME | EMAIL | PHONE |
    LOCATION | LINKEDIN_URL | GITHUB_URL | TWITTER_URL |
    RESUME_DOWNLOAD_LINK | JOB_TITLE | CURRENT_POSITION | PROFESSIONAL_SUMMARY |
    ABOUT_DESCRIPTION | CONTACT_MESSAGE | YEARS_EXPERIENCE | PROJECT_COUNT |
    SKILL_COUNT | EDUCATION_DEGREE | EDUCATION_HISTORY | PRIMARY_SKILLS |
    PROGRAMMING_LANGUAGES | FRAMEWORKS | DATABASES_TOOLS | CLOUD_DEVOPS |
    WORK_EXPERIENCE | PROJECTS_LIST | SECONDARY_TITLE_1 | SECONDARY_TITLE_2 |
    SECONDARY_TITLE_3

  /** The placeholder's name as written in templates and tables. */
  function Name(k: Key): string
  {
    match k
    case FULL_NAME => "FULL_NAME"
    case FIRST_NAME => "FIRST_NAME"
    case EMAIL => "EMAIL"
    case PHONE => "PHONE"
    case LOCATION => "LOCATION"
    case LINKEDIN_URL => "LINKEDIN_URL"
    case GITHUB_URL => "GITHUB_URL"
    case TWITTER_URL => "TWITTER_URL"
    case RESUME_DOWNLOAD_LINK => "RESUME_DOWNLOAD_LINK"
    case JOB_TITLE => "JOB_TITLE"
    case CURRENT_POSITION => "CURRENT_POSITION"
    case PROFESSIONAL_SUMMARY => "PROFESSIONAL_SUMMARY"
    case ABOUT_DESCRIPTION => "ABOUT_DESCRIPTION"
    case CONTACT_MESSAGE => "CONTACT_MESSAGE"
    case YEARS_EXPERIENCE => "YEARS_EXPERIENCE"
    case PROJECT_COUNT => "PROJECT_COUNT"
    case SKILL_COUNT => "SKILL_COUNT"
    case EDUCATION_DEGREE => "EDUCATION_DEGREE"
    case EDUCATION_HISTORY => "EDUCATION_HISTORY"
    case PRIMARY_SKILLS => "PRIMARY_SKILLS"
    case PROGRAMMING_LANGUAGES => "PROGRAMMING_LANGUAGES"
    case FRAMEWORKS => "FRAMEWORKS"
    case DATABASES_TOOLS => "DATABASES_TOOLS"
    case CLOUD_DEVOPS => "CLOUD_DEVOPS"
    case WORK_EXPERIENCE => "WORK_EXPERIENCE"
    case PROJECTS_LIST => "PROJECTS_LIST"
    case SECONDARY_TITLE_1 => "SECONDARY_TITLE_1"
    case SECONDARY_TITLE_2 => "SECONDARY_TITLE_2"
    case SECONDARY_TITLE_3 => "SECONDARY_TITLE_3"
  }

  /** No placeholder name contains a brace, so tokens of different names never overlap. */
  lemma NameBraceFree(k: Key)
    ensures BraceFree(Name(k))
  {
    if k == FULL_NAME || k == FIRST_NAME || k == EMAIL || k == PHONE
      || k == LOCATION || k == LINKEDIN_URL || k == GITHUB_URL
      || k == TWITTER_URL || k == RESUME_DOWNLOAD_LINK {
      BasicNamesBraceFree(k);
    } else if k == JOB_TITLE || k == CURRENT_POSITION || k == PROFESSIONAL_SUMMARY
      || k == ABOUT_DESCRIPTION || k == CONTACT_MESSAGE {
      ProfessionalNamesBraceFree(k);
    } else if k == YEARS_EXPERIENCE || k == PROJECT_COUNT || k == SKILL_COUNT
      || k == EDUCATION_DEGREE || k == EDUCATION_HISTORY {
      StatisticsNamesBraceFree(k);
    } else if k == PRIMARY_SKILLS || k == PROGRAMMING_LANGUAGES || k == FRAMEWORKS
      || k == DATABASES_TOOLS || k == CLOUD_DEVOPS {
      SkillNamesBraceFree(k);
    } else {
      WorkNamesBraceFree(k);
    }
  }

  /** The personal information and link placeholders. */
  lemma BasicNamesBraceFree(k: Key)
    requires k == FULL_NAME || k == FIRST_NAME || k == EMAIL || k == PHONE
      || k == LOCATION || k == LINKEDIN_URL || k == GITHUB_URL
      || k == TWITTER_URL || k == RESUME_DOWNLOAD_LINK
    ensures BraceFree(Name(k))
  {
    if k == FULL_NAME {
      LiteralBraceFree("FULL_NAME");
    } else if k == FIRST_NAME {
      LiteralBraceFree("FIRST_NAME");
    } else if k == EMAIL {
      LiteralBraceFree("EMAIL");
    } else if k == PHONE {
      LiteralBraceFree("PHONE");
    } else if k == LOCATION {
      LiteralBraceFree("LOCATION");
    } else if k == LINKEDIN_URL {
      LiteralBraceFree("LINKEDIN_URL");
    } else if k == GITHUB_URL {
      LiteralBraceFree("GITHUB_URL");
    } else if k == TWITTER_URL {
      LiteralBraceFree("TWITTER_URL");
    } else {
      LiteralBraceFree("RESUME_DOWNLOAD_LINK");
    }
  }

  /** The professional and about placeholders. */
  lemma ProfessionalNamesBraceFree(k: Key)
    requires k == JOB_TITLE || k == CURRENT_POSITION || k == PROFESSIONAL_SUMMARY
      || k == ABOUT_DESCRIPTION || k == CONTACT_MESSAGE
    ensures BraceFree(Name(k))
  {
    if k == JOB_TITLE {
      LiteralBraceFree("JOB_TITLE");
    } else if k == CURRENT_POSITION {
      LiteralBraceFree("CURRENT_POSITION");
    } else if k == PROFESSIONAL_SUMMARY {
      LiteralBraceFree("PROFESSIONAL_SUMMARY");
    } else if k == ABOUT_DESCRIPTION {
      LiteralBraceFree("ABOUT_DESCRIPTION");
    } else {
      LiteralBraceFree("CONTACT_MESSAGE");
    }
  }

  /** The statistics and education placeholders. */
  lemma StatisticsNamesBraceFree(k: Key)
    requires k == YEARS_EXPERIENCE || k == PROJECT_COUNT || k == SKILL_COUNT
      || k == EDUCATION_DEGREE || k == EDUCATION_HISTORY
    ensures BraceFree(Name(k))
  {
    if k == YEARS_EXPERIENCE {
      LiteralBraceFree("YEARS_EXPERIENCE");
    } else if k == PROJECT_COUNT {
      LiteralBraceFree("PROJECT_COUNT");
    } else if k == SKILL_COUNT {
      LiteralBraceFree("SKILL_COUNT");
    } else if k == EDUCATION_DEGREE {
      LiteralBraceFree("EDUCATION_DEGREE");
    } else {
      LiteralBraceFree("EDUCATION_HISTORY");
    }
  }

  /** The skill placeholders. */
  lemma SkillNamesBraceFree(k: Key)
    requires k == PRIMARY_SKILLS || k == PROGRAMMING_LANGUAGES || k == FRAMEWORKS
      || k == DATABASES_TOOLS || k == CLOUD_DEVOPS
    ensures BraceFree(Name(k))
  {
    if k == PRIMARY_SKILLS {
      LiteralBraceFree("PRIMARY_SKILLS");
    } else if k == PROGRAMMING_LANGUAGES {
      LiteralBraceFree("PROGRAMMING_LANGUAGES");
    } else if k == FRAMEWORKS {
      LiteralBraceFree("FRAMEWORKS");
    } else if k == DATABASES_TOOLS {
      LiteralBraceFree("DATABASES_TOOLS");
    } else {
      LiteralBraceFree("CLOUD_DEVOPS");
    }
  }

  /** The experience, project and title placeholders. */
  lemma WorkNamesBraceFree(k: Key)
    requires k == WORK_EXPERIENCE || k == PROJECTS_LIST || k == SECONDARY_TITLE_1
      || k == SECONDARY_TITLE_2 || k == SECONDARY_TITLE_3
    ensures BraceFree(Name(k))
  {
    if k == WORK_EXPERIENCE {
      LiteralBraceFree("WORK_EXPERIENCE");
    } else if k == PROJECTS_LIST {
      LiteralBraceFree("PROJECTS_LIST");
    } else if k == SECONDARY_TITLE_1 {
      LiteralBraceFree("SECONDARY_TITLE_1");
    } else if k == SECONDARY_TITLE_2 {
      LiteralBraceFree("SECONDARY_TITLE_2");
    } else {
      LiteralBraceFree("SECONDARY_TITLE_3");
    }
  }

  lemma LiteralBraceFree(s: string)
    requires forall i | 0 <= i < |s| :: s[i] != '{' && s[i] != '}'
    ensures BraceFree(s)
  {
  }

  /** Renders a key-value table into the text table the replacement loop consumes. */
  function NamedTable(entries: seq<(Key, string)>): (t: seq<(string, string)>)
    ensures |t| == |entries|
    ensures forall i | 0 <= i < |entries| :: t[i] == (Name(entries[i].0), entries[i].1)
  {
    seq(|entries|, i requires 0 <= i < |entries| => (Name(entries[i].0), entries[i].1))
  }
}

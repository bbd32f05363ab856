/**
 * The server-side generator: picking a name out of the resume text,
 * normalising the AI's JSON answer into the 29-entry placeholder table (or
 * the fallback table), substituting that table into the template files,
 * injecting the stylesheet into the preview and naming the archive.
 */
module Generator {
  import opened Text
  import opened Values
  import opened Replace
  import opened Keys

  // ---------------------------------------------------------------------
  // extract_basic_resume_data: the name scan
  // ---------------------------------------------------------------------

  /** A line mentioning any of these (after lower-casing) is never a name. */
  const NameStopWords: seq<string> := ["resume", "cv", "email", "phone", "@"]

  /** str.isalpha(): non-empty and letters only. */
  predicate IsAlphaWord(w: string)
  {
    w != [] && forall i | 0 <= i < |w| :: IsAlpha(w[i])
  }

  /** Every purely alphabetic word starts with a capital; other words are not checked. */
  predicate Capitalised(words: seq<string>)
  {
    forall i | 0 <= i < |words| :: IsAlphaWord(words[i]) ==> IsUpper(words[i][0])
  }

  /** The test a stripped line has to pass to be taken as the person's name. */
  predicate LooksLikeName(line: string)
  {
    line != [] && !AnyIn(Lower(line), NameStopWords)
    && 2 <= |Words(line)| <= 4 && Capitalised(Words(line))
  }

  /** The first five newline-separated lines of the text (fewer when it has fewer). */
  function HeadLines(text: string): (lines: seq<string>)
    ensures 1 <= |lines| <= 5 && |lines| <= |SplitOn(text, '\n')|
    ensures lines == SplitOn(text, '\n')[..|lines|]
    ensures |lines| < 5 ==> lines == SplitOn(text, '\n')
  {
    var all := SplitOn(text, '\n');
    if |all| <= 5 then all else all[..5]
  }

  /** A line of the resume that, stripped, is taken as the name. */
  predicate NameLine(line: string)
  {
    LooksLikeName(Strip(line))
  }

  /** The position of the first line the test accepts; None when it accepts none. */
  function FirstAccepted(lines: seq<string>, accept: string -> bool): (r: Option<nat>)
    ensures r.None? <==> forall j | 0 <= j < |lines| :: !accept(lines[j])
    ensures r.Some? ==> (r.value < |lines| && accept(lines[r.value])
      && forall j | 0 <= j < r.value :: !accept(lines[j]))
    decreases |lines|
  {
    if lines == [] then None
    else if accept(lines[0]) then Some(0)
    else
      var r := FirstAccepted(lines[1..], accept);
      assert forall j | 1 <= j < |lines| :: lines[j] == lines[1..][j - 1];
      if r.None? then None else Some(r.value + 1)
  }

  /** The stripped first line that looks like a name; None when there is none. */
  function NameAmong(lines: seq<string>): Option<string>
  {
    if lines == [] then None
    else if NameLine(lines[0]) then Some(Strip(lines[0]))
    else NameAmong(lines[1..])
  }

  /** The scan loop over the first five lines, stopping at the first acceptable line. */
  method ScanName(text: string) returns (name: Option<string>)
    ensures name == NameAmong(HeadLines(text))
  {
    var lines := HeadLines(text);
    name := None;
    for i := 0 to |lines|
      invariant name == None
      invariant NameAmong(lines[i..]) == NameAmong(lines)
    {
      NameAmongStep(lines, i);
      var line := Strip(lines[i]);
      var accepted := IsNameCandidate(line);
      if accepted {
        name := Some(line);
        break;
      }
    }
  }

  /** The scan from line i either takes line i or goes on from the next line. */
  lemma NameAmongStep(lines: seq<string>, i: nat)
    requires i < |lines|
    ensures NameAmong(lines[i..])
      == if NameLine(lines[i]) then Some(Strip(lines[i])) else NameAmong(lines[i + 1..])
  {
    assert lines[i..][0] == lines[i] && lines[i..][1..] == lines[i + 1..];
  }

  /** The test of one stripped line: no stop word first, then the word count and capitals. */
  method IsNameCandidate(line: string) returns (accepted: bool)
    ensures accepted <==> LooksLikeName(line)
  {
    accepted := false;
    if line != [] && !AnyIn(Lower(line), NameStopWords) {
      var words := Words(line);
      if 2 <= |words| <= 4 && Capitalised(words) {
        accepted := true;
      }
    }
  }

  /**
   * The name found is the stripped form of the first line that passes the
   * test, and there is none exactly when no line passes it.
   */
  lemma {:induction false} NameAmongFirst(lines: seq<string>)
    ensures NameAmong(lines) == match FirstAccepted(lines, NameLine)
      case None => None
      case Some(i) => Some(Strip(lines[i]))
    decreases |lines|
  {
    if lines != [] && !NameLine(lines[0]) {
      NameAmongFirst(lines[1..]);
      var r := FirstAccepted(lines[1..], NameLine);
      if r.Some? {
        assert lines[1..][r.value] == lines[r.value + 1];
      }
    }
  }

  /** A found name is a single line: it never holds a line break. */
  lemma NameHasNoNewline(text: string)
    requires NameAmong(HeadLines(text)).Some?
    ensures '\n' !in NameAmong(HeadLines(text)).value
  {
    var lines := HeadLines(text);
    NameAmongFirst(lines);
    var i := FirstAccepted(lines, NameLine).value;
    assert lines[i] == SplitOn(text, '\n')[i];
    StripKeepsOut(lines[i], '\n');
  }

  /** Stripping adds no character: what the line lacks, its stripped form lacks too. */
  lemma StripKeepsOut(line: string, c: char)
    requires c !in line
    ensures c !in Strip(line)
  {
    StripInside(line);
    var d := |line| - |StripLeft(line)|;
    assert forall k | 0 <= k < |Strip(line)| :: Strip(line)[k] == line[d + k];
  }

  /** The extraction result; the e-mail and phone matches are found by regular expressions outside the model. */
  datatype Extraction = Extraction(
    rawText: string, email: Option<string>, phone: Option<string>,
    name: Option<string>, textLength: nat)

  /** extract_basic_resume_data on the success path. */
  method ExtractBasicResumeData(text: string, email: Option<string>, phone: Option<string>)
    returns (e: Extraction)
    ensures e.rawText == text && e.textLength == |text|
    ensures e.email == email && e.phone == phone
    ensures e.name == NameAmong(HeadLines(text))
  {
    var name := ScanName(text);
    e := Extraction(text, email, phone, name, |text|);
  }

  function OptionValue(o: Option<string>): Value
  {
    if o.Some? then Str(o.value) else Null
  }

  /** The extraction as the dictionary the later steps read. */
  function ExtractedDict(e: Extraction): (d: map<string, Value>)
    ensures "extracted_name" in d && d["extracted_name"] == OptionValue(e.name)
  {
    map["raw_text" := Str(e.rawText), "extracted_email" := OptionValue(e.email),
        "extracted_phone" := OptionValue(e.phone), "extracted_name" := OptionValue(e.name),
        "text_length" := Int(e.textLength)]
  }

  // ---------------------------------------------------------------------
  // The placeholder table as an ordered dictionary
  // ---------------------------------------------------------------------

  /** A Python dict from placeholder names to values, in insertion order. */
  type Data = seq<(Key, Value)>

  /** dict.get(k, default). */
  function Get(m: map<string, Value>, k: string, default: Value): Value
  {
    if k in m then m[k] else default
  }

  /** data[k]; None stands for the KeyError. */
  function Lookup(d: Data, k: Key): Option<Value>
  {
    if d == [] then None
    else if d[0].0 == k then Some(d[0].1)
    else Lookup(d[1..], k)
  }

  /** data[k] = v for a key already present: the entry keeps its place. */
  function Assign(d: Data, k: Key, v: Value): (r: Data)
    ensures |r| == |d|
    ensures forall i | 0 <= i < |d| :: r[i].0 == d[i].0
    ensures forall i | 0 <= i < |d| && d[i].0 != k :: r[i] == d[i]
    ensures Lookup(r, k) == if Lookup(d, k).Some? then Some(v) else None
  {
    if d == [] then []
    else if d[0].0 == k then [(k, v)] + d[1..]
    else [d[0]] + Assign(d[1..], k, v)
  }

  /** Writing back the value already stored changes nothing. */
  lemma {:induction false} AssignSame(d: Data, k: Key, v: Value)
    requires Lookup(d, k) == Some(v)
    ensures Assign(d, k, v) == d
  {
    if d[0].0 != k {
      AssignSame(d[1..], k, v);
    }
  }

  /** Lookups of a key outside the changed ones see the same value. */
  lemma {:induction false} LookupFrame(d: Data, r: Data, changed: seq<Key>, k: Key)
    requires |r| == |d| && k !in changed
    requires forall i | 0 <= i < |d| :: r[i].0 == d[i].0
    requires forall i | 0 <= i < |d| && d[i].0 !in changed :: r[i] == d[i]
    ensures Lookup(r, k) == Lookup(d, k)
  {
    if d != [] && d[0].0 != k {
      LookupFrame(d[1..], r[1..], changed, k);
    }
  }

  /** Converts the table for the text substitution: names and str() of the values. */
  function TextTable(d: Data): (t: seq<(string, string)>)
    ensures |t| == |d|
    ensures forall i | 0 <= i < |d| :: t[i] == (Name(d[i].0), ToStr(d[i].1))
  {
    NamedTable(seq(|d|, i requires 0 <= i < |d| => (d[i].0, ToStr(d[i].1))))
  }

  // ---------------------------------------------------------------------
  // validate_and_clean_ai_data
  // ---------------------------------------------------------------------

  /** The keys of the validated and of the fallback table, in dictionary order. */
  const CleanOrder: seq<Key> := [
    FULL_NAME, FIRST_NAME, EMAIL, PHONE, LOCATION, JOB_TITLE, CURRENT_POSITION,
    PROFESSIONAL_SUMMARY, ABOUT_DESCRIPTION, LINKEDIN_URL, GITHUB_URL, TWITTER_URL,
    RESUME_DOWNLOAD_LINK, YEARS_EXPERIENCE, PROJECT_COUNT, SKILL_COUNT, EDUCATION_DEGREE,
    EDUCATION_HISTORY, PRIMARY_SKILLS, PROGRAMMING_LANGUAGES, FRAMEWORKS, DATABASES_TOOLS,
    CLOUD_DEVOPS, CONTACT_MESSAGE, WORK_EXPERIENCE, PROJECTS_LIST, SECONDARY_TITLE_1,
    SECONDARY_TITLE_2, SECONDARY_TITLE_3]

  /** The fields whose value passes through str(). */
  predicate IsCount(k: Key)
  {
    k == YEARS_EXPERIENCE || k == PROJECT_COUNT || k == SKILL_COUNT
  }

  /** The social links that get an https:// prefix, in loop order. */
  const UrlKeys: seq<Key> := [LINKEDIN_URL, GITHUB_URL, TWITTER_URL]

  const EducationFallback := "<div class=\"education-item\">"
    + "<h4>Bachelor's Degree</h4>"
    + "<p>University Name - 2020</p>"
    + "</div>"
  const LanguagesFallback := "<ul><li>Python - Intermediate"
    + "</li><li>JavaScript - "
    + "Intermediate</li></ul>"
  const FrameworksFallback := "<ul><li>React - Beginner</li>"
    + "<li>Node.js - Beginner</li></ul>"
  const DatabasesFallback := "<ul><li>MySQL - Beginner</li>"
    + "<li>Git - Intermediate</li></ul>"
  const CloudFallback := "<ul><li>AWS - Beginner</li>"
    + "<li>Docker - Beginner</li></ul>"
  const ContactFallback := "I am open to exciting new "
    + "opportunities. Let's connect!"
  const SummaryFallback := "Passionate professional with "
    + "expertise in technology and "
    + "innovation."
  const LinkedInFallback := "https://linkedin.com/in/yourprofile"
  const GitHubFallback := "https://github.com/yourusername"
  const TwitterFallback := "https://twitter.com/yourusername"

  /** The default links already pass the URL check. */
  lemma FallbackLinksClean()
    ensures UrlClean(Str(LinkedInFallback)) && UrlClean(Str(GitHubFallback)) && UrlClean(Str(TwitterFallback))
  {
    assert LinkedInFallback[..4] == "http";
    assert GitHubFallback[..4] == "http";
    assert TwitterFallback[..4] == "http";
  }

  /**
   * The default of FIRST_NAME, which Python evaluates even when the AI gives
   * a FIRST_NAME: the first word of the AI's FULL_NAME, or of "Professional".
   * A blank name has no first word and a non-string has no split().
   */
  function FirstNameDefault(ai: map<string, Value>): (r: Result<string>)
    ensures r.Success? ==> r.value != [] && NoSpace(r.value)
  {
    match Get(ai, "FULL_NAME", Str("Professional"))
    case Str(s) =>
      var ws := Words(s);
      if ws == [] then Failure("IndexError: list index out of range")
      else Success(ws[0])
    case _ => Failure("AttributeError: object has no "
      + "attribute 'split'")
  }

  /** The default fails exactly when FULL_NAME (or "Professional") is not a string or is blank. */
  lemma FirstNameDefaultSucceeds(ai: map<string, Value>)
    ensures var n := Get(ai, "FULL_NAME", Str("Professional"));
      FirstNameDefault(ai).Success? <==> n.Str? && !AllSpace(n.s)
  {
  }

  /**
   * A successful default is the first word of FULL_NAME (or of "Professional"):
   * the whitespace-free run that starts the stripped name and ends at
   * whitespace or at its end, which by FirstWordUnique is only one word.
   */
  lemma FirstNameDefaultWord(ai: map<string, Value>)
    requires FirstNameDefault(ai).Success?
    ensures var n := Get(ai, "FULL_NAME", Str("Professional"));
      var w := FirstNameDefault(ai).value;
      n.Str? && w != [] && NoSpace(w) && StartsWith(StripLeft(n.s), w)
      && (|w| == |StripLeft(n.s)| || IsSpace(StripLeft(n.s)[|w|]))
  {
    FirstWord(Get(ai, "FULL_NAME", Str("Professional")).s);
  }

  /** The default each field's get() falls back on when the AI answer lacks the key. */
  function CleanDefault(k: Key, ai: map<string, Value>, ex: map<string, Value>, firstName: string): Value
  {
    match k
    case FULL_NAME => Get(ex, "extracted_name", Str("Professional Developer"))
    case FIRST_NAME => Str(firstName)
    case EMAIL => Get(ex, "extracted_email", Str("contact@example.com"))
    case PHONE => Get(ex, "extracted_phone", Str("+1 (555) 123-4567"))
    case LOCATION => Str("Available Worldwide")
    case JOB_TITLE => Str("Software Developer")
    case CURRENT_POSITION => Get(ai, "JOB_TITLE", Str("Software Developer"))
    case PROFESSIONAL_SUMMARY => Str(SummaryFallback)
    case ABOUT_DESCRIPTION =>
      Get(ai, "PROFESSIONAL_SUMMARY", Str("Dedicated to delivering "
        + "high-quality solutions."))
    case LINKEDIN_URL => Str(LinkedInFallback)
    case GITHUB_URL => Str(GitHubFallback)
    case TWITTER_URL => Str(TwitterFallback)
    case RESUME_DOWNLOAD_LINK => Str("#")
    case YEARS_EXPERIENCE => Str("2")
    case PROJECT_COUNT => Str("5")
    case SKILL_COUNT => Str("8")
    case EDUCATION_DEGREE => Str("Bachelor's Degree")
    case EDUCATION_HISTORY => Str(EducationFallback)
    case PRIMARY_SKILLS => Str("Problem Solving, Communication, "
      + "Teamwork")
    case PROGRAMMING_LANGUAGES => Str(LanguagesFallback)
    case FRAMEWORKS => Str(FrameworksFallback)
    case DATABASES_TOOLS => Str(DatabasesFallback)
    case CLOUD_DEVOPS => Str(CloudFallback)
    case CONTACT_MESSAGE => Str(ContactFallback)
    case WORK_EXPERIENCE =>
      Str("<div class=\"experience-item\">"
        + "<h4>Professional Experience</h4>"
        + "<p>Contributed to various "
        + "projects and initiatives.</p>"
        + "</div>")
    case PROJECTS_LIST =>
      Str("<div class=\"project-item\">"
        + "<h4>Portfolio Project</h4><p>A "
        + "showcase of technical skills "
        + "and creativity.</p></div>")
    case SECONDARY_TITLE_1 => Str("Problem Solver")
    case SECONDARY_TITLE_2 => Str("Creative Thinker")
    case SECONDARY_TITLE_3 => Str("Team Player")
  }

  /** ai_data.get(key, default) for key k; the three counts go through str(). */
  function CleanField(k: Key, ai: map<string, Value>, ex: map<string, Value>, firstName: string): Value
  {
    var v := Get(ai, Name(k), CleanDefault(k, ai, ex, firstName));
    if IsCount(k) then Str(ToStr(v)) else v
  }

  /** A dictionary written as a literal over the given keys, the value of each key given by f. */
  function Table(order: seq<Key>, f: Key -> Value): Data
  {
    seq(|order|, i requires 0 <= i < |order| => (order[i], f(order[i])))
  }

  /** The literal lists the keys in the given order, each with its value. */
  lemma TableAt(order: seq<Key>, f: Key -> Value)
    ensures |Table(order, f)| == |order|
    ensures forall i | 0 <= i < |order| :: Table(order, f)[i] == (order[i], f(order[i]))
  {
  }

  /** Looking up a listed key in such a literal finds that key's value. */
  lemma {:induction false} LookupTable(order: seq<Key>, f: Key -> Value, k: Key)
    requires k in order
    ensures Lookup(Table(order, f), k) == Some(f(k))
    decreases |order|
  {
    if order[0] != k {
      TableAt(order, f);
      TableAt(order[1..], f);
      assert Table(order, f)[1..] == Table(order[1..], f);
      LookupTable(order[1..], f, k);
    }
  }

  /** Both tables list every placeholder. */
  lemma CleanOrderComplete(k: Key)
    ensures k in CleanOrder
  {
  }

  /** The dictionary literal before the URL loop. */
  function Cleaned(ai: map<string, Value>, ex: map<string, Value>, firstName: string): Data
  {
    Table(CleanOrder, k => CleanField(k, ai, ex, firstName))
  }

  /** A link passed the URL check: empty, or starting with "http". */
  predicate UrlClean(v: Value)
  {
    !Truthy(v) || (v.Str? && StartsWith(v.s, "http"))
  }

  /**
   * One step of the URL loop: a non-empty string not starting with "http"
   * gets "https://" in front; a falsy value is kept; any other truthy value
   * has no startswith() and raises.
   */
  function NormaliseUrl(v: Value): (r: Result<Value>)
    ensures r.Success? ==> UrlClean(r.value)
    ensures r.Success? <==> UrlClean(v) || v.Str?
    ensures UrlClean(v) ==> r == Success(v)
  {
    if !Truthy(v) then Success(v)
    else match v
      case Str(s) =>
        if StartsWith(s, "http") then Success(v)
        else
          assert ("https://" + s)[..4] == "http";
          Success(Str("https://" + s))
      case _ => Failure("AttributeError: object has no "
        + "attribute 'startswith'")
  }

  /** A non-empty link without the http prefix gets "https://" in front of it. */
  lemma NormaliseBareUrl(s: string)
    requires s != [] && !StartsWith(s, "http")
    ensures NormaliseUrl(Str(s)) == Success(Str("https://" + s))
  {
  }

  /** Normalising twice is normalising once. */
  lemma NormaliseUrlIdempotent(v: Value)
    requires NormaliseUrl(v).Success?
    ensures NormaliseUrl(NormaliseUrl(v).value) == NormaliseUrl(v)
  {
  }

  /** The URL loop over the given keys, stopping at the first exception. */
  function NormalisedUrls(d: Data, keys: seq<Key>): Result<Data>
    decreases |keys|
  {
    if keys == [] then Success(d)
    else match Lookup(d, keys[0])
      case None => Failure("KeyError")
      case Some(url) =>
        match NormaliseUrl(url)
        case Failure(e) => Failure(e)
        case Success(v) => NormalisedUrls(Assign(d, keys[0], v), keys[1..])
  }

  /**
   * The URL loop keeps every key in its place, leaves every field outside
   * the loop's keys untouched, and leaves each looped key with a clean link.
   */
  lemma {:induction false} NormalisedUrlsShape(d: Data, keys: seq<Key>)
    requires NormalisedUrls(d, keys).Success?
    ensures var r := NormalisedUrls(d, keys).value;
      |r| == |d| && (forall i | 0 <= i < |d| :: r[i].0 == d[i].0)
      && (forall i | 0 <= i < |d| && d[i].0 !in keys :: r[i] == d[i])
      && forall k | k in keys :: Lookup(r, k).Some? && UrlClean(Lookup(r, k).value)
    decreases |keys|
  {
    if keys != [] {
      var k0 := keys[0];
      var v := NormaliseUrl(Lookup(d, k0).value).value;
      var d1 := Assign(d, k0, v);
      NormalisedUrlsShape(d1, keys[1..]);
      var r := NormalisedUrls(d, keys).value;
      assert r == NormalisedUrls(d1, keys[1..]).value;
      forall i | 0 <= i < |d| && d[i].0 !in keys ensures r[i] == d[i] {
        assert d1[i] == d[i];
      }
      if k0 !in keys[1..] {
        LookupFrame(d1, r, keys[1..], k0);
      }
      forall k | k in keys ensures Lookup(r, k).Some? && UrlClean(Lookup(r, k).value) {
        if k != k0 { assert k in keys[1..]; }
      }
    }
  }

  /**
   * Each looped link ends up as NormaliseUrl of the value it held before the
   * loop: a bare link gets "https://" in front, a clean one is kept.
   */
  lemma {:induction false} NormalisedUrlsValues(d: Data, keys: seq<Key>)
    requires NormalisedUrls(d, keys).Success?
    ensures forall k | k in keys :: (Lookup(d, k).Some? && NormaliseUrl(Lookup(d, k).value).Success?
      && Lookup(NormalisedUrls(d, keys).value, k) == Some(NormaliseUrl(Lookup(d, k).value).value))
    decreases |keys|
  {
    if keys != [] {
      var k0 := keys[0];
      var u := Lookup(d, k0).value;
      var v := NormaliseUrl(u).value;
      var d1 := Assign(d, k0, v);
      var r := NormalisedUrls(d, keys).value;
      assert r == NormalisedUrls(d1, keys[1..]).value;
      NormalisedUrlsValues(d1, keys[1..]);
      if k0 in keys[1..] {
        assert Lookup(d1, k0) == Some(v);
        assert NormaliseUrl(v) == Success(v);
      } else {
        NormalisedUrlsShape(d1, keys[1..]);
        LookupFrame(d1, r, keys[1..], k0);
      }
      assert Lookup(r, k0) == Some(NormaliseUrl(u).value);
      forall k | k in keys && k != k0
        ensures Lookup(d, k).Some? && NormaliseUrl(Lookup(d, k).value).Success?
        ensures Lookup(r, k) == Some(NormaliseUrl(Lookup(d, k).value).value)
      {
        assert k in keys[1..];
        LookupFrame(d, d1, [k0], k);
      }
    }
  }

  /**
   * The URL loop as a whole: keys stay in place, other fields are untouched,
   * and each looped link becomes NormaliseUrl of its value before the loop.
   */
  lemma NormalisedUrlsFrame(d: Data, keys: seq<Key>)
    requires NormalisedUrls(d, keys).Success?
    ensures var r := NormalisedUrls(d, keys).value;
      |r| == |d| && (forall i | 0 <= i < |d| :: r[i].0 == d[i].0)
      && (forall i | 0 <= i < |d| && d[i].0 !in keys :: r[i] == d[i])
      && forall k | k in keys :: (Lookup(d, k).Some? && NormaliseUrl(Lookup(d, k).value).Success?
        && Lookup(r, k) == Some(NormaliseUrl(Lookup(d, k).value).value))
  {
    NormalisedUrlsShape(d, keys);
    NormalisedUrlsValues(d, keys);
  }

  /** Running the URL loop again over its own output changes nothing. */
  lemma {:induction false} NormalisedUrlsIdempotent(d: Data, keys: seq<Key>)
    requires forall k | k in keys :: Lookup(d, k).Some? && UrlClean(Lookup(d, k).value)
    ensures NormalisedUrls(d, keys) == Success(d)
    decreases |keys|
  {
    if keys != [] {
      AssignSame(d, keys[0], Lookup(d, keys[0]).value);
      NormalisedUrlsIdempotent(d, keys[1..]);
    }
  }

  /** validate_and_clean_ai_data: any exception on the way yields the fallback data. */
  function Validated(ai: map<string, Value>, ex: map<string, Value>): Result<Data>
  {
    match FirstNameDefault(ai)
    case Failure(_) => CreateFallbackData(ex)
    case Success(firstName) =>
      match NormalisedUrls(Cleaned(ai, ex, firstName), UrlKeys)
      case Failure(_) => CreateFallbackData(ex)
      case Success(d) => Success(d)
  }

  /** The dictionary is built first and the URL loop then rewrites it in place. */
  method ValidateAndCleanAiData(ai: map<string, Value>, ex: map<string, Value>) returns (data: Result<Data>)
    ensures data == Validated(ai, ex)
  {
    var firstName := FirstNameDefault(ai);
    if firstName.Failure? {
      data := CreateFallbackData(ex);
      return;
    }
    var d := Cleaned(ai, ex, firstName.value);
    ghost var d0 := d;
    for j := 0 to |UrlKeys|
      invariant NormalisedUrls(d, UrlKeys[j..]) == NormalisedUrls(d0, UrlKeys)
    {
      assert UrlKeys[j..][0] == UrlKeys[j] && UrlKeys[j..][1..] == UrlKeys[j + 1..];
      var url := Lookup(d, UrlKeys[j]);
      if url.None? {
        data := CreateFallbackData(ex);
        return;
      }
      var v := NormaliseUrl(url.value);
      if v.Failure? {
        data := CreateFallbackData(ex);
        return;
      }
      d := Assign(d, UrlKeys[j], v.value);
    }
    data := Success(d);
  }

  /** Whether the AI answer gets through both the FIRST_NAME default and the URL loop. */
  predicate AiPathTaken(ai: map<string, Value>, ex: map<string, Value>)
  {
    FirstNameDefault(ai).Success?
    && NormalisedUrls(Cleaned(ai, ex, FirstNameDefault(ai).value), UrlKeys).Success?
  }

  /** On the AI path the result is the URL loop's output over the dictionary literal. */
  lemma AiPath(ai: map<string, Value>, ex: map<string, Value>)
    requires AiPathTaken(ai, ex)
    ensures Validated(ai, ex) == NormalisedUrls(Cleaned(ai, ex, FirstNameDefault(ai).value), UrlKeys)
  {
  }

  /** Off the AI path the result is the fallback data. */
  lemma FallbackPath(ai: map<string, Value>, ex: map<string, Value>)
    requires !AiPathTaken(ai, ex)
    ensures Validated(ai, ex) == CreateFallbackData(ex)
  {
  }

  /** The URL loop over the dictionary literal keeps its 29 keys in order and cleans the links. */
  lemma CleanedShape(ai: map<string, Value>, ex: map<string, Value>, firstName: string)
    requires NormalisedUrls(Cleaned(ai, ex, firstName), UrlKeys).Success?
    ensures var d := NormalisedUrls(Cleaned(ai, ex, firstName), UrlKeys).value;
      |d| == |CleanOrder| && (forall i | 0 <= i < |d| :: d[i].0 == CleanOrder[i])
      && forall k | k in UrlKeys :: Lookup(d, k).Some? && UrlClean(Lookup(d, k).value)
  {
    TableAt(CleanOrder, k => CleanField(k, ai, ex, firstName));
    NormalisedUrlsShape(Cleaned(ai, ex, firstName), UrlKeys);
  }

  /**
   * The validated table has the 29 keys in dictionary order and every social
   * link is clean, whichever path produced it.
   */
  lemma ValidatedShape(ai: map<string, Value>, ex: map<string, Value>)
    requires Validated(ai, ex).Success?
    ensures var d := Validated(ai, ex).value;
      |d| == |CleanOrder| && (forall i | 0 <= i < |d| :: d[i].0 == CleanOrder[i])
      && forall k | k in UrlKeys :: Lookup(d, k).Some? && UrlClean(Lookup(d, k).value)
  {
    if AiPathTaken(ai, ex) {
      AiPath(ai, ex);
      CleanedShape(ai, ex, FirstNameDefault(ai).value);
    } else {
      FallbackPath(ai, ex);
      FallbackShape(ex);
    }
  }

  /**
   * An AI answer whose FULL_NAME is blank makes the eager default of
   * FIRST_NAME fail, so the whole answer is replaced by the fallback data.
   */
  lemma BlankAiNameFallsBack(ai: map<string, Value>, ex: map<string, Value>)
    requires "FULL_NAME" in ai && ai["FULL_NAME"].Str? && AllSpace(ai["FULL_NAME"].s)
    ensures Validated(ai, ex) == CreateFallbackData(ex)
  {
  }

  /**
   * On the AI path every field outside the URL loop keeps the value of the
   * dictionary literal.
   */
  lemma ValidatedKeeps(ai: map<string, Value>, ex: map<string, Value>, k: Key)
    requires AiPathTaken(ai, ex) && k !in UrlKeys
    ensures Lookup(Validated(ai, ex).value, k) == Some(CleanField(k, ai, ex, FirstNameDefault(ai).value))
  {
    var f := FirstNameDefault(ai).value;
    var c := Cleaned(ai, ex, f);
    AiPath(ai, ex);
    NormalisedUrlsShape(c, UrlKeys);
    LookupFrame(c, Validated(ai, ex).value, UrlKeys, k);
    CleanOrderComplete(k);
    LookupTable(CleanOrder, k => CleanField(k, ai, ex, f), k);
  }

  /** Each social link holds NormaliseUrl of what the dictionary literal gave it. */
  lemma ValidatedUrl(ai: map<string, Value>, ex: map<string, Value>, k: Key)
    requires AiPathTaken(ai, ex) && k in UrlKeys
    ensures NormaliseUrl(CleanField(k, ai, ex, FirstNameDefault(ai).value)).Success?
      && Lookup(Validated(ai, ex).value, k)
        == Some(NormaliseUrl(CleanField(k, ai, ex, FirstNameDefault(ai).value)).value)
  {
    var f := FirstNameDefault(ai).value;
    var c := Cleaned(ai, ex, f);
    AiPath(ai, ex);
    NormalisedUrlsValues(c, UrlKeys);
    CleanOrderComplete(k);
    LookupTable(CleanOrder, k => CleanField(k, ai, ex, f), k);
  }

  /** A bare link in the AI answer comes out with "https://" in front of it. */
  lemma BareLinkGetsHttps(ai: map<string, Value>, ex: map<string, Value>, k: Key, s: string)
    requires AiPathTaken(ai, ex) && k in UrlKeys
    requires Name(k) in ai && ai[Name(k)] == Str(s) && s != [] && !StartsWith(s, "http")
    ensures Lookup(Validated(ai, ex).value, k) == Some(Str("https://" + s))
  {
    ValidatedUrl(ai, ex, k);
    NormaliseBareUrl(s);
  }

  /**
   * A key present in the AI answer wins even when its value is empty or
   * null; only the counts are turned into their str() form.
   */
  lemma AiValueWins(ai: map<string, Value>, ex: map<string, Value>, k: Key)
    requires AiPathTaken(ai, ex) && k !in UrlKeys && Name(k) in ai
    ensures Lookup(Validated(ai, ex).value, k)
      == Some(if IsCount(k) then Str(ToStr(ai[Name(k)])) else ai[Name(k)])
  {
    ValidatedKeeps(ai, ex, k);
  }

  lemma AiCountIsString(ai: map<string, Value>, ex: map<string, Value>, k: Key)
    requires AiPathTaken(ai, ex) && IsCount(k)
    ensures Lookup(Validated(ai, ex).value, k).Some? && Lookup(Validated(ai, ex).value, k).value.Str?
  {
    assert k !in UrlKeys;
    ValidatedKeeps(ai, ex, k);
    CountFieldIsString(k, ai, ex, FirstNameDefault(ai).value);
  }

  /** str() makes every count field a string. */
  lemma CountFieldIsString(k: Key, ai: map<string, Value>, ex: map<string, Value>, firstName: string)
    requires IsCount(k)
    ensures CleanField(k, ai, ex, firstName).Str?
  {
  }

  lemma FallbackCountIsString(ex: map<string, Value>, k: Key)
    requires CreateFallbackData(ex).Success? && IsCount(k)
    ensures Lookup(CreateFallbackData(ex).value, k).Some? && Lookup(CreateFallbackData(ex).value, k).value.Str?
  {
    FallbackFields(ex, k);
  }

  lemma CleanFullName(ai: map<string, Value>, ex: map<string, Value>, firstName: string)
    requires "FULL_NAME" !in ai
    ensures CleanField(FULL_NAME, ai, ex, firstName) == Get(ex, "extracted_name", Str("Professional Developer"))
  {
  }

  /** Whichever path is taken, the three counts are strings. */
  lemma CountsAreStrings(ai: map<string, Value>, ex: map<string, Value>, k: Key)
    requires Validated(ai, ex).Success? && IsCount(k)
    ensures Lookup(Validated(ai, ex).value, k).Some? && Lookup(Validated(ai, ex).value, k).value.Str?
  {
    if AiPathTaken(ai, ex) {
      AiCountIsString(ai, ex, k);
    } else {
      FallbackPath(ai, ex);
      FallbackCountIsString(ex, k);
    }
  }

  /** Without a FULL_NAME in the AI answer, either path stores the extracted name. */
  lemma FullNameFromExtraction(ai: map<string, Value>, ex: map<string, Value>)
    requires "FULL_NAME" !in ai && Validated(ai, ex).Success?
    ensures Lookup(Validated(ai, ex).value, FULL_NAME)
      == Some(Get(ex, "extracted_name", Str("Professional Developer")))
  {
    if AiPathTaken(ai, ex) {
      AiFullName(ai, ex);
    } else {
      FallbackPath(ai, ex);
      FallbackFields(ex, FULL_NAME);
    }
  }

  /** On the AI path the cleaned FULL_NAME default is the extracted name. */
  lemma AiFullName(ai: map<string, Value>, ex: map<string, Value>)
    requires "FULL_NAME" !in ai && AiPathTaken(ai, ex)
    ensures Lookup(Validated(ai, ex).value, FULL_NAME)
      == Some(Get(ex, "extracted_name", Str("Professional Developer")))
  {
    CleanFullName(ai, ex, FirstNameDefault(ai).value);
    ValidatedKeeps(ai, ex, FULL_NAME);
  }

  // ---------------------------------------------------------------------
  // create_fallback_data
  // ---------------------------------------------------------------------

  /** The four fallback fields that come from the extraction rather than a fixed string. */
  predicate FromExtraction(k: Key)
  {
    k == FULL_NAME || k == FIRST_NAME || k == EMAIL || k == PHONE
  }

  /** The fixed string of every other field of the fallback dictionary literal. */
  function FallbackText(k: Key): string
    requires !FromExtraction(k)
  {
    match k
    case LOCATION => "Available Worldwide"
    case JOB_TITLE => "Software Developer"
    case CURRENT_POSITION => "Software Developer"
    case PROFESSIONAL_SUMMARY => SummaryFallback
    case ABOUT_DESCRIPTION => "Dedicated to delivering "
      + "high-quality solutions and "
      + "continuous learning."
    case LINKEDIN_URL => LinkedInFallback
    case GITHUB_URL => GitHubFallback
    case TWITTER_URL => TwitterFallback
    case RESUME_DOWNLOAD_LINK => "#"
    case YEARS_EXPERIENCE => "2"
    case PROJECT_COUNT => "5"
    case SKILL_COUNT => "8"
    case EDUCATION_DEGREE => "Bachelor's Degree"
    case EDUCATION_HISTORY => EducationFallback
    case PRIMARY_SKILLS => "Problem Solving, Communication, "
      + "Teamwork, Project Management"
    case PROGRAMMING_LANGUAGES => LanguagesFallback
    case FRAMEWORKS => FrameworksFallback
    case DATABASES_TOOLS => DatabasesFallback
    case CLOUD_DEVOPS => CloudFallback
    case CONTACT_MESSAGE => ContactFallback
    case WORK_EXPERIENCE =>
      "<div class=\"experience-item\">"
        + "<h4>Professional Experience</h4>"
        + "<p>Contributed to various "
        + "projects and initiatives with "
        + "focus on quality and "
        + "collaboration.</p></div>"
    case PROJECTS_LIST =>
      "<div class=\"project-item\">"
        + "<h4>Portfolio Project</h4><p>A "
        + "showcase of technical skills "
        + "and creativity, demonstrating "
        + "problem-solving abilities.</p>"
        + "</div>"
    case SECONDARY_TITLE_1 => "Problem Solver"
    case SECONDARY_TITLE_2 => "Creative Thinker"
    case SECONDARY_TITLE_3 => "Team Player"
  }

  /** The value of key k in the fallback dictionary literal. */
  function FallbackField(k: Key, name: Value, firstName: string, email: Value, phone: Value): Value
  {
    match k
    case FULL_NAME => name
    case FIRST_NAME => Str(firstName)
    case EMAIL => email
    case PHONE => phone
    case _ => Str(FallbackText(k))
  }

  /** name.split()[0] if name else 'Professional'; a blank name or a non-string raises. */
  function FallbackFirstName(name: Value): Result<string>
  {
    if !Truthy(name) then Success("Professional")
    else match name
      case Str(s) =>
        var ws := Words(s);
        if ws == [] then Failure("IndexError: list index out of range") else Success(ws[0])
      case _ => Failure("AttributeError: object has no "
        + "attribute 'split'")
  }

  /** The fallback dictionary literal. */
  function FallbackTable(name: Value, firstName: string, email: Value, phone: Value): Data
  {
    Table(CleanOrder, k => FallbackField(k, name, firstName, email, phone))
  }

  /** create_fallback_data: fixed values except the name, e-mail and phone taken from the extraction. */
  function CreateFallbackData(ex: map<string, Value>): Result<Data>
  {
    var name := Get(ex, "extracted_name", Str("Professional Developer"));
    match FallbackFirstName(name)
    case Failure(e) => Failure(e)
    case Success(firstName) =>
      var email := Get(ex, "extracted_email", Str("contact@example.com"));
      var phone := Get(ex, "extracted_phone", Str("+1 (555) 123-4567"));
      Success(FallbackTable(name, firstName, email, phone))
  }

  lemma FallbackTableAt(name: Value, firstName: string, email: Value, phone: Value, k: Key)
    ensures Lookup(FallbackTable(name, firstName, email, phone), k)
      == Some(FallbackField(k, name, firstName, email, phone))
  {
    CleanOrderComplete(k);
    LookupTable(CleanOrder, k => FallbackField(k, name, firstName, email, phone), k);
  }

  /** The fallback literal lists the 29 keys in dictionary order and its links are clean. */
  lemma FallbackTableShape(name: Value, firstName: string, email: Value, phone: Value)
    ensures var d := FallbackTable(name, firstName, email, phone);
      |d| == |CleanOrder| && (forall i | 0 <= i < |d| :: d[i].0 == CleanOrder[i])
      && forall k | k in UrlKeys :: Lookup(d, k).Some? && UrlClean(Lookup(d, k).value)
  {
    TableAt(CleanOrder, k => FallbackField(k, name, firstName, email, phone));
    FallbackTableAt(name, firstName, email, phone, LINKEDIN_URL);
    FallbackTableAt(name, firstName, email, phone, GITHUB_URL);
    FallbackTableAt(name, firstName, email, phone, TWITTER_URL);
    FallbackLinksClean();
  }

  /** Looking a key up in the fallback table finds its entry of the literal. */
  lemma FallbackFields(ex: map<string, Value>, k: Key)
    requires CreateFallbackData(ex).Success?
    ensures var name := Get(ex, "extracted_name", Str("Professional Developer"));
      Lookup(CreateFallbackData(ex).value, k) == Some(FallbackField(k, name,
        FallbackFirstName(name).value, Get(ex, "extracted_email", Str("contact@example.com")),
        Get(ex, "extracted_phone", Str("+1 (555) 123-4567"))))
  {
    var name := Get(ex, "extracted_name", Str("Professional Developer"));
    FallbackTableAt(name, FallbackFirstName(name).value, Get(ex, "extracted_email", Str("contact@example.com")),
      Get(ex, "extracted_phone", Str("+1 (555) 123-4567")), k);
  }

  /** The fallback table has the same 29 keys in the same order as the validated one, with clean links. */
  lemma FallbackShape(ex: map<string, Value>)
    requires CreateFallbackData(ex).Success?
    ensures var d := CreateFallbackData(ex).value;
      |d| == |CleanOrder| && (forall i | 0 <= i < |d| :: d[i].0 == CleanOrder[i])
      && forall k | k in UrlKeys :: Lookup(d, k).Some? && UrlClean(Lookup(d, k).value)
  {
    var name := Get(ex, "extracted_name", Str("Professional Developer"));
    FallbackTableShape(name, FallbackFirstName(name).value, Get(ex, "extracted_email", Str("contact@example.com")),
      Get(ex, "extracted_phone", Str("+1 (555) 123-4567")));
  }

  /**
   * The fallback fails only for a blank or non-string extracted name; its
   * FULL_NAME is the extracted name and its FIRST_NAME that name's first word,
   * or "Professional" when the name is None or empty.
   */
  lemma FallbackNames(ex: map<string, Value>)
    ensures var name := Get(ex, "extracted_name", Str("Professional Developer"));
      CreateFallbackData(ex).Success? <==> (!Truthy(name) || (name.Str? && !AllSpace(name.s)))
    ensures var name := Get(ex, "extracted_name", Str("Professional Developer"));
      CreateFallbackData(ex).Success? ==>
        Lookup(CreateFallbackData(ex).value, FULL_NAME) == Some(name)
        && Lookup(CreateFallbackData(ex).value, FIRST_NAME)
          == Some(Str(if !Truthy(name) then "Professional" else Words(name.s)[0]))
  {
    if CreateFallbackData(ex).Success? {
      FallbackFields(ex, FULL_NAME);
      FallbackFields(ex, FIRST_NAME);
    }
  }

  /**
   * When neither the AI answer nor the scan gives a name, FULL_NAME holds
   * None and the archive step, which needs a string, fails.
   */
  lemma NoNameNoArchive(ai: map<string, Value>, e: Extraction, userId: string)
    requires e.name.None? && "FULL_NAME" !in ai
    requires Validated(ai, ExtractedDict(e)).Success?
    ensures var d := Validated(ai, ExtractedDict(e)).value;
      ArchiveName(Lookup(d, FULL_NAME).GetOr(Str("Portfolio")), userId).Failure?
  {
    FullNameFromExtraction(ai, ExtractedDict(e));
  }

  // ---------------------------------------------------------------------
  // replace_placeholders_in_temp_copy
  // ---------------------------------------------------------------------

  /** Only these files are rewritten. */
  predicate IsTemplateFile(fileName: string)
  {
    EndsWith(fileName, ".html") || EndsWith(fileName, ".css") || EndsWith(fileName, ".js")
  }

  /** One file after the walk: template files get the table substituted, others are kept. */
  function RewriteFile(file: (string, string), table: seq<(string, string)>): (string, string)
  {
    if IsTemplateFile(file.0) then (file.0, SubstituteTokens(file.1, table)) else file
  }

  /**
   * The walk over the copied template: every .html, .css and .js file has
   * each {{key}} of the table replaced by str(value), in table order; other
   * files keep their content. Files are (name, content) pairs.
   */
  method ReplacePlaceholdersInFiles(files: seq<(string, string)>, d: Data) returns (out: seq<(string, string)>)
    ensures |out| == |files|
    ensures forall i | 0 <= i < |files| :: out[i] == RewriteFile(files[i], TextTable(d))
  {
    out := [];
    var table := TextTable(d);
    for i := 0 to |files|
      invariant |out| == i && forall j | 0 <= j < i :: out[j] == RewriteFile(files[j], table)
    {
      var file := RewriteOne(files[i], table);
      out := out + [file];
    }
  }

  /** One file of the walk: read, substitute when it is a template file, write back. */
  method RewriteOne(file: (string, string), table: seq<(string, string)>) returns (r: (string, string))
    ensures r == RewriteFile(file, table)
  {
    var content := file.1;
    if IsTemplateFile(file.0) {
      content := ReplaceEach(content, table);
    }
    r := (file.0, content);
  }

  /**
   * A template file made of brace-free text and tokens, with a brace-free
   * table, ends up with every token of a table key replaced by that key's
   * first value and every other token left as it was.
   */
  lemma RewriteTemplate(name: string, t: seq<Piece>, table: seq<(string, string)>)
    requires IsTemplateFile(name) && Plain(t) && TableBraceFree(table)
    ensures RewriteFile((name, Render(t)), table) == (name, Render(FillAll(t, table)))
  {
    SubstituteRender(t, table);
  }

  // ---------------------------------------------------------------------
  // generate_preview_html
  // ---------------------------------------------------------------------

  const MissingTemplate := "<p>Error: Portfolio template "
    + "not found</p>"

  function StyleTag(css: string): string
  {
    "<style>" + css + "</style>"
  }

  /**
   * The preview: the error paragraph without an index page, the page itself
   * without a stylesheet, otherwise the page with the stylesheet inlined in
   * front of every </head>.
   */
  function Preview(index: Option<string>, css: Option<string>): string
  {
    if index.None? then MissingTemplate
    else if css.None? then index.value
    else ReplaceAll(index.value, "</head>", StyleTag(css.value) + "</head>")
  }

  /** A page without </head> is shown as it is. */
  lemma PreviewWithoutHead(html: string, css: Option<string>)
    requires !Contains(html, "</head>")
    ensures Preview(Some(html), css) == html
  {
    if css.Some? {
      ReplaceAbsent(html, "</head>", StyleTag(css.value) + "</head>");
    }
  }

  /**
   * The style block lands immediately before the first </head>, and the rest
   * of the page is treated the same way.
   */
  lemma PreviewInjects(a: string, b: string, css: string)
    requires !Contains(a, "</head>")
    ensures Preview(Some(a + ("</head>" + b)), Some(css))
      == a + ((StyleTag(css) + "</head>") + Preview(Some(b), Some(css)))
  {
    var p := "</head>";
    var r := StyleTag(css) + p;
    assert p[1..] == "/head>";
    ReplaceBeforeFirst(a, p, b, r);
  }

  // ---------------------------------------------------------------------
  // create_portfolio_zip: the archive name
  // ---------------------------------------------------------------------

  /** The characters the class [\w\s-] admits. */
  predicate NameChar(c: char) { IsWordChar(c) || IsSpace(c) || c == '-' }

  /** The characters the class [-\s] admits. */
  predicate Separator(c: char) { IsSpace(c) || c == '-' }

  /** re.sub(r'[^\w\s-]', '', s). */
  function DropDisallowed(s: string): (r: string)
    ensures NameChars(r)
  {
    if s == [] then []
    else (if NameChar(s[0]) then [s[0]] else []) + DropDisallowed(s[1..])
  }

  predicate NameChars(s: string) { forall i | 0 <= i < |s| :: NameChar(s[i]) }

  /** Length of the run of separators that starts s. */
  function SeparatorRun(s: string): (n: nat)
    ensures n <= |s| && (n == |s| || !Separator(s[n]))
    ensures s != [] && Separator(s[0]) ==> n >= 1
  {
    if s == [] || !Separator(s[0]) then 0 else 1 + SeparatorRun(s[1..])
  }

  /** re.sub(r'[-\s]+', '_', s): every maximal run of separators becomes one underscore. */
  function JoinSeparatorRuns(s: string): (r: string)
    ensures NameChars(s) ==> forall i | 0 <= i < |r| :: IsWordChar(r[i])
    decreases |s|
  {
    if s == [] then []
    else if Separator(s[0]) then "_" + JoinSeparatorRuns(s[SeparatorRun(s)..])
    else [s[0]] + JoinSeparatorRuns(s[1..])
  }

  /** The sanitised name: word characters only, so no whitespace and no hyphen. */
  function SafeName(fullName: string): (r: string)
    ensures forall i | 0 <= i < |r| :: IsWordChar(r[i])
  {
    var kept := DropDisallowed(fullName);
    StripNameChars(kept);
    JoinSeparatorRuns(Strip(kept))
  }

  lemma StripNameChars(s: string)
    requires NameChars(s)
    ensures NameChars(Strip(s))
  {
    StripInside(s);
    var d := |s| - |StripLeft(s)|;
    assert forall i | 0 <= i < |Strip(s)| :: Strip(s)[i] == s[d + i];
  }

  /** Hence the sanitised name holds neither whitespace nor hyphens. */
  lemma SafeNameNoSeparators(fullName: string)
    ensures NoSpace(SafeName(fullName)) && '-' !in SafeName(fullName)
  {
    var r := SafeName(fullName);
    assert forall i | 0 <= i < |r| :: r[i] != '-' && !IsSpace(r[i]);
  }

  /** The archive file name; re.sub raises on anything but a string. */
  function ArchiveName(fullName: Value, userId: string): (r: Result<string>)
    ensures r.Success? <==> fullName.Str?
  {
    match fullName
    case Str(s) => Success(SafeName(s) + "_portfolio_" + userId + ".zip")
    case _ => Failure("TypeError: expected string or "
      + "bytes-like object")
  }

  lemma {:induction false} DropDisallowedKeeps(s: string)
    requires NameChars(s)
    ensures DropDisallowed(s) == s
  {
    if s != [] {
      DropDisallowedKeeps(s[1..]);
    }
  }

  lemma {:induction false} JoinSeparatorRunsKeeps(s: string)
    requires forall i | 0 <= i < |s| :: !Separator(s[i])
    ensures JoinSeparatorRuns(s) == s
  {
    if s != [] {
      JoinSeparatorRunsKeeps(s[1..]);
    }
  }

  /** Each of the three steps leaves a text of word characters as it is. */
  lemma WordCharsKept(s: string)
    requires forall i | 0 <= i < |s| :: IsWordChar(s[i])
    ensures DropDisallowed(s) == s
  {
    assert NameChars(s);
    DropDisallowedKeeps(s);
  }

  lemma WordCharsUnstripped(s: string)
    requires forall i | 0 <= i < |s| :: IsWordChar(s[i])
    ensures Strip(s) == s
  {
    StripNoop(s);
  }

  lemma WordCharsUnjoined(s: string)
    requires forall i | 0 <= i < |s| :: IsWordChar(s[i])
    ensures JoinSeparatorRuns(s) == s
  {
    assert forall i | 0 <= i < |s| :: !Separator(s[i]);
    JoinSeparatorRunsKeeps(s);
  }

  /** A name made of word characters only is its own sanitised form. */
  lemma SafeNameFixes(s: string)
    requires forall i | 0 <= i < |s| :: IsWordChar(s[i])
    ensures SafeName(s) == s
  {
    WordCharsKept(s);
    WordCharsUnstripped(s);
    WordCharsUnjoined(s);
  }

  /** Sanitising an already sanitised name changes nothing. */
  lemma SafeNameIdempotent(fullName: string)
    ensures SafeName(SafeName(fullName)) == SafeName(fullName)
  {
    SafeNameFixes(SafeName(fullName));
  }
}

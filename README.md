# Portfolio placeholder generation, modelled in Dafny

The AI resume analyser turns a resume into a downloadable portfolio web site. It does this by filling a
template whose text holds `{{KEY}}` tokens. There are 29 placeholder keys: `FULL_NAME`, `EMAIL`,
`PROGRAMMING_LANGUAGES`, `PROJECTS_LIST`, `SECONDARY_TITLE_3` and the rest. Four components compute the
value of each key and substitute the values into the template. This project models all four:

- `placeholders.dfy` (module `Placeholders`) models `config/portfolio_placeholders.py`:
  - resolving a key through extracted data, then personal data, then defaults, then `[KEY]`;
  - deriving the first name;
  - the four HTML section generators;
  - `get_all_placeholders`.
- `integration.dfy` (module `Integration`) models `resume-to-portfoliov2/portfolio-integration.py`:
  - the keyword skill categoriser and the skill-icon lookup;
  - the experience, education and project fragments;
  - the statistics;
  - `populate_template`, with its 29-entry replacement dictionary and replace loop.
- `generator.dfy` (module `Generator`) models `utils/portfolio_generator.py`:
  - the name scan over the first five resume lines;
  - `validate_and_clean_ai_data`, including its eager `FIRST_NAME` default, the URL loop and the
    fall-back on any exception;
  - `create_fallback_data`;
  - the placeholder replacement over the copied template files;
  - the preview's stylesheet injection;
  - the archive-name sanitiser.
- `template_generator.dfy` (module `TemplateGenerator`) models `resume-to-portfoliov2/template-generator.js`.
  `PortfolioTemplateGenerator` is a class whose placeholder object is a field. Its methods are:
  - `populateTemplate`, which overwrites that object;
  - `generatePortfolio`;
  - `getAvailablePlaceholders`.

  The module also holds the pure generators (`generateSkillItems`, the timelines, the project cards),
  `getSkillIcon` and `validateResumeData`.

Shared modules:

- `keys.dfy` holds the 29 keys and their names.
- `replace.dfy` holds literal replacement: Python's `str.replace` and JavaScript's global replace. It
  also proves that, on a template made of literal text and brace-free tokens, sequential replacement
  fills every token of the table and nothing else.
- `text.dfy` holds the string functions of the two languages: `strip`, `split`, `lower`, `join`.
- `values.dfy` holds the dynamically typed scalars and their truthiness and `str()`.
- `decimal.dfy` holds the decimal rendering of integers.

An exception raised by the source is a `Failure` in the model. Examples:

- `IndexError` on the first word of a blank name;
- `AttributeError` on a non-string;
- `TypeError` when `re.sub` gets `None`.

Where the source catches the exception, the model takes the same fall-back path.

Some documentation of the system describes "PostgreSQL" as a database skill. The code of
`extract_skills_by_category` files it under programming languages: the one-letter keyword `r` matches
first. The model follows the code (`Integration.PostgreSqlIsProgramming`).

## Model

| member | source | states |
|---|---|---|
| Placeholders.Resolve | config/portfolio_placeholders.py:262-292 | priority extracted > personal > default > `[KEY]`; the result is never empty when no default is empty |
| Placeholders.PlaceholderValue | config/portfolio_placeholders.py:262-292 | with the shipped tables every key resolves to a non-empty text |
| Placeholders.ExtractedTakesPrecedence | config/portfolio_placeholders.py:276-279 | a truthy, non-blank extracted value wins whatever the flag and tables, stripped |
| Placeholders.SentinelSkipped | config/portfolio_placeholders.py:282-285 | a personal value equal to one of the three template sentinels resolves as if personal data were off |
| Placeholders.DefaultOrBracket | config/portfolio_placeholders.py:288-292 | otherwise the default, and `[KEY]` for a key without one |
| Placeholders.ShippedDefaultsNonEmpty | config/portfolio_placeholders.py:64-102 | no value of DEFAULT_DATA is empty |
| Placeholders.DefaultFirstName | config/portfolio_placeholders.py:65-67 | DEFAULT_DATA's FIRST_NAME is "Professional" |
| Placeholders.FirstName | config/portfolio_placeholders.py:294-300 | "Professional" for a blank name or a name placeholder, else the first word of the stripped name: a non-empty prefix without whitespace ending at a blank |
| Placeholders.ShippedNameResolution | config/portfolio_placeholders.py:262-300 | with nothing extracted, FULL_NAME resolves to "Professional Developer" (the personal value is a sentinel) and FIRST_NAME to "Professional" |
| Placeholders.PersonalNameIsSentinel | config/portfolio_placeholders.py:20-22 | the shipped personal FULL_NAME is never used |
| Placeholders.GenerateSkillsHtml | config/portfolio_placeholders.py:302-327 | the loop builds the skills section of SkillsHtml |
| Placeholders.SkillsHtmlCases | config/portfolio_placeholders.py:302-327 | the "No skills available" fragment exactly for a missing category, "" for an empty one, else one block per entry in input order joined by newlines |
| Placeholders.GenerateExperienceHtml | config/portfolio_placeholders.py:329-351 | the loop builds ExperienceHtml |
| Placeholders.ExperienceHtmlCases | config/portfolio_placeholders.py:329-351 | the fixed fragment exactly for no records, else each record's block at its place in the newline join |
| Placeholders.GenerateEducationHtml | config/portfolio_placeholders.py:353-375 | the loop builds EducationHtml |
| Placeholders.EducationHtmlCases | config/portfolio_placeholders.py:353-375 | as for experience |
| Placeholders.GenerateProjectsHtml | config/portfolio_placeholders.py:377-413 | the loop builds ProjectsHtml |
| Placeholders.ProjectsHtmlCases | config/portfolio_placeholders.py:377-413 | as for experience |
| Placeholders.SectionCases | config/portfolio_placeholders.py:331-351 | a section equals its fixed fragment iff it has no records, since blocks begin with a newline and the fragment does not |
| Placeholders.FeaturedCard | config/portfolio_placeholders.py:384-388 | a card opens with the `featured` class exactly when `featured` is truthy |
| Placeholders.KeysPartitioned | config/portfolio_placeholders.py:434-441 | basic_keys lists exactly the keys that are neither FIRST_NAME nor one of the seven sections |
| Placeholders.ResolveBasicKeys | config/portfolio_placeholders.py:443-444 | the loop maps exactly the 21 basic keys, each to its resolved value |
| Placeholders.Assemble | config/portfolio_placeholders.py:447-457 | FIRST_NAME and the seven sections are added and the basic values kept |
| Placeholders.GetAllPlaceholders | config/portfolio_placeholders.py:419-459 | all 29 keys; basic keys resolved (non-empty with non-empty defaults); FIRST_NAME derived from the resolved FULL_NAME; sections rendered from the data tables |
| Integration.FirstHitAt | resume-to-portfoliov2/portfolio-integration.py:78-83 | the first category, in dictionary order, with a matching keyword wins |
| Integration.FirstHitNone | resume-to-portfoliov2/portfolio-integration.py:85-86 | with no keyword match the skill goes to programming languages |
| Integration.ClassifyCases | resume-to-portfoliov2/portfolio-integration.py:74-86 | each of the four categories characterised by which keyword lists the lower-cased, stripped skill hits |
| Integration.MatchCategory | resume-to-portfoliov2/portfolio-integration.py:76-86 | the inner loop returns the first category hit, programming languages when none |
| Integration.ExtractSkillsByCategory | resume-to-portfoliov2/portfolio-integration.py:47-88 | the outer loop appends every skill to its category's list |
| Integration.Append | resume-to-portfoliov2/portfolio-integration.py:80 | appending touches only the chosen list |
| Integration.BucketsPartition | resume-to-portfoliov2/portfolio-integration.py:72-88 | the four lists together are a permutation of the input |
| Integration.BucketSizes | resume-to-portfoliov2/portfolio-integration.py:72-88 | the list lengths add up to the number of skills |
| Integration.BucketMembers | resume-to-portfoliov2/portfolio-integration.py:72-88 | a list holds a skill iff the input holds it and it is classified there |
| Integration.BucketAppend | resume-to-portfoliov2/portfolio-integration.py:74-86 | bucketing distributes over concatenation, so each list keeps input order |
| Integration.SkillWithRIsProgramming | resume-to-portfoliov2/portfolio-integration.py:52-54 | any skill containing r or R is a programming language, through the keyword `r` |
| Integration.PostgreSqlIsProgramming | resume-to-portfoliov2/portfolio-integration.py:52-63 | "PostgreSQL" is filed under programming languages |
| Integration.MongoDbIsProgramming | resume-to-portfoliov2/portfolio-integration.py:52-63 | "MongoDB" is filed under programming languages, through the keyword `go` |
| Integration.MySqlIsDatabase | resume-to-portfoliov2/portfolio-integration.py:51-63 | "MySQL" hits no language or framework keyword and is a database |
| Integration.GenerateSkillHtml | resume-to-portfoliov2/portfolio-integration.py:90-124 | the loop builds SkillItemsHtml; the category argument is unused |
| Integration.SkillItemsInOrder | resume-to-portfoliov2/portfolio-integration.py:90-124 | "" for no skills, otherwise each skill's item at its place, in order |
| Integration.IconKeyClean | resume-to-portfoliov2/portfolio-integration.py:112 | the icon key has no dot and no space |
| Integration.NodeJsIconUnreachable | resume-to-portfoliov2/portfolio-integration.py:102-113 | no skill ever gets the Node.js icon, because the key 'node.js' keeps a dot that skill keys never have |
| Integration.GenerateExperienceHtml | resume-to-portfoliov2/portfolio-integration.py:126-153 | the loop builds ExperienceHtml |
| Integration.GenerateEducationHtml | resume-to-portfoliov2/portfolio-integration.py:155-182 | the loop builds EducationHtml |
| Integration.ItemsInOrder | resume-to-portfoliov2/portfolio-integration.py:126-182 | the placeholder fragment for no records; otherwise each record's item at its place in the "" join |
| Integration.GenerateProjectsHtml | resume-to-portfoliov2/portfolio-integration.py:184-255 | the loop builds ProjectsHtml |
| Integration.ProjectLinksCases | resume-to-portfoliov2/portfolio-integration.py:220-235 | links are empty iff neither URL is truthy; the live demo comes first |
| Integration.TechTagsInOrder | resume-to-portfoliov2/portfolio-integration.py:214-217 | no tags iff no technologies; one tag per technology, in order |
| Integration.FirstNameOf | resume-to-portfoliov2/portfolio-integration.py:261-263 | "Your" for an empty name, IndexError for a blank one, else the whitespace-free run that starts the stripped name and ends at whitespace or at its end |
| Integration.DegreeOf | resume-to-portfoliov2/portfolio-integration.py:317 | "Bachelor's Degree" without education; fails exactly when the first degree is present and not a string |
| Integration.YearsExperience | resume-to-portfoliov2/portfolio-integration.py:273 | max(2 × jobs, 1) |
| Integration.ProjectCount | resume-to-portfoliov2/portfolio-integration.py:274 | max(projects + 10, 5) |
| Integration.SkillCount | resume-to-portfoliov2/portfolio-integration.py:275 | max(skills, 10) |
| Integration.ProjectCountNoFloor | resume-to-portfoliov2/portfolio-integration.py:274 | the floor of 5 never applies |
| Integration.CountsNeverZero | resume-to-portfoliov2/portfolio-integration.py:313-315 | none of the three statistics renders as "0" |
| Integration.PrimarySkills | resume-to-portfoliov2/portfolio-integration.py:319 | the fixed list when there are no skills |
| Integration.PrimarySkillsFirstFive | resume-to-portfoliov2/portfolio-integration.py:319 | at most the first five skills, each at its place in the join, the first skill first |
| Integration.Replacements | resume-to-portfoliov2/portfolio-integration.py:296-332 | the dictionary has one entry per key, in insertion order |
| Integration.ReplacementsCoverAllKeys | resume-to-portfoliov2/portfolio-integration.py:296-332 | every one of the 29 keys has a replacement |
| Integration.RenderFragments | resume-to-portfoliov2/portfolio-integration.py:269-293 | the categoriser and the generators produce the fragments of the resume |
| Integration.PopulateTemplate | resume-to-portfoliov2/portfolio-integration.py:257-339 | the first name, the fragments, then the replace loop |
| Integration.FillTemplate | resume-to-portfoliov2/portfolio-integration.py:335-339 | the replace loop over the dictionary, in order |
| Integration.PopulatedFails | resume-to-portfoliov2/portfolio-integration.py:261-317 | populating fails exactly for a blank name or a non-string degree |
| Generator.ScanName | utils/portfolio_generator.py:163-171 | the loop returns the stripped first of the first five lines that passes the name test |
| Generator.IsNameCandidate | utils/portfolio_generator.py:167-169 | the test: non-empty, no stop word, 2 to 4 words, alphabetic words capitalised |
| Generator.HeadLines | utils/portfolio_generator.py:163 | the first five lines of the split, or all of them when fewer |
| Generator.NameAmongFirst | utils/portfolio_generator.py:163-171 | the name is the stripped line at the first accepted position, None iff no line is accepted |
| Generator.FirstAccepted | utils/portfolio_generator.py:165-171 | the first accepted position: every earlier line rejected |
| Generator.NameHasNoNewline | utils/portfolio_generator.py:163-171 | a found name never holds a line break |
| Generator.ExtractBasicResumeData | utils/portfolio_generator.py:152-179 | raw text, length, the two matches and the scanned name |
| Generator.ExtractedDict | utils/portfolio_generator.py:173-179 | `extracted_name` is present, and None when no name was found |
| Generator.Assign | utils/portfolio_generator.py:254 | a dictionary write keeps every key in place and changes only that key's value |
| Generator.AssignSame | utils/portfolio_generator.py:254 | writing back the stored value changes nothing |
| Generator.FirstNameDefault | utils/portfolio_generator.py:220 | the eager default is a non-empty word without whitespace, or the exception |
| Generator.FirstNameDefaultSucceeds | utils/portfolio_generator.py:220 | the default succeeds iff FULL_NAME (default "Professional") is a string that is not blank |
| Generator.FirstNameDefaultWord | utils/portfolio_generator.py:220 | a successful default is the first word of that name: the whitespace-free run that starts the stripped name and ends at whitespace or at its end |
| Generator.NormaliseUrl | utils/portfolio_generator.py:252-254 | success iff the value is falsy, a string or already starts with http; the result is always clean; a clean value is kept |
| Generator.NormaliseBareUrl | utils/portfolio_generator.py:253-254 | a non-empty string without the http prefix gets "https://" in front |
| Generator.NormaliseUrlIdempotent | utils/portfolio_generator.py:252-254 | normalising twice is normalising once |
| Generator.NormalisedUrlsFrame | utils/portfolio_generator.py:251-254 | the URL loop keeps all keys in place, touches no other field, and sets every looped link to the normalised form of its old value |
| Generator.NormalisedUrlsIdempotent | utils/portfolio_generator.py:251-254 | running the loop on clean links changes nothing |
| Generator.ValidateAndCleanAiData | utils/portfolio_generator.py:214-260 | the dictionary, then the loop over the three links, with the fallback on any exception |
| Generator.AiPath | utils/portfolio_generator.py:218-256 | without an exception the result is the dictionary after the URL loop |
| Generator.FallbackPath | utils/portfolio_generator.py:258-260 | any exception gives the fallback data |
| Generator.ValidatedShape | utils/portfolio_generator.py:214-260 | either path gives the 29 keys in dictionary order with clean links |
| Generator.BlankAiNameFallsBack | utils/portfolio_generator.py:220-260 | a blank AI FULL_NAME makes the eager default raise, so the whole answer is discarded |
| Generator.ValidatedKeeps | utils/portfolio_generator.py:218-248 | on the AI path every non-link field keeps its get() value |
| Generator.AiValueWins | utils/portfolio_generator.py:218-248 | a key the AI gives wins even when empty or null; counts go through str() |
| Generator.CountsAreStrings | utils/portfolio_generator.py:232-283 | on either path the three counts are strings |
| Generator.FullNameFromExtraction | utils/portfolio_generator.py:219-268 | without an AI FULL_NAME, both paths store the extracted name |
| Generator.ValidatedUrl | utils/portfolio_generator.py:251-254 | on the AI path each link of the result is the normalised form of that link's get() value |
| Generator.BareLinkGetsHttps | utils/portfolio_generator.py:253-254 | on the AI path a non-empty link from the answer without the http prefix comes out as "https://" plus the link |
| Generator.AiFullName | utils/portfolio_generator.py:219 | on the AI path, a missing FULL_NAME takes the extracted name or "Professional Developer" |
| Generator.FallbackShape | utils/portfolio_generator.py:262-297 | the fallback table has the same 29 keys in the same order, with clean links |
| Generator.FallbackFields | utils/portfolio_generator.py:267-297 | each key's fallback value is its literal entry |
| Generator.FallbackNames | utils/portfolio_generator.py:264-269 | the fallback fails iff the name is a truthy non-string or blank; FULL_NAME is the name and FIRST_NAME its first word or "Professional" |
| Generator.NoNameNoArchive | utils/portfolio_generator.py:375 | with no name found and none from the AI, FULL_NAME is None and the archive step fails |
| Generator.ReplacePlaceholdersInFiles | utils/portfolio_generator.py:321-337 | .html, .css and .js files get the table substituted in order; other files are unchanged |
| Generator.RewriteOne | utils/portfolio_generator.py:323-337 | one file of the walk: template files get the table substituted, any other file comes back as it was |
| Generator.RewriteTemplate | utils/portfolio_generator.py:331-333 | on a plain template, every token of a table key is replaced by its value and every other token is left as it was |
| Generator.PreviewWithoutHead | utils/portfolio_generator.py:357-365 | a page without `</head>` is returned as it is |
| Generator.PreviewInjects | utils/portfolio_generator.py:362-363 | when the text before a `</head>` holds no `</head>`, the style block lands immediately before that one, and the rest is treated the same way |
| Generator.SafeName | utils/portfolio_generator.py:375-376 | the sanitised name has word characters only |
| Generator.SafeNameNoSeparators | utils/portfolio_generator.py:375-376 | it holds no whitespace and no hyphen |
| Generator.SafeNameFixes | utils/portfolio_generator.py:375-376 | a name of word characters is its own sanitised form |
| Generator.SafeNameIdempotent | utils/portfolio_generator.py:375-376 | sanitising twice is sanitising once |
| Generator.ArchiveName | utils/portfolio_generator.py:375-378 | succeeds iff the name is a string |
| TemplateGenerator.JsText | resume-to-portfoliov2/template-generator.js:243-245 | a truthy value renders as a non-empty text |
| TemplateGenerator.SkillIcon | resume-to-portfoliov2/template-generator.js:67-114 | a listed skill gets its own icon, any other skill "fas fa-code"; never empty |
| TemplateGenerator.SkillIconCaseSensitive | resume-to-portfoliov2/template-generator.js:67-114 | lookup is exact: "python" and "node.js" get the default |
| TemplateGenerator.SkillItemsInOrder | resume-to-portfoliov2/template-generator.js:55-64 | one skill block per skill, in order, nothing in between |
| TemplateGenerator.ExperienceInOrder | resume-to-portfoliov2/template-generator.js:117-128 | one timeline block per job, in order |
| TemplateGenerator.EducationInOrder | resume-to-portfoliov2/template-generator.js:131-142 | one timeline block per degree, in order |
| TemplateGenerator.ProjectsInOrder | resume-to-portfoliov2/template-generator.js:145-168 | one card per project, in order |
| TemplateGenerator.TechTagsInOrder | resume-to-portfoliov2/template-generator.js:155 | one tag per technology, in order |
| TemplateGenerator.FlatCounts | resume-to-portfoliov2/template-generator.js:195 | the flattened skills have the summed length and hold exactly the skills of the arrays |
| TemplateGenerator.TruthyOrDefault | resume-to-portfoliov2/template-generator.js:175-240 | every `x \|\| 'default'` placeholder is x when truthy, else its default, and is never blank |
| TemplateGenerator.SkillCountIsTotal | resume-to-portfoliov2/template-generator.js:195 | the total of all skill arrays when skills exist, else '20' |
| TemplateGenerator.EducationDefaults | resume-to-portfoliov2/template-generator.js:199-201 | the default timeline only when education is absent; an empty array gives "" |
| TemplateGenerator.ExperienceDefaults | resume-to-portfoliov2/template-generator.js:219-221 | likewise for experience |
| TemplateGenerator.ProjectDefaults | resume-to-portfoliov2/template-generator.js:224-235 | the sample card only when projects are absent; an empty array gives "" |
| TemplateGenerator.EmptyCategoryRendersNothing | resume-to-portfoliov2/template-generator.js:208-210 | a present but empty category renders as "", not as the default skills |
| TemplateGenerator.ExtraTitlesIgnored | resume-to-portfoliov2/template-generator.js:238-240 | titles after the third do not change the secondary titles |
| TemplateGenerator.TitleDefaults | resume-to-portfoliov2/template-generator.js:238-240 | without typewriter titles the three defaults are used |
| TemplateGenerator.AllKeysListed | resume-to-portfoliov2/template-generator.js:6-51 | the object literal lists all 29 placeholders |
| TemplateGenerator.Blank | resume-to-portfoliov2/template-generator.js:6-51 | the constructed object has every placeholder |
| TemplateGenerator.Populated | resume-to-portfoliov2/template-generator.js:175-240 | after populating, every placeholder still has a value |
| TemplateGenerator.PresentKeys | resume-to-portfoliov2/template-generator.js:263-265 | Object.keys lists the keys held, in creation order, and all of them for a complete object |
| TemplateGenerator.PopulatedRender | resume-to-portfoliov2/template-generator.js:243-245 | on a plain template with brace-free values, every token becomes its placeholder's text and literal text is kept |
| TemplateGenerator.MissingFields | resume-to-portfoliov2/template-generator.js:270 | the filter keeps exactly the falsy required members |
| TemplateGenerator.ValidateResumeData | resume-to-portfoliov2/template-generator.js:268-277 | true iff personalInfo and professionalInfo are both present |
| TemplateGenerator.ValidateMessages | resume-to-portfoliov2/template-generator.js:268-277 | the error names exactly the missing members, in listed order |
| TemplateGenerator.PortfolioTemplateGenerator.constructor | resume-to-portfoliov2/template-generator.js:5-52 | every placeholder set to '' |
| TemplateGenerator.PortfolioTemplateGenerator.PopulateTemplate | resume-to-portfoliov2/template-generator.js:171-248 | the object becomes Populated(record) and keeps all 29 keys, so getAvailablePlaceholders is unchanged; the result is the sequential substitution of its entries |
| TemplateGenerator.PortfolioTemplateGenerator.GeneratePortfolio | resume-to-portfoliov2/template-generator.js:251-260 | populates an empty template and returns the values with empty html, css and js |
| TemplateGenerator.PortfolioTemplateGenerator.GetAvailablePlaceholders | resume-to-portfoliov2/template-generator.js:263-265 | exactly the tokens of the held keys; all 29 in creation order for a complete object |
| Replace.ReplaceBeforeFirst | utils/portfolio_generator.py:363 | a text with no occurrence of the pattern before it is kept, the first occurrence is replaced, and the rest is processed the same way |
| Replace.ReplaceAbsent | utils/portfolio_generator.py:333 | replacing an absent pattern changes nothing |
| Replace.ReplaceSelf | utils/portfolio_generator.py:333 | replacing a pattern by itself changes nothing |
| Replace.RemoveChar | resume-to-portfoliov2/portfolio-integration.py:112 | `replace(c, '')` removes every c and keeps every other character |
| Replace.TokenMismatch | utils/portfolio_generator.py:331-333 | a token is never mistaken for the token of another brace-free key |
| Replace.ReplaceRender | utils/portfolio_generator.py:331-333 | one replace of a token fills that token and only it, on a plain template |
| Replace.ReplaceEach | resume-to-portfoliov2/portfolio-integration.py:335-337 | the replace loop applies the table in order |
| Replace.FillAllPieces | utils/portfolio_generator.py:331-333 | a table token becomes its key's first value; every other piece is kept |
| Replace.SubstituteRender | utils/portfolio_generator.py:331-333 | sequential substitution fills every table token and leaves every other token |
| Replace.ChainedReplacement | utils/portfolio_generator.py:331-333 | a value inserted early is rewritten by a later entry |
| Replace.ResidualToken | utils/portfolio_generator.py:331-333 | literal braces around a token can leave a token after substitution |
| Keys.NameBraceFree | resume-to-portfoliov2/template-generator.js:6-51 | no placeholder name holds a brace |
| Text.Strip | utils/portfolio_generator.py:166 | str.strip(): empty iff blank, no whitespace at either end |
| Text.StripInside | utils/portfolio_generator.py:166 | the stripped text is one contiguous slice of the input |
| Text.Words | utils/portfolio_generator.py:168 | str.split(): non-empty words without whitespace; none iff blank |
| Text.FirstWord | config/portfolio_placeholders.py:299-300 | the first word is a prefix of the stripped text ending at a blank |
| Text.FirstWordUnique | config/portfolio_placeholders.py:299-300 | a non-empty whitespace-free prefix of the stripped text that ends at whitespace or at its end is the first word |
| Text.SplitOn | utils/portfolio_generator.py:163 | split('\n'): at least one part and no separator in any part |
| Text.SplitJoin | utils/portfolio_generator.py:163 | joining the parts with the separator gives back the text |
| Text.Lower | resume-to-portfoliov2/portfolio-integration.py:75 | lower-cases each character in place |
| Text.JoinedInOrder | config/portfolio_placeholders.py:327 | each part occurs at its offset in the join, with the separator between consecutive parts |
| Values.ToStrEmpty | utils/portfolio_generator.py:232-234 | str() gives "" exactly for the empty string |
| Values.ToStrIntRoundTrip | utils/portfolio_generator.py:232-234 | str() of a non-negative integer is all digits and reads back as that integer |
| Decimal.NatToString | resume-to-portfoliov2/portfolio-integration.py:313-315 | digits only, leading zero only for 0 |
| Decimal.NatToStringRoundTrip | resume-to-portfoliov2/portfolio-integration.py:313-315 | reading the digits back gives the number |
| Decimal.NatToStringInjective | resume-to-portfoliov2/portfolio-integration.py:313-315 | different numbers render differently |

## Left out

- File system, temporary directories, zip archives, `os.walk` and reading or writing files. Files are
  modelled as (name, content) pairs; the preview takes the index page and stylesheet as options.
- The e-mail and phone regular expressions: their matches are parameters of
  `Generator.ExtractBasicResumeData`.
- The Gemini call that produces the AI answer, and `fill_missing_data_with_ai`. The answer is a parameter
  of `Generator.Validated`.
- Printing and logging in the exception handlers.
- The example data and `__main__` blocks.
- Text.IsSpace, Text.IsUpper, Text.IsAlpha, Text.IsWordChar, Text.Lower: ASCII only, while Python's
  `isspace`, `isupper`, `isalpha`, `lower` and the `\w` class of `re` are Unicode-aware. So
  Generator.LooksLikeName accepts "Ana josé" (the model does not see "josé" as alphabetic, Python
  rejects it for the lower-case j), and Generator.SafeName drops accented letters that Python keeps.
- Placeholders.GetAllPlaceholders: returns a `map`, so the insertion order of the Python dict is not
  modelled. The callers only look keys up.
- The sample data tables SKILLS_DATA, EXPERIENCE_DATA, EDUCATION_DATA and PROJECTS_DATA are not
  transcribed. `Placeholders.GetAllPlaceholders` takes them as a `DataTables` parameter.
- Python values are scalars (`Str`, `Int`, `Bool`, `Null`). Nested lists or dicts as placeholder values,
  and their `str()`, are not modelled. JavaScript numbers are modelled as integers only.
- `Generator.ExtractBasicResumeData`: only the success path is modelled. Its exception handler is not
  reachable for a string input.
- `TemplateGenerator.PortfolioTemplateGenerator.PopulateTemplate`: replacement is literal. `$&`, `$1`
  and similar patterns in a value, which JavaScript's `replace` would expand, are not modelled. The
  29 sequential assignments are modelled as one assignment of the whole object.
- `TemplateGenerator.PortfolioTemplateGenerator.GeneratePortfolio`: the returned object aliases
  `this.placeholders`. The model returns a copy of its value.
- `TemplateGenerator.SkillIcon`: keys inherited from `Object.prototype` (such as `constructor`) are not
  modelled as icon hits.
- `TemplateGenerator.FlatCounts`: every member of `skills` is an array in the model. A non-array member,
  which `flat()` counts as one item, is not modelled.
- Missing fields of experience, education and project records render as `undefined` in JavaScript. The
  model's records always carry strings.
- A JavaScript project without a `technologies` array throws a TypeError. The model's projects always
  have the array.
- `getSkillIcon` and the generators are modelled as functions of the record. `this` is not consulted.
- `Placeholders.Experience`, `Placeholders.Education`, `Placeholders.Project`, `Integration.ProjectRecord`:
  `achievements` is always a list and `technologies` always a list (of strings in `Placeholders.Project`).
  So three cases are not modelled. A present `achievements: None` raises TypeError when iterated. A `None`
  or non-string member of `technologies` raises TypeError in `', '.join`. A truthy non-list `technologies`
  in the integration script is iterated item by item (a string character by character). In the
  placeholder configuration these exceptions propagate out of `get_all_placeholders`.
- `TemplateGenerator.SkillArray`, `TemplateGenerator.Flat`, `TemplateGenerator.SkillCountIsTotal`: the
  `skills` object is a list of (name, array) pairs whose names are assumed distinct, as the keys of a
  JavaScript object are. For a list that repeats a name, `SkillArray` reads the first entry while `Flat`
  counts every entry.
- `Integration.Replacements`: personal-info values, the summary, the current role and the skills are
  modelled as strings. A `None` or other non-string value there, which `str.replace` or `lower()` would
  reject, is not modelled. The one exception is the degree (`Integration.DegreeOf`).

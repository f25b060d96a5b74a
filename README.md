# job-pilot: the text and decision logic, modelled in Dafny

job-pilot has three parts:

- a browser extension that reads a job posting off the current page and fills a popup form;
- a backend that scores a CV against a job's skills and pulls skills and experience lines out of CV text;
- cover-letter writing, from a template or from a language model.

This project models the pure and step-by-step logic of these parts and proves what they promise:

- **the content script** (`Content`):
  - `pickText`, the first-match search over CSS selectors;
  - `cleanText`: non-breaking spaces become spaces, runs of line feeds are collapsed, the ends are trimmed;
  - the choice of site profile from the hostname;
  - the four extractors, after their wait;
  - the `onMessage` listener.
- **skill overlap scoring** (`JobMatcher`):
  - normalised skill sets;
  - the overlap and the missing skills, sorted;
  - the score;
  - the weighted match score, over the reals.
- **the CV parser** (`CvParser`):
  - `extract_skills` and `extract_experience`, as methods with loops, each proved equal to a specification function.
- **the template letter** (`CoverLetterService`):
  - the two summary sentences, the opener and the excerpt;
  - the whole letter, through a model of `textwrap.dedent` (`Textwrap`).
- **the language-model input** (`OpenAiCoverLetter`):
  - `_safe_list`, the caps on skills, highlights and description;
  - the prompt.
  - The model client is a function parameter.
- **the cover-letter routes** (`CoverLetterRoutes`):
  - `_to_object_id`;
  - the CV lookup order;
  - the openai / template fallback and its note;
  - the saved document;
  - the "latest letter" response.
  - The CV collection and the saved letters are the fields of a `Database` class.
- **the popup** (`Popup`):
  - the tab check, `getFormValues` and the required-field guards;
  - `saveCvIdToStorage`, `resetForm` and the reply handling of `extractFromPage`.
  - The form fields, the status line and the stored `cv_id` are the fields of a `PopupForm` class.

Strings are modelled in each side's own units:

- JavaScript strings are sequences of UTF-16 code units (`JsText`), with `trim` over the ECMAScript whitespace set.
- Python strings are Dafny strings of code points (`PyText`), with `strip` over `str.isspace`.
- `Text` holds the sequence operations both sides share: substring search, slicing, trimming, split and join.

Hostnames are matched by plain substring, as the code does. For example, "indeed." also matches an unrelated host that contains those characters. The model keeps that behaviour and does not harden it to domain-suffix matching.

## Model

| member | source | states |
|---|---|---|
| Content.PickText | chrome-extension/content.js:3-10 | the loop returns the trimmed text of the first selector with non-blank text, as `FirstNonBlank` defines it |
| Content.FirstNonBlankIsFirst | chrome-extension/content.js:3-10 | the result is the trimmed text of a selector whose text is non-blank, and no earlier selector has any, so a blank element is passed over; the result is "" exactly when no selector yields text, the empty list included |
| Content.ReplaceNbsp | chrome-extension/content.js:14 | same length, no U+00A0 left, every other code unit unchanged |
| Content.CollapseLeavesNoTriple | chrome-extension/content.js:15 | after collapsing, no three line feeds are adjacent |
| Content.CollapseFixesNoTriple | chrome-extension/content.js:15 | text without three adjacent line feeds is left unchanged |
| Content.CollapseKeepsText | chrome-extension/content.js:15 | collapsing removes only line feeds: the other code units stay, in order |
| Content.CollapseConcat | chrome-extension/content.js:15 | text that does not end in a line feed collapses independently of what follows it |
| Content.CollapseRun | chrome-extension/content.js:15 | a maximal run of k line feeds becomes exactly two line feeds when k >= 3 and is kept as it is when k < 3; the text on either side collapses on its own |
| Content.CleanText | chrome-extension/content.js:12-17 | the result has no U+00A0, no run of three line feeds and no whitespace at either end; null/undefined gives "" |
| Content.TrimKeepsClean | chrome-extension/content.js:16 | trimming keeps text free of U+00A0 and of triple line feeds |
| Content.CleanTextIdempotent | chrome-extension/content.js:12-17 | cleaning cleaned text changes nothing |
| Content.SiteOf | chrome-extension/content.js:43-53 | LinkedIn exactly when the host contains "linkedin.com"; else Indeed exactly when it contains "indeed."; else Glassdoor exactly when it contains "glassdoor."; else generic |
| Content.JobFromTexts | chrome-extension/content.js:89-93 | title and company are cleaned; the description is a prefix of the cleaned text, at most 12000 long, equal to it when it fits and exactly 12000 long otherwise |
| Content.CleanPrefix | chrome-extension/content.js:92 | a prefix of clean text is clean, so the cut description needs no second trim to stay clean |
| Content.JobIsClean | chrome-extension/content.js:89-93 | the record built from any three texts satisfies `CleanRecord` |
| Content.ExtractionIsClean | chrome-extension/content.js:55-198 | every extractor's record is clean and its description is a prefix, at most 12000 long, of the cleaned description text it picked |
| Content.BlankHeadingHidesDocumentTitle | chrome-extension/content.js:177-178 | a whitespace-only `h1` gives the title "" and `document.title` is not consulted |
| Content.HeadingTextIsTitle | chrome-extension/content.js:177-178 | an `h1` with text gives that text, trimmed |
| Content.ExtractVendor | chrome-extension/content.js:55-174 | the LinkedIn, Indeed and Glassdoor extractors return their three picked texts, cleaned, the description cut to 12000 |
| Content.ExtractGeneric | chrome-extension/content.js:176-198 | the generic extractor returns the heading (or document title) and two picked texts, cleaned and cut |
| Content.ExtractJob | chrome-extension/content.js:208-214 | the extractor used is the one `SiteOf` picks for the hostname |
| Content.SelectionReplyOf | chrome-extension/content.js:203-206 | `ok` exactly when the trimmed selection is non-empty; the text is a prefix of the trimmed selection, at most 12000 long, and non-empty when `ok` |
| Content.HandleMessage | chrome-extension/content.js:200-236 | a thrown error replies `ok: false` with its text; the selection request gets the selection reply; the extract request always gets a job reply with its debug flags; any other type gets "Unknown message type" |
| Content.RequestTypesDiffer | chrome-extension/content.js:203-208 | the two request types are different strings |
| Content.ToWire | chrome-extension/content.js:205-229 | the JSON reply has `ok` set exactly for an ok selection or a job; a job reply carries the three fields; an error reply carries its error and no job |
| JobMatcher.SkillSet | app/services/job_matcher.py:38-48 | x is in the set exactly when it is `strip().lower()` of a non-blank entry; "" is never in it |
| JobMatcher.ComputeSkillOverlap | app/services/job_matcher.py:50-61 | no job skills gives empty lists and score 0; otherwise the score is the overlap's share of the job set, in [0, 1], and 1 exactly when the CV covers every job skill |
| JobMatcher.OverlapContents | app/services/job_matcher.py:58-65 | `overlapping` holds exactly the skills in both sets and `missing` exactly the job skills the CV lacks, both strictly ascending |
| JobMatcher.OverlapPartitionsJobSkills | app/services/job_matcher.py:58-59 | the two lists are disjoint, together hold exactly the job set, and their lengths add up to its size |
| JobMatcher.ScoreBounds | app/services/job_matcher.py:61 | the ratio lies in [0, 1] and is 1 exactly when the job set is a subset of the CV set |
| JobMatcher.SortedList | app/services/job_matcher.py:64-65 | `sorted(list(s))` is strictly ascending, holds exactly the elements of `s`, and has its size |
| JobMatcher.SortedListUnique | app/services/job_matcher.py:64-65 | any strictly ascending list of the elements of `s` is `SortedList(s)`, whatever order `list(s)` produced |
| JobMatcher.LessTotal | app/services/job_matcher.py:64 | Python string order is total; with `LessIrreflexive`, `LessAsymmetric` and `LessTransitive` it is a strict total order |
| JobMatcher.MatchScore | app/services/job_matcher.py:96-100 | with both scores in [0, 1], `100*(0.7*s + 0.3*k)` lies in [0, 100] and is 100 exactly when both are 1 |
| JobMatcher.ComputeMatchResult | app/services/job_matcher.py:70-117 | for a semantic score in [0, 1]: the match score lies in [0, 100] and is 100 exactly when the semantic score is 1 and the CV covers a non-empty job set |
| JobMatcher.MatchResultFields | app/services/job_matcher.py:107-117 | the ids, title, company and job skills are passed through; the skill fields are those of `compute_skill_overlap` |
| CvParser.ExtractSkills | app/services/cv_parser.py:34-42 | the method returns the vocabulary filtered on the lower-cased text and capitalized, as `SkillsIn` defines it |
| CvParser.MatchVocabulary | app/services/cv_parser.py:38-41 | the loop appends, in vocabulary order, the capitalized keywords that occur in the text |
| CvParser.SkillsInConcat | app/services/cv_parser.py:38-41 | filtering works keyword by keyword, in vocabulary order |
| CvParser.SkillsInSound | app/services/cv_parser.py:38-40 | every reported skill is the capitalized form of a keyword that occurs in the text |
| CvParser.SkillsInLength | app/services/cv_parser.py:38-41 | at most one skill is reported per keyword |
| CvParser.SkillsInExact | app/services/cv_parser.py:38-41 | over distinct lower-case keywords: `Capitalize(k)` is reported exactly when `k` occurs, and nothing is reported twice |
| CvParser.SkillKeywordsLowerCase | app/services/cv_parser.py:27-32 | every vocabulary word is lower case |
| CvParser.SkillKeywordsDistinct | app/services/cv_parser.py:27-32 | the 20 vocabulary words are distinct |
| CvParser.ExtractSkillsExact | app/services/cv_parser.py:34-42 | keyword `k` is reported, capitalized, exactly when it is a substring of the lower-cased text; every entry comes from such a keyword; there are no duplicates and at most 20 entries |
| CvParser.ExtractSkillsIgnoresCase | app/services/cv_parser.py:35 | `extract_skills(t) == extract_skills(t.lower())` |
| CvParser.CapitalizePowerBi | app/services/cv_parser.py:40 | "power bi" is reported as "Power bi" |
| CvParser.ExtractExperience | app/services/cv_parser.py:44-53 | the loop returns the stripped keyword lines of `text.split("\n")`, in order, as `ExperienceIn` defines it |
| CvParser.ExperienceInConcat | app/services/cv_parser.py:48-51 | lines are handled one at a time and in input order |
| CvParser.ExperienceKeepsKeywordLines | app/services/cv_parser.py:49-51 | every line whose lower-case form has a keyword is kept, stripped |
| CvParser.ExperienceOnlyKeywordLines | app/services/cv_parser.py:49-51 | everything kept is the stripped form of a keyword line, and is itself stripped |
| CvParser.ExperienceInBound | app/services/cv_parser.py:48-51 | there is at most one entry per line |
| CvParser.ExtractExperienceBound | app/services/cv_parser.py:48-51 | there are at most as many entries as newline-separated segments (line feeds + 1) |
| CoverLetterService.SummariseExperience | app/services/cover_letter_service.py:6-14 | the fallback sentence exactly when there is no experience; otherwise it starts "My background includes ", ends with "." and quotes each of the first three entries |
| CoverLetterService.ExperienceSummaryUsesFirstThree | app/services/cover_letter_service.py:13 | the summary depends only on the first three entries |
| CoverLetterService.SummariseSkills | app/services/cover_letter_service.py:17-23 | the fallback sentence exactly when there are no skills; otherwise it starts with the fixed lead-in, ends with "." and quotes each of the first six skills |
| CoverLetterService.SkillsSummaryUsesFirstSix | app/services/cover_letter_service.py:22 | the summary depends only on the first six skills |
| CoverLetterService.Opener | app/services/cover_letter_service.py:31-33 | "I am excited to apply" exactly when the lower-cased tone (default "professional") contains "enthusiastic", else "I am writing to apply" |
| CoverLetterService.DefaultToneWrites | app/services/cover_letter_service.py:31 | a missing or empty tone gives "I am writing to apply" |
| CoverLetterService.OpenerIgnoresCase | app/services/cover_letter_service.py:31-33 | the tone's case does not change the opener |
| CoverLetterService.Excerpt | app/services/cover_letter_service.py:46 | at most the first 220 characters of the description, a prefix of it, then "..." |
| CoverLetterService.BodyLines | app/services/cover_letter_service.py:36-56 | the letter has 19 source lines; the greeting, the opener line, both summaries, the excerpt line and the signature are where the source puts them |
| CoverLetterService.LetterStartsAndEnds | app/services/cover_letter_service.py:35-57 | for every CV and request, line breaks included, the stripped letter starts with "Dear Hiring Manager," and ends with "[Your Name]" |
| CoverLetterService.BodyIsFlush | app/services/cover_letter_service.py:36-56 | with single-line values, every body line is non-blank at its start and has no line break |
| CoverLetterService.LetterExact | app/services/cover_letter_service.py:35-57 | with single-line values, the letter is exactly the source lines without their indentation, joined by line breaks |
| CoverLetterService.LetterContents | app/services/cover_letter_service.py:35-57 | with single-line values, the letter quotes the opener, the job title, the company, both summaries and the excerpt |
| OpenAiCoverLetter.SafeList | app/services/openai_cover_letter.py:8-11 | a missing or empty list gives []; the result is no longer than the input |
| OpenAiCoverLetter.CleanedConcat | app/services/openai_cover_letter.py:11 | entries are cleaned one at a time, in order |
| OpenAiCoverLetter.CleanedExact | app/services/openai_cover_letter.py:11 | s is kept exactly when it is `strip()` of an entry that strips to something; every kept entry is non-empty and stripped |
| OpenAiCoverLetter.CleanedIdempotent | app/services/openai_cover_letter.py:11 | cleaning a cleaned list changes nothing |
| OpenAiCoverLetter.SafeListIdempotent | app/services/openai_cover_letter.py:8-11 | `_safe_list` of its own result gives that result |
| OpenAiCoverLetter.LongEntriesExact | app/services/openai_cover_letter.py:25 | an entry is kept exactly when it is longer than 20 characters |
| OpenAiCoverLetter.PrepareDescription | app/services/openai_cover_letter.py:28-30 | the description is a prefix of the stripped text, at most 2000 long, and equal to it when it fits |
| OpenAiCoverLetter.PrepareInputsBounds | app/services/openai_cover_letter.py:22-30 | at most 10 skills, a prefix of the cleaned list; the highlights are exactly the entries among the first six cleaned ones that are longer than 20, so at most 6; a description of at most 2000 |
| OpenAiCoverLetter.PrepareInputsFromCv | app/services/openai_cover_letter.py:22-25 | every skill and highlight handed to the model is a non-empty stripped CV entry |
| OpenAiCoverLetter.PromptJobLines | app/services/openai_cover_letter.py:36-49 | the prompt has 25 lines; the tone, title, company and description lines carry those values |
| OpenAiCoverLetter.PromptFactLines | app/services/openai_cover_letter.py:52-53 | the skills line joins the skills with ", " and the highlights line joins them with " \| " |
| OpenAiCoverLetter.PromptExact | app/services/openai_cover_letter.py:32-58 | stripping removes exactly the f-string's opening and closing line breaks: the prompt is its lines joined by line breaks |
| OpenAiCoverLetter.PromptQuotesInputs | app/services/openai_cover_letter.py:32-58 | the prompt embeds the tone, title, company and prepared description verbatim after their labels, and the joined skills and highlights |
| OpenAiCoverLetter.GenerateCoverLetterLlm | app/services/openai_cover_letter.py:13-66 | the model is asked with the prompt built from the prepared inputs; a raised client error propagates with its type name; an answer with text gives Ok of that text with only whitespace cut from its ends and none left there, which is its `strip()`; an answer without text gives "" |
| CoverLetterRoutes.ToObjectId | app/api/cover_letter_routes.py:17-21 | an id is returned exactly for 24 hex digits, with 12 bytes; anything else gives None and never raises |
| CoverLetterRoutes.ObjectIdRoundTrip | app/api/cover_letter_routes.py:17-21 | printing an object id and parsing it back gives the same id |
| CoverLetterRoutes.ObjectIdPrintsBack | app/api/cover_letter_routes.py:17-21 | an id that parses prints back as its own digits, lower-cased |
| CoverLetterRoutes.FindOne | app/api/cover_letter_routes.py:40 | `find_one` gives a match exactly when one exists, and then the first one in collection order |
| CoverLetterRoutes.LookupCv | app/api/cover_letter_routes.py:40-46 | the first CV with the request's `cv_id` wins; otherwise the `_id` lookup is tried only when the id parses; otherwise 404 "CV not found" |
| CoverLetterRoutes.LookupWithoutObjectId | app/api/cover_letter_routes.py:41-44 | an id that is not 24 hex digits is found exactly when some CV has that `cv_id` |
| CoverLetterRoutes.Choose | app/api/cover_letter_routes.py:49-67 | mode "openai" with no note exactly when the key is set and the model answers; a failure gives the template letter and "OpenAI failed: " + the error type; no key gives the template letter and no note |
| CoverLetterRoutes.NoKeyIgnoresModel | app/api/cover_letter_routes.py:66-67 | without a key the response is the template letter, mode "template", no note, whatever the model would say |
| CoverLetterRoutes.TemplateLetterFramed | app/api/cover_letter_routes.py:49-67 | whenever the template wrote the letter, it opens with the greeting and closes with the signature (`Framed`) |
| CoverLetterRoutes.SavedDoc | app/api/cover_letter_routes.py:70-81 | the saved document carries the response's text, mode and note, the request's ids, and the tone defaulted to "professional" |
| CoverLetterRoutes.Latest | app/services/cover_letter_repository.py:21-37 | a document is found exactly when one was saved for the job, and then it is the last one saved for it |
| CoverLetterRoutes.LatestResponse | app/api/cover_letter_routes.py:26-34 | nothing saved gives "", "none" and the fixed note; otherwise the text (default ""), the mode (default "template") and the note |
| CoverLetterRoutes.SaveThenLatest | app/api/cover_letter_routes.py:70-83 | right after a save, the latest response for that job is the response just sent |
| CoverLetterRoutes.SaveKeepsOtherJobs | app/api/cover_letter_routes.py:70-81 | saving for one job leaves the latest letter of every other job unchanged |
| CoverLetterRoutes.Database.constructor | app/api/cover_letter_routes.py:13 | the database starts with the given CVs and no saved cover letters |
| CoverLetterRoutes.Database.SaveCoverLetter | app/services/cover_letter_repository.py:10-18 | the document is appended after every earlier one; the CVs are unchanged |
| CoverLetterRoutes.Database.GetLatestCoverLetter | app/api/cover_letter_routes.py:24-34 | the response is `LatestResponse` of the last letter saved for the job |
| CoverLetterRoutes.Database.FindCv | app/api/cover_letter_routes.py:39-46 | the two-step lookup gives `LookupCv` of the stored CVs |
| CoverLetterRoutes.Database.WriteLetter | app/api/cover_letter_routes.py:48-67 | the step-by-step rebinding of `letter`, `mode` and `note` gives the response `Choose` specifies |
| CoverLetterRoutes.Database.GenerateCoverLetter | app/api/cover_letter_routes.py:37-83 | a missing CV gives 404 and saves nothing; otherwise exactly one document is appended, and it carries the same text, mode and note as the response |
| CoverLetterRoutes.GenerateThenLatest | app/api/cover_letter_routes.py:24-83 | after a successful generate, the latest letter for the job is the generated one |
| Popup.TabError | chrome-extension/popup.js:34-41 | "No active tab found." exactly when there is no tab or tab id; otherwise "Cannot extract from browser internal pages." exactly for chrome://, edge:// and about: URLs; otherwise no error |
| Popup.MissingUrlAccepted | chrome-extension/popup.js:36 | a tab with an id and no URL is accepted |
| Popup.TrimValues | chrome-extension/popup.js:72-81 | every field except `tone` is the raw value with only whitespace cut from its two ends and none left there, which is its `trim()`; `tone` is kept as is |
| Popup.TrimValuesIdempotent | chrome-extension/popup.js:72-81 | reading read values changes nothing |
| Popup.ToneNotTrimmed | chrome-extension/popup.js:78 | the tone reaches the request exactly as typed |
| Popup.PopupForm.GetFormValues | chrome-extension/popup.js:72-81 | the form's values are its raw fields, trimmed as `TrimValues` says |
| Popup.FirstMissing | chrome-extension/popup.js:86-88 | no message exactly when every value is present; otherwise the message of the first empty value |
| Popup.SaveCheck | chrome-extension/popup.js:84-95 | passes exactly when `cv_id`, title and description are present; the status warns exactly when the company is empty |
| Popup.SaveCheckReportsFirstMissing | chrome-extension/popup.js:86-88 | the save guard reports the first missing one of `cv_id`, title and description, in that order |
| Popup.GenerateCheck | chrome-extension/popup.js:115-127 | passes exactly when `cv_id`, `job_id`, title and description are present; the status warns exactly when the company is empty |
| Popup.GenerateCheckReportsFirstMissing | chrome-extension/popup.js:117-120 | the generate guard reports the first missing one of `cv_id`, `job_id`, title and description, in that order |
| Popup.CompanyIsOptional | chrome-extension/popup.js:90-95 | the company never decides whether a guard passes, nor which error it reports |
| Popup.GenerateNeedsMoreThanSave | chrome-extension/popup.js:117-120 | a form that passes the generate guard passes the save guard |
| Popup.ReadReply | chrome-extension/popup.js:48-58 | a missing or not-ok reply throws its error, or "Could not extract job from page." when that is empty; an ok reply fills the three fields ("" when missing) and warns exactly when the company is empty |
| Popup.ExtractedJobReachesForm | chrome-extension/popup.js:47-58 | the job the content script extracts reaches the form unchanged, with the warning exactly when it has no company |
| Popup.ScriptErrorShown | chrome-extension/popup.js:48 | a non-empty error from the content script is shown as sent |
| Popup.CvIdEmptyEncoded | chrome-extension/popup.js:24 | the error message is "cv_id is empty." |
| Popup.SavedCvIdStatusEncoded | chrome-extension/popup.js:26 | the status after saving is "Saved CV ID ✅" |
| Popup.LoadedCvIdStatusEncoded | chrome-extension/popup.js:18 | the status after loading is "Loaded saved CV ID ✅" |
| Popup.ClearedStatusEncoded | chrome-extension/popup.js:154 | the status after a reset is "Cleared ✅" |
| Popup.PopupForm.constructor | chrome-extension/popup.js:159-163 | a freshly opened popup has empty fields, the tone selector's value and what storage holds |
| Popup.PopupForm.LoadCvIdFromStorage | chrome-extension/popup.js:14-20 | a stored non-empty `cv_id` fills the field and sets the status; otherwise nothing changes |
| Popup.PopupForm.SaveCvIdToStorage | chrome-extension/popup.js:22-27 | a blank trimmed id gives "cv_id is empty." and writes neither storage nor status; otherwise the trimmed id is stored and the status set; the form fields are unchanged |
| Popup.PopupForm.ResetForm | chrome-extension/popup.js:146-156 | title, company, description, job id and output are cleared; `cvId` is kept exactly when `keepCvId`; the tone is kept and the status is "Cleared ✅" |
| Popup.PopupForm.ExtractFromPage | chrome-extension/popup.js:43-59 | a tab error or a refused reply changes no field and is returned; otherwise the fields and the status are those `ReadReply` gives; the other fields are unchanged |
| Popup.PopupForm.OnExtractClick | chrome-extension/popup.js:174-181 | the status ends as the error message, or as set by a successful extraction; on an error the job fields are unchanged; the CV id, tone, job id, output and stored id are always unchanged |
| Popup.PopupForm.OnSaveCvClick | chrome-extension/popup.js:165-172 | a blank id shows "cv_id is empty." and stores nothing; otherwise the trimmed id is stored and the status says so; every form field is unchanged |
| Popup.SaveThenReload | chrome-extension/popup.js:14-27 | saving a non-blank id and reopening the popup fills the field with the trimmed id |
| Schemas.OrDefault | app/api/cover_letter_routes.py:59 | Python's `x or default`: a non-empty value is kept; None or "" gives the default |
| PyText.StripIdempotent | app/services/job_matcher.py:40 | stripping a stripped string changes nothing |
| PyText.LowerIdempotent | app/services/cv_parser.py:35 | lower-casing a lower-cased string changes nothing |
| PyText.LowerCapitalize | app/services/cv_parser.py:40 | lower-casing the capitalized form of a lower-case word gives the word, so capitalizing is one-to-one on the vocabulary |
| PyText.StripSurroundedJoin | app/services/openai_cover_letter.py:32-58 | stripping lines framed by two empty lines removes exactly those two line breaks, when the first line starts and the last ends with non-whitespace |
| JsText.JsTrim | chrome-extension/content.js:6 | `trim()` leaves no ECMAScript whitespace at either end and never lengthens |
| JsText.DecodeEncode | chrome-extension/popup.js:18-26 | decoding the UTF-16 encoding of any string, astral characters such as emoji included, gives that string back, so the encoding is one-to-one |
| Text.ContainsIffOccurs | app/services/cv_parser.py:39 | `needle in hay` holds exactly when the needle occurs at some index |
| Text.Take | chrome-extension/content.js:92 | `slice(0, n)` / `s[:n]` is a prefix of length min(n, len) |
| Text.TrimBlock | chrome-extension/content.js:16 | the trimmed text is a block of the original, with only whitespace cut on either side |
| Text.TrimPadded | chrome-extension/content.js:16 | a trimmed block padded with whitespace trims back to that block |
| Text.SplitPieces | app/services/cv_parser.py:48 | no piece of `split("\n")` holds a line feed |
| Text.JoinSplit | app/services/cv_parser.py:48 | joining the pieces with the separator gives the text back |
| Text.SplitJoin | app/services/cv_parser.py:48 | splitting a join of separator-free parts gives the parts back |
| Text.SplitCount | app/services/cv_parser.py:48 | there is one more piece than there are separators |
| Text.JoinContainsParts | app/services/cover_letter_service.py:14 | every joined part occurs in the join |
| Textwrap.DedentIndentedBlock | app/services/cover_letter_service.py:35-56 | a block of flush lines, written indented by eight spaces in a triple-quoted string, dedents to itself between two line breaks |
| Textwrap.DedentStripFrame | app/services/cover_letter_service.py:35-57 | whatever the middle lines hold, dedenting and stripping keeps the first and last source lines whole, at the two ends |

## Left out

- `waitForAnySelector` (chrome-extension/content.js:19-41) is left out. It is observer and timer state. Extraction is modelled on one snapshot of the page taken after the wait.
- `innerText` is also left out. The page is a map from selector to the text of the first matching element. Rendering and the document's structure are not modelled.
- In popup.js, `chrome.tabs`, `chrome.storage`, `fetch` and the DOM event wiring are not modelled:
  - the active tab and the content script's reply are parameters;
  - storage is a field of `PopupForm`.
- `useSelectedText` and the backend calls and response handling in `saveTrackedJobViaMatch` and `generateCoverLetter` are left out. Only their guards are modelled.
- Thrown errors in popup.js are returned as values, and the click handlers put them on the status line.
- `compute_semantic_score` (TF-IDF and cosine similarity, a foreign library and floats) is left out. The semantic score is an input.
- The `round` calls in `compute_match_result` are left out. Its scores are reals, not floats.
- `parse_pdf` (PyMuPDF) is left out.
- The OpenAI client is a function parameter that answers or raises an error of a named type. The `OPENAI_MODEL` variable and `max_output_tokens` are not modelled.
- `OPENAI_API_KEY` is an optional string parameter.
  - openai_cover_letter.py:6 builds the client when the module is imported. Going by the SDK's documented behaviour (not executed), that constructor fails when the variable is unset.
  - So the routes' no-key template branch (`KeySet(None)`, `NoKeyIgnoresModel`) is reached in practice only when the variable is set to "".
- MongoDB is the field pair of `Database`: the CVs in collection order, and the saved letters in insertion order.
  - "Latest" is the last saved letter, which the `created_at` sort is there to find.
  - The `created_at` stamp and the `id` renaming are not modelled.
- `bson.ObjectId(str)` is not part of this model. It is assumed to accept exactly 24 hex digits, in either case, and to print lower-case hex.
- Python's `lower()` and `capitalize()` are modelled on ASCII letters only; every other character is left as it is.
  - The inputs they apply to are arbitrary user text: CV and job skills (`SkillSet`), CV text (`ExtractSkills`) and the tone (`Opener`).
  - For non-ASCII text the model and the source differ. Python's "ÉCOLE" lowers to "école", so job_matcher.py counts that skill as matched, while the model scores it as missing.
  - Likewise, "DOC\u212AER" (with the Kelvin sign) lowers to "docker" in Python, so cv_parser.py reports "Docker" where the model reports nothing.
  - Python's "İ".lower() has two code points, while `PyText.Lower` keeps the length.
- `str(x)` on list entries is taken as the identity: the CV's lists are lists of strings.
- Pydantic validation and the TypeScript types are only shapes for the datatypes.
- Authentication, the other routes, the repositories and the React front end are left out.
- Two defects in the repository are left alone:
  - job_matcher.py:75 uses `Optional` without importing it;
  - job_routes.py imports `extract_skills_from_text`, which cv_parser.py does not define.
  - `compute_match_result` is modelled as if the import were there, and job skills are an input.
- CoverLetterService.LetterExact: the exact letter is stated only when no value spans several lines. For other values, `LetterStartsAndEnds` gives only the start and the end, because dedent's margin then depends on the values' own lines.
- CoverLetterService.LetterContents: the same single-line condition applies, for the same reason.

/**
 * The inputs the language-model cover letter is written from (app/services/openai_cover_letter.py):
 * the CV lists cleaned and capped, the job description stripped and cut, and the prompt text
 * that embeds them. The model call itself is a parameter.
 */
module OpenAiCoverLetter {
  import opened Wrappers
  import opened Text
  import opened PyText
  import opened Schemas

  // ---------------------------------------------------------------------------------------
  // _safe_list

  /** One entry, stripped, or nothing when stripping leaves it empty. */
  function Kept(x: string): (r: seq<string>)
    ensures |r| <= 1
  {
    var s := Strip(x);
    if s != [] then [s] else []
  }

  /** The stripped entries that are not empty, in input order. */
  function Cleaned(xs: seq<string>): (r: seq<string>)
    ensures |r| <= |xs|
    decreases |xs|
  {
    if xs == [] then [] else Cleaned(xs[..|xs| - 1]) + Kept(xs[|xs| - 1])
  }

  /** Appending one entry appends what is kept of it. */
  lemma CleanedSnoc(xs: seq<string>, x: string)
    ensures Cleaned(xs + [x]) == Cleaned(xs) + Kept(x)
  {
    var ys := xs + [x];
    assert ys[..|ys| - 1] == xs;
    assert ys[|ys| - 1] == x;
  }

  /** `_safe_list(x)`: a missing or empty list gives `[]`, anything else its cleaned entries. */
  function SafeList(x: Option<seq<string>>): (r: seq<string>)
    ensures x == None || x == Some([]) ==> r == []
    ensures |r| <= |ItemsOf(x)|
  {
    if x.None? || x.value == [] then [] else Cleaned(x.value)
  }

  /** Entries are cleaned one at a time, in order: two blocks give their two results in order. */
  lemma {:induction false} CleanedConcat(a: seq<string>, b: seq<string>)
    ensures Cleaned(a + b) == Cleaned(a) + Cleaned(b)
    decreases |b|
  {
    if b != [] {
      var init := b[..|b| - 1];
      var x := b[|b| - 1];
      assert b == init + [x];
      assert a + b == (a + init) + [x];
      CleanedSnoc(a + init, x);
      CleanedSnoc(init, x);
      CleanedConcat(a, init);
    } else {
      assert a + b == a;
    }
  }

  /**
   * An entry is kept, stripped, exactly when stripping leaves something; every kept entry is
   * non-empty and already stripped.
   */
  lemma {:induction false} CleanedExact(xs: seq<string>)
    ensures forall s :: s in Cleaned(xs) <==> exists x :: x in xs && Strip(x) != [] && s == Strip(x)
    ensures forall s :: s in Cleaned(xs) ==> s != [] && Strip(s) == s
    decreases |xs|
  {
    if xs != [] {
      var init := xs[..|xs| - 1];
      CleanedExact(init);
      assert xs == init + [xs[|xs| - 1]];
      StripIdempotent(xs[|xs| - 1]);
    }
  }

  /** Cleaning what is already clean changes nothing. */
  lemma {:induction false} CleanedIdempotent(xs: seq<string>)
    ensures Cleaned(Cleaned(xs)) == Cleaned(xs)
    decreases |xs|
  {
    if xs != [] {
      var init := xs[..|xs| - 1];
      var x := xs[|xs| - 1];
      var tail := Kept(x);
      CleanedIdempotent(init);
      CleanedConcat(Cleaned(init), tail);
      if tail != [] {
        StripIdempotent(x);
        CleanedSnoc([], Strip(x));
        assert [] + [Strip(x)] == tail;
      }
    }
  }

  /** `_safe_list` applied to its own result gives that result back. */
  lemma SafeListIdempotent(x: Option<seq<string>>)
    ensures SafeList(Some(SafeList(x))) == SafeList(x)
  {
    if x.Some? && x.value != [] {
      CleanedIdempotent(x.value);
    }
  }

  // ---------------------------------------------------------------------------------------
  // The capped inputs (lines 22-30)

  const MaxSkills: nat := 10
  const MaxExperience: nat := 6
  const MinHighlightLength: nat := 20
  const MaxDescriptionLength: nat := 2000

  /** `[e for e in xs if len(e) > 20]` */
  function LongEntries(xs: seq<string>): (r: seq<string>)
    ensures |r| <= |xs|
    decreases |xs|
  {
    if xs == [] then []
    else
      var e := xs[|xs| - 1];
      LongEntries(xs[..|xs| - 1]) + (if |e| > MinHighlightLength then [e] else [])
  }

  /** An entry is kept exactly when it is longer than 20 characters. */
  lemma {:induction false} LongEntriesExact(xs: seq<string>)
    ensures forall e :: e in LongEntries(xs) <==> e in xs && |e| > MinHighlightLength
    decreases |xs|
  {
    if xs != [] {
      var init := xs[..|xs| - 1];
      LongEntriesExact(init);
      assert xs == init + [xs[|xs| - 1]];
    }
  }

  /** The description: stripped, then cut to its first 2000 characters when it is longer. */
  function PrepareDescription(jobDescription: string): (r: string)
    ensures |r| <= MaxDescriptionLength
    ensures r <= Strip(jobDescription)
    ensures |Strip(jobDescription)| <= MaxDescriptionLength ==> r == Strip(jobDescription)
    ensures |Strip(jobDescription)| > MaxDescriptionLength ==> |r| == MaxDescriptionLength
  {
    var d := Strip(jobDescription);
    if |d| > MaxDescriptionLength then d[..MaxDescriptionLength] else d
  }

  /** What the prompt is built from. */
  datatype PromptInputs = PromptInputs(skills: seq<string>, experience: seq<string>, description: string)

  /** Lines 22-30 of `generate_cover_letter_llm`. */
  function PrepareInputs(cv: CvDoc, jobDescription: string): PromptInputs
  {
    PromptInputs(
      Take(SafeList(cv.skills), MaxSkills),
      LongEntries(Take(SafeList(cv.experience), MaxExperience)),
      PrepareDescription(jobDescription))
  }

  /**
   * The skills are the first (at most) ten cleaned CV skills; the experience highlights are
   * exactly those of the first six cleaned entries that are longer than 20 characters, so there
   * are at most six; the description is at most 2000 characters.
   */
  lemma PrepareInputsBounds(cv: CvDoc, jobDescription: string)
    ensures var r := PrepareInputs(cv, jobDescription);
      && |r.skills| <= MaxSkills
      && r.skills <= SafeList(cv.skills)
      && (|SafeList(cv.skills)| <= MaxSkills ==> r.skills == SafeList(cv.skills))
      && |r.experience| <= MaxExperience
      && (forall e :: e in r.experience <==> e in Take(SafeList(cv.experience), MaxExperience) && |e| > MinHighlightLength)
      && |r.description| <= MaxDescriptionLength
  {
    LongEntriesExact(Take(SafeList(cv.experience), MaxExperience));
  }

  /** Every skill and highlight handed to the model is a stripped, non-empty entry of the CV. */
  lemma PrepareInputsFromCv(cv: CvDoc, jobDescription: string)
    ensures var r := PrepareInputs(cv, jobDescription);
      && (forall s :: s in r.skills ==> s != [] && Strip(s) == s && exists x :: x in ItemsOf(cv.skills) && s == Strip(x))
      && (forall e :: e in r.experience ==> e != [] && Strip(e) == e && exists x :: x in ItemsOf(cv.experience) && e == Strip(x))
  {
    var r := PrepareInputs(cv, jobDescription);
    if cv.skills.Some? && cv.skills.value != [] {
      CleanedExact(cv.skills.value);
    }
    if cv.experience.Some? && cv.experience.value != [] {
      CleanedExact(cv.experience.value);
    }
    var exp := Take(SafeList(cv.experience), MaxExperience);
    LongEntriesExact(exp);
    forall s | s in r.skills ensures s in SafeList(cv.skills) {
      var i :| 0 <= i < |r.skills| && r.skills[i] == s;
      assert SafeList(cv.skills)[i] == s;
    }
    forall e | e in exp ensures e in SafeList(cv.experience) {
      var i :| 0 <= i < |exp| && exp[i] == e;
      assert SafeList(cv.experience)[i] == e;
    }
  }

  // ---------------------------------------------------------------------------------------
  // The prompt (lines 32-58)

  /** The prompt's lines between the opening and closing line breaks of the triple-quoted string. */
  function PromptLines(tone: string, jobTitle: string, company: string, inputs: PromptInputs): seq<string>
  {
    PromptRules(tone) + PromptJob(jobTitle, company, inputs.description) + PromptFacts(inputs) + PromptFormat
  }

  /** Lines 0 to 11 of the prompt: the role and the constraints. */
  function PromptRules(tone: string): (r: seq<string>)
    ensures |r| == 12 && r[3] == "- Tone: " + tone
  {
    [ RoleLine, "", "Constraints:", "- Tone: " + tone, LengthRule, PlainTextRule, NoInventionRule,
      ListedOnlyRule, MissingSkillRule, PreviousRoleRule, NoCopyRule, RelevanceRule ]
  }

  const RoleLine: string := "You are an expert career assistant. " + "Write a tailored cover letter in plain text."
  const LengthRule: string := "- 180–240 words"
  const PlainTextRule: string := "- Plain text only (no markdown, " + "no bullet points)"
  const NoInventionRule: string := "- Do NOT invent skills, tools, " + "employers, or years of experience"
  const ListedOnlyRule: string := "- ONLY reference technologies " + "explicitly listed in CV facts"
  const MissingSkillRule: string :=
    "- If a required job skill is missing " + "from CV facts, mention willingness " + "to learn instead"
  const PreviousRoleRule: string := "- Do NOT say \"previous role\" unless " + "a role appears in experience highlights"
  const NoCopyRule: string := "- Do NOT copy sentences from " + "the job description"
  const RelevanceRule: string := "- Keep content relevant to " + "frontend/backend software engineering"

  /** Lines 12 to 16 of the prompt: the job. */
  function PromptJob(jobTitle: string, company: string, description: string): (r: seq<string>)
    ensures |r| == 5 && r[2] == "Title: " + jobTitle && r[3] == "Company: " + company
    ensures r[4] == "Job Description: " + description
  {
    [ "",
      "Job:",
      "Title: " + jobTitle,
      "Company: " + company,
      "Job Description: " + description ]
  }

  /** Lines 17 to 20 of the prompt: the CV facts. */
  function PromptFacts(inputs: PromptInputs): (r: seq<string>)
    ensures |r| == 4 && r[2] == "Skills: " + Join(inputs.skills, ", ")
    ensures r[3] == "Experience highlights: " + Join(inputs.experience, " | ")
  {
    [ "",
      "CV facts:",
      "Skills: " + Join(inputs.skills, ", "),
      "Experience highlights: " + Join(inputs.experience, " | ") ]
  }

  /** Lines 21 to 24 of the prompt: the output format. */
  const PromptFormat: seq<string> := [
    "",
    "Output format:",
    "- Start with \"Dear Hiring Manager,\"",
    "- End with \"Kind regards,\" " + "then \"[Your Name]\"" ]

  /** The f-string, which opens and closes with a line break, then stripped. */
  function Prompt(tone: string, jobTitle: string, company: string, inputs: PromptInputs): string
  {
    Strip(Join([""] + PromptLines(tone, jobTitle, company, inputs) + [""], "\n"))
  }

  lemma PromptEnds(tone: string, jobTitle: string, company: string, inputs: PromptInputs)
    ensures var lines := PromptLines(tone, jobTitle, company, inputs);
      && lines != [] && lines[0] != [] && !IsPyWhitespace(lines[0][0])
      && lines[|lines| - 1] != [] && !IsPyWhitespace(lines[|lines| - 1][|lines[|lines| - 1]| - 1])
  {
    var lines := PromptLines(tone, jobTitle, company, inputs);
    assert lines[0][0] == 'Y';
    var last := lines[|lines| - 1];
    assert last[|last| - 1] == '"';
  }

  /** Stripping removes exactly the opening and closing line breaks: the prompt is its lines, one per line. */
  lemma PromptExact(tone: string, jobTitle: string, company: string, inputs: PromptInputs)
    ensures Prompt(tone, jobTitle, company, inputs) == Join(PromptLines(tone, jobTitle, company, inputs), "\n")
  {
    PromptEnds(tone, jobTitle, company, inputs);
    StripSurroundedJoin(PromptLines(tone, jobTitle, company, inputs));
  }

  /** The prompt holds line `i` of its lines, whatever the values put into it. */
  lemma PromptHasLine(tone: string, jobTitle: string, company: string, inputs: PromptInputs, i: nat)
    requires i < |PromptLines(tone, jobTitle, company, inputs)|
    ensures Contains(Prompt(tone, jobTitle, company, inputs), PromptLines(tone, jobTitle, company, inputs)[i])
  {
    PromptEnds(tone, jobTitle, company, inputs);
    StrippedJoinHasLine(PromptLines(tone, jobTitle, company, inputs), i);
  }

  /** Stripping a join framed by two empty lines keeps every line whole. */
  lemma StrippedJoinHasLine(body: seq<string>, i: nat)
    requires TrimmedEnds(body) && i < |body|
    ensures Contains(Strip(Join([""] + body + [""], "\n")), body[i])
  {
    StripSurroundedJoin(body);
    JoinContainsParts(body, "\n", i);
  }

  /** The lines of the prompt that carry the tone and the job. */
  lemma PromptJobLines(tone: string, jobTitle: string, company: string, inputs: PromptInputs)
    ensures var lines := PromptLines(tone, jobTitle, company, inputs);
      && |lines| == 25
      && lines[3] == "- Tone: " + tone
      && lines[14] == "Title: " + jobTitle
      && lines[15] == "Company: " + company
      && lines[16] == "Job Description: " + inputs.description
  {
    var head := PromptRules(tone) + PromptJob(jobTitle, company, inputs.description);
    var lines := PromptLines(tone, jobTitle, company, inputs);
    assert lines == head + PromptFacts(inputs) + PromptFormat;
    assert |head| == 17;
    assert head[3] == PromptRules(tone)[3];
    assert head[14] == PromptJob(jobTitle, company, inputs.description)[2];
    assert head[15] == PromptJob(jobTitle, company, inputs.description)[3];
    assert head[16] == PromptJob(jobTitle, company, inputs.description)[4];
  }

  /** The lines of the prompt that carry the CV facts. */
  lemma PromptFactLines(tone: string, jobTitle: string, company: string, inputs: PromptInputs)
    ensures var lines := PromptLines(tone, jobTitle, company, inputs);
      && |lines| == 25
      && lines[19] == "Skills: " + Join(inputs.skills, ", ")
      && lines[20] == "Experience highlights: " + Join(inputs.experience, " | ")
  {
    var head := PromptRules(tone) + PromptJob(jobTitle, company, inputs.description);
    var lines := PromptLines(tone, jobTitle, company, inputs);
    assert lines == head + PromptFacts(inputs) + PromptFormat;
    assert |head| == 17;
    assert lines[19] == PromptFacts(inputs)[2];
    assert lines[20] == PromptFacts(inputs)[3];
  }

  lemma PromptQuotesTone(tone: string, jobTitle: string, company: string, inputs: PromptInputs)
    ensures Contains(Prompt(tone, jobTitle, company, inputs), "- Tone: " + tone)
  {
    PromptJobLines(tone, jobTitle, company, inputs);
    PromptHasLine(tone, jobTitle, company, inputs, 3);
  }

  lemma PromptQuotesTitle(tone: string, jobTitle: string, company: string, inputs: PromptInputs)
    ensures Contains(Prompt(tone, jobTitle, company, inputs), "Title: " + jobTitle)
  {
    PromptJobLines(tone, jobTitle, company, inputs);
    PromptHasLine(tone, jobTitle, company, inputs, 14);
  }

  lemma PromptQuotesCompany(tone: string, jobTitle: string, company: string, inputs: PromptInputs)
    ensures Contains(Prompt(tone, jobTitle, company, inputs), "Company: " + company)
  {
    PromptJobLines(tone, jobTitle, company, inputs);
    PromptHasLine(tone, jobTitle, company, inputs, 15);
  }

  lemma PromptQuotesDescription(tone: string, jobTitle: string, company: string, inputs: PromptInputs)
    ensures Contains(Prompt(tone, jobTitle, company, inputs), "Job Description: " + inputs.description)
  {
    PromptJobLines(tone, jobTitle, company, inputs);
    PromptHasLine(tone, jobTitle, company, inputs, 16);
  }

  lemma PromptQuotesSkills(tone: string, jobTitle: string, company: string, inputs: PromptInputs)
    ensures Contains(Prompt(tone, jobTitle, company, inputs), "Skills: " + Join(inputs.skills, ", "))
  {
    PromptFactLines(tone, jobTitle, company, inputs);
    PromptHasLine(tone, jobTitle, company, inputs, 19);
  }

  lemma PromptQuotesExperience(tone: string, jobTitle: string, company: string, inputs: PromptInputs)
    ensures Contains(Prompt(tone, jobTitle, company, inputs), "Experience highlights: " + Join(inputs.experience, " | "))
  {
    PromptFactLines(tone, jobTitle, company, inputs);
    PromptHasLine(tone, jobTitle, company, inputs, 20);
  }

  /**
   * The prompt embeds the tone, the title, the company and the prepared description verbatim,
   * each after its label, and lists the skills and highlights it was given.
   */
  lemma PromptQuotesInputs(tone: string, jobTitle: string, company: string, inputs: PromptInputs)
    ensures var p := Prompt(tone, jobTitle, company, inputs);
      && Contains(p, "- Tone: " + tone)
      && Contains(p, "Title: " + jobTitle)
      && Contains(p, "Company: " + company)
      && Contains(p, "Job Description: " + inputs.description)
      && Contains(p, "Skills: " + Join(inputs.skills, ", "))
      && Contains(p, "Experience highlights: " + Join(inputs.experience, " | "))
  {
    PromptQuotesTone(tone, jobTitle, company, inputs);
    PromptQuotesTitle(tone, jobTitle, company, inputs);
    PromptQuotesCompany(tone, jobTitle, company, inputs);
    PromptQuotesDescription(tone, jobTitle, company, inputs);
    PromptQuotesSkills(tone, jobTitle, company, inputs);
    PromptQuotesExperience(tone, jobTitle, company, inputs);
  }

  // ---------------------------------------------------------------------------------------
  // generate_cover_letter_llm

  /** What the model client does with a prompt: it answers, possibly with no text, or raises an error of some type. */
  datatype LlmOutcome = Answered(outputText: Option<string>) | Raised(errorType: string)

  /**
   * `generate_cover_letter_llm(...)` with the client given as `respond`: the prompt built from
   * the prepared inputs is sent; a raised error propagates with its type name; otherwise the
   * answer's text, or `""` when it has none, is returned stripped.
   */
  function GenerateCoverLetterLlm(cv: CvDoc, jobTitle: string, company: string, jobDescription: string,
                                  tone: string, respond: string -> LlmOutcome): (r: Result<string, string>)
    ensures var answer := respond(Prompt(tone, jobTitle, company, PrepareInputs(cv, jobDescription)));
      && (answer.Raised? ==> r == Err(answer.errorType))
      && (answer.Answered? ==> r.Ok? && IsTrimmed(r.value, IsPyWhitespace))
      && (answer == Answered(None) ==> r == Ok(""))
      && (answer.Answered? && answer.outputText.Some? ==> r.Ok? && TrimOf(answer.outputText.value, r.value, IsPyWhitespace))
  {
    var prompt := Prompt(tone, jobTitle, company, PrepareInputs(cv, jobDescription));
    match respond(prompt)
    case Raised(t) => Err(t)
    case Answered(text) =>
      TrimIsTrimOf(text.GetOr(""), IsPyWhitespace);
      Ok(Strip(text.GetOr("")))
  }
}

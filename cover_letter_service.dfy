/**
 * The template cover letter (app/services/cover_letter_service.py): two summary sentences built
 * from the stored CV, an opener chosen by tone, an excerpt of the job description, and a fixed
 * letter written as an indented triple-quoted string that is dedented and stripped.
 */
module CoverLetterService {
  import opened Wrappers
  import opened Text
  import opened PyText
  import opened Textwrap
  import opened Schemas

  // ---------------------------------------------------------------------------------------
  // The summaries

  const ExperienceFallback: string := 
    "I have experience in technical and " + "customer-facing roles that align with " + "this position."
  const ExperiencePrefix: string := "My background includes "
  const SkillsFallback: string := 
    "I bring strong problem-solving skills " + "and a willingness to learn quickly."
  const SkillsPrefix: string := "Some of the key skills I would " + "bring to this role are: "

  /**
   * `_summarise_experience`: the fallback sentence exactly when there is no experience;
   * otherwise a sentence that starts "My background includes ", ends with "." and quotes each
   * of the first three entries.
   */
  function SummariseExperience(cv: CvDoc): (r: string)
    ensures var exp := ItemsOf(cv.experience);
      && (r == ExperienceFallback <==> exp == [])
      && (exp != [] ==> ExperiencePrefix <= r && r[|r| - 1] == '.')
      && (forall k :: 0 <= k < |exp| && k < 3 ==> Contains(r, exp[k]))
  {
    var exp := ItemsOf(cv.experience);
    if exp == [] then ExperienceFallback
    else
      var lines := Take(exp, 3);
      var r := ExperiencePrefix + Join(lines, "; ") + ".";
      assert r[0] == ExperiencePrefix[0] == 'M' && ExperienceFallback[0] == 'I';
      forall k | 0 <= k < |exp| && k < 3 ensures Contains(r, exp[k]) {
        assert lines[k] == exp[k];
        JoinContainsParts(lines, "; ", k);
        ContainsWithin(ExperiencePrefix, Join(lines, "; "), ".", exp[k]);
      }
      r
  }

  /** The experience summary reads only the first three entries. */
  lemma ExperienceSummaryUsesFirstThree(a: CvDoc, b: CvDoc)
    requires Take(ItemsOf(a.experience), 3) == Take(ItemsOf(b.experience), 3)
    ensures SummariseExperience(a) == SummariseExperience(b)
  {
    if ItemsOf(a.experience) == [] {
      assert Take(ItemsOf(b.experience), 3) == [];
    }
  }

  /**
   * `_summarise_skills`: the fallback sentence exactly when there are no skills; otherwise a
   * sentence that starts "Some of the key skills I would " + "bring to this role are: ", ends with
   * "." and quotes each of the first six skills.
   */
  function SummariseSkills(cv: CvDoc): (r: string)
    ensures var skills := ItemsOf(cv.skills);
      && (r == SkillsFallback <==> skills == [])
      && (skills != [] ==> SkillsPrefix <= r && r[|r| - 1] == '.')
      && (forall k :: 0 <= k < |skills| && k < 6 ==> Contains(r, skills[k]))
  {
    var skills := ItemsOf(cv.skills);
    if skills == [] then SkillsFallback
    else
      var top := Take(skills, 6);
      var r := SkillsPrefix + Join(top, ", ") + ".";
      assert r[0] == SkillsPrefix[0] == 'S' && SkillsFallback[0] == 'I';
      forall k | 0 <= k < |skills| && k < 6 ensures Contains(r, skills[k]) {
        assert top[k] == skills[k];
        JoinContainsParts(top, ", ", k);
        ContainsWithin(SkillsPrefix, Join(top, ", "), ".", skills[k]);
      }
      r
  }

  /** The skills summary reads only the first six skills. */
  lemma SkillsSummaryUsesFirstSix(a: CvDoc, b: CvDoc)
    requires Take(ItemsOf(a.skills), 6) == Take(ItemsOf(b.skills), 6)
    ensures SummariseSkills(a) == SummariseSkills(b)
  {
    if ItemsOf(a.skills) == [] {
      assert Take(ItemsOf(b.skills), 6) == [];
    }
  }

  // ---------------------------------------------------------------------------------------
  // The opener and the excerpt

  const ExcitedOpener: string := "I am excited " + "to apply"
  const WritingOpener: string := "I am writing " + "to apply"

  /** `"enthusiastic" in (tone or "professional").lower()` */
  predicate Enthusiastic(tone: Option<string>)
  {
    Contains(Lower(OrDefault(tone, "professional")), "enthusiastic")
  }

  /** The opener: the excited one exactly when the lower-cased tone mentions "enthusiastic". */
  function Opener(tone: Option<string>): (r: string)
    ensures r == ExcitedOpener <==> Enthusiastic(tone)
    ensures r == WritingOpener <==> !Enthusiastic(tone)
  {
    assert ExcitedOpener[5] != WritingOpener[5];
    if Enthusiastic(tone) then ExcitedOpener else WritingOpener
  }

  /** A missing or empty tone counts as "professional", which does not mention "enthusiastic". */
  lemma DefaultToneWrites(tone: Option<string>)
    requires tone == None || tone == Some("")
    ensures Opener(tone) == WritingOpener
  {
    var t := Lower("professional");
    assert t == "professional";
    if Contains(t, "enthusiastic") {
      assert !("enthusiastic" <= t) by { assert t[0] != "enthusiastic"[0]; }
      ContainsShorter(t[1..], "enthusiastic");
    }
  }

  /** The tone is compared lower-cased, so its case does not matter. */
  lemma OpenerIgnoresCase(tone: string)
    ensures Opener(Some(Lower(tone))) == Opener(Some(tone))
  {
    LowerIdempotent(tone);
  }

  const ExcerptLength: nat := 220

  /** The quoted excerpt: at most the first 220 characters of the description, then "...". */
  function Excerpt(description: string): (r: string)
    ensures |r| == (if |description| <= ExcerptLength then |description| else ExcerptLength) + 3
    ensures r[..|r| - 3] <= description && r[|r| - 3..] == "..."
  {
    var cut := Take(description, ExcerptLength);
    assert (cut + "...")[..|cut|] == cut;
    cut + "..."
  }

  // ---------------------------------------------------------------------------------------
  // The letter

  const Greeting: string := "Dear Hiring " + "Manager,"
  const Signature: string := "[Your Name]"
  const FitLine: string := FitHead + FitTail
  const FitHead: string := "I believe my " + "background and " + "experience make "
  const FitTail: string := "me a strong fit " + "for this " + "opportunity."
  const HighlightLine: string := HighlightHead + HighlightTail
  const HighlightHead: string := "In your job " + "description, "
  const HighlightTail: string := "you highlight " + "the importance " + "of:"
  const ConfidentLine: string := ConfidentHead + ConfidentTail
  const ConfidentHead: string := "I am confident " + "that I can " + "quickly ramp "
  const ConfidentTail: string := "up, collaborate " + "effectively " + "with your team, " + "and contribute "
  const DeliveringLine: string := DeliveringHead + DeliveringTail
  const DeliveringHead: string := "to delivering a " + "great " + "experience for "
  const DeliveringTail: string := "your users and " + "stakeholders."
  const ThanksLine: string := ThanksHead + ThanksTail
  const ThanksHead: string := "Thank you for " + "taking the time " + "to review my "
  const ThanksTail: string := "application. I " + "would welcome " + "the opportunity " + "to discuss "
  const RegardsLine: string := "Kind regards,"
  const ReviewTail: string := ". After " + "reviewing the " + "job " + "description, "
  const SupportHead: string := "how my " + "experience and " + "skills can " + "support "
  const GoalsTail: string := "'s goals in " + "more detail."

  /** The letter's lines as written in the source, each without the eight-space indent of the triple-quoted string. */
  function LetterBody(opener: string, title: string, company: string, experience: string,
                      skills: string, excerpt: string): seq<string>
  {
    LetterOpening(opener, title, company) + LetterMiddle(experience, skills, excerpt) + LetterClosing(company)
  }

  /** Lines 0 to 4: the greeting and the opening paragraph. */
  function LetterOpening(opener: string, title: string, company: string): seq<string>
  {
    [ Greeting,
      "",
      opener + " for the " + title + " position at " + company + ReviewTail,
      FitLine,
      "" ]
  }

  /** Lines 5 to 10: the two summaries and the quoted excerpt. */
  function LetterMiddle(experience: string, skills: string, excerpt: string): seq<string>
  {
    [ experience,
      skills,
      "",
      HighlightLine,
      "- " + excerpt,
      "" ]
  }

  /** Lines 11 to 18: the closing paragraphs and the signature. */
  function LetterClosing(company: string): seq<string>
  {
    [ ConfidentLine,
      DeliveringLine,
      "",
      ThanksLine,
      SupportHead + company + GoalsTail,
      "",
      RegardsLine,
      Signature ]
  }

  function BodyOf(cv: CvDoc, req: CoverLetterRequest): seq<string>
  {
    LetterBody(Opener(req.tone), req.jobTitle, req.company, SummariseExperience(cv), SummariseSkills(cv),
               Excerpt(req.jobDescription))
  }

  /** The letter written from a body: the triple-quoted block, dedented, then stripped. */
  function LetterOf(body: seq<string>): string
  {
    Strip(Dedent(Join(Block(body), "\n")))
  }

  /** `generate_cover_letter_text(cv_doc, req)` */
  function GenerateCoverLetterText(cv: CvDoc, req: CoverLetterRequest): string
  {
    LetterOf(BodyOf(cv, req))
  }

  lemma GreetingAndSignatureFrame()
    ensures Greeting != [] && '\n' !in Greeting && !IsPyWhitespace(Greeting[0]) && !IsPyWhitespace(Greeting[|Greeting| - 1])
    ensures Signature != [] && '\n' !in Signature && !IsPyWhitespace(Signature[0]) && !IsPyWhitespace(Signature[|Signature| - 1])
  {
  }

  /** The lines of the body that the lemmas below look at. */
  lemma BodyLines(cv: CvDoc, req: CoverLetterRequest)
    ensures var body := BodyOf(cv, req);
      && |body| == 19 && body[0] == Greeting && body[18] == Signature
      && body[2] == Opener(req.tone) + " for the " + req.jobTitle + " position at " + req.company + ReviewTail
      && body[5] == SummariseExperience(cv) && body[6] == SummariseSkills(cv)
      && body[9] == "- " + Excerpt(req.jobDescription)
  {
    var opening := LetterOpening(Opener(req.tone), req.jobTitle, req.company);
    var middle := LetterMiddle(SummariseExperience(cv), SummariseSkills(cv), Excerpt(req.jobDescription));
    var closing := LetterClosing(req.company);
    var body := BodyOf(cv, req);
    assert body == opening + middle + closing;
    assert |opening| == 5 && |middle| == 6 && |closing| == 8;
    assert body[0] == opening[0] && body[2] == opening[2];
    assert body[5] == middle[0] && body[6] == middle[1] && body[9] == middle[4];
    assert body[18] == closing[7];
  }

  /** The letter starts with the greeting and ends with the signature. */
  predicate Framed(letter: string)
  {
    && |letter| >= |Greeting| + |Signature|
    && letter[..|Greeting|] == Greeting
    && letter[|letter| - |Signature|..] == Signature
  }

  /** A body that opens with the greeting and closes with the signature gives a letter framed by them. */
  lemma FramedLetter(body: seq<string>)
    requires |body| >= 3 && body[0] == Greeting && body[|body| - 1] == Signature
    ensures Framed(LetterOf(body))
  {
    GreetingAndSignatureFrame();
    var middle := DedentStripFrame(body);
    var letter := Greeting + middle + Signature;
    assert letter[..|Greeting|] == Greeting;
    assert letter[|letter| - |Signature|..] == Signature;
  }

  /**
   * Whatever the CV and the request hold, line breaks included, the letter starts with
   * "Dear Hiring Manager," and ends with "[Your Name]".
   */
  lemma LetterStartsAndEnds(cv: CvDoc, req: CoverLetterRequest)
    ensures Framed(GenerateCoverLetterText(cv, req))
  {
    BodyLines(cv, req);
    FramedLetter(BodyOf(cv, req));
  }

  /** No value placed into the letter spans more than one line. */
  predicate SingleLineFields(cv: CvDoc, req: CoverLetterRequest)
  {
    && '\n' !in req.jobTitle && '\n' !in req.company && '\n' !in Excerpt(req.jobDescription)
    && '\n' !in SummariseExperience(cv) && '\n' !in SummariseSkills(cv)
  }

  lemma SummariesStartFlush(cv: CvDoc)
    ensures !IsMarginChar(SummariseExperience(cv)[0]) && !IsMarginChar(SummariseSkills(cv)[0])
  {
    var e := SummariseExperience(cv);
    var k := SummariseSkills(cv);
    if ItemsOf(cv.experience) == [] {
      assert e[0] == 'I';
    } else {
      assert e[0] == ExperiencePrefix[0];
    }
    if ItemsOf(cv.skills) == [] {
      assert k[0] == 'I';
    } else {
      assert k[0] == SkillsPrefix[0];
    }
  }

  /** Every line is flush. */
  predicate AllFlush(lines: seq<string>)
  {
    forall i :: 0 <= i < |lines| ==> FlushLine(lines[i])
  }

  lemma AllFlushConcat(a: seq<string>, b: seq<string>)
    requires AllFlush(a) && AllFlush(b)
    ensures AllFlush(a + b)
  {
    forall i | 0 <= i < |a + b| ensures FlushLine((a + b)[i]) {
      if i >= |a| {
        assert (a + b)[i] == b[i - |a|];
      }
    }
  }

  lemma NoBreakConcat(a: string, b: string)
    requires '\n' !in a && '\n' !in b
    ensures '\n' !in a + b
  {
  }

  lemma GreetingFlush()
    ensures FlushLine(Greeting)
  {
    assert '\n' !in "Dear Hiring ";
    assert '\n' !in "Manager,";
    assert Greeting == "Dear Hiring " + "Manager,";
  }

  lemma SignatureFlush()
    ensures FlushLine(Signature)
  {
  }

  lemma FitFlush()
    ensures FlushLine(FitLine)
  {
    NoBreakConcat(FitHead, FitTail);
  }

  lemma HighlightFlush()
    ensures FlushLine(HighlightLine)
  {
    NoBreakConcat(HighlightHead, HighlightTail);
  }

  lemma ConfidentFlush()
    ensures FlushLine(ConfidentLine)
  {
    ConfidentTailNoBreak();
    NoBreakConcat(ConfidentHead, ConfidentTail);
  }

  lemma ConfidentTailNoBreak()
    ensures '\n' !in ConfidentTail
  {
    NoBreakConcat("up, collaborate " + "effectively ", "with your team, " + "and contribute ");
  }

  lemma DeliveringFlush()
    ensures FlushLine(DeliveringLine)
  {
    NoBreakConcat(DeliveringHead, DeliveringTail);
  }

  lemma ThanksFlush()
    ensures FlushLine(ThanksLine)
  {
    ThanksTailNoBreak();
    NoBreakConcat(ThanksHead, ThanksTail);
  }

  lemma ThanksTailNoBreak()
    ensures '\n' !in ThanksTail
  {
    NoBreakConcat("application. I " + "would welcome ", "the opportunity " + "to discuss ");
  }

  lemma RegardsFlush()
    ensures FlushLine(RegardsLine)
  {
  }

  /** The fixed pieces around the company and the title hold no line break. */
  lemma PiecesNoBreak()
    ensures '\n' !in " for the " && '\n' !in " position at " && '\n' !in ReviewTail
    ensures '\n' !in SupportHead && '\n' !in GoalsTail
  {
    ReviewTailNoBreak();
    SupportHeadNoBreak();
  }

  lemma ReviewTailNoBreak()
    ensures '\n' !in ReviewTail
  {
    NoBreakConcat(". After " + "reviewing the ", "job " + "description, ");
  }

  lemma SupportHeadNoBreak()
    ensures '\n' !in SupportHead
  {
    NoBreakConcat("how my " + "experience and ", "skills can " + "support ");
  }

  lemma OpeningFlush(opener: string, title: string, company: string)
    requires opener != [] && !IsMarginChar(opener[0]) && '\n' !in opener
    requires '\n' !in title && '\n' !in company
    ensures AllFlush(LetterOpening(opener, title, company))
  {
    var line := opener + " for the " + title + " position at " + company + ReviewTail;
    PiecesNoBreak();
    NoBreakConcat(opener, " for the ");
    NoBreakConcat(opener + " for the ", title);
    NoBreakConcat(opener + " for the " + title, " position at ");
    NoBreakConcat(opener + " for the " + title + " position at ", company);
    NoBreakConcat(opener + " for the " + title + " position at " + company, ReviewTail);
    assert line[0] == opener[0];
    GreetingFlush();
    FitFlush();
    var lines := LetterOpening(opener, title, company);
    forall i | 0 <= i < |lines| ensures FlushLine(lines[i]) {
      assert i in {0, 1, 2, 3, 4};
    }
  }

  lemma MiddleFlush(experience: string, skills: string, excerpt: string)
    requires FlushLine(experience) && FlushLine(skills) && '\n' !in excerpt
    ensures AllFlush(LetterMiddle(experience, skills, excerpt))
  {
    NoBreakConcat("- ", excerpt);
    HighlightFlush();
    var lines := LetterMiddle(experience, skills, excerpt);
    forall i | 0 <= i < |lines| ensures FlushLine(lines[i]) {
      assert i in {0, 1, 2, 3, 4, 5};
    }
  }

  lemma ClosingFlush(company: string)
    requires '\n' !in company
    ensures AllFlush(LetterClosing(company))
  {
    PiecesNoBreak();
    NoBreakConcat(SupportHead, company);
    NoBreakConcat(SupportHead + company, GoalsTail);
    ConfidentFlush();
    DeliveringFlush();
    ThanksFlush();
    RegardsFlush();
    SignatureFlush();
    var lines := LetterClosing(company);
    forall i | 0 <= i < |lines| ensures FlushLine(lines[i]) {
      assert i in {0, 1, 2, 3, 4, 5, 6, 7};
    }
  }

  lemma LetterBodyFlush(opener: string, title: string, company: string, experience: string,
                         skills: string, excerpt: string)
    requires opener != [] && !IsMarginChar(opener[0]) && '\n' !in opener
    requires '\n' !in title && '\n' !in company && '\n' !in excerpt
    requires FlushLine(experience) && FlushLine(skills)
    ensures AllFlush(LetterBody(opener, title, company, experience, skills, excerpt))
  {
    OpeningFlush(opener, title, company);
    MiddleFlush(experience, skills, excerpt);
    ClosingFlush(company);
    AllFlushConcat(LetterOpening(opener, title, company), LetterMiddle(experience, skills, excerpt));
    AllFlushConcat(LetterOpening(opener, title, company) + LetterMiddle(experience, skills, excerpt),
                   LetterClosing(company));
  }

  /** Both openers are single lines starting with "I". */
  lemma OpenerFlush(tone: Option<string>)
    ensures var o := Opener(tone); o != [] && o[0] == 'I' && '\n' !in o
  {
    NoBreakConcat("I am excited ", "to apply");
    NoBreakConcat("I am writing ", "to apply");
  }

  /** With single-line values every line of the letter is flush, so dedent gives the body back. */
  lemma BodyIsFlush(cv: CvDoc, req: CoverLetterRequest)
    requires SingleLineFields(cv, req)
    ensures AllFlush(BodyOf(cv, req))
  {
    SummariesStartFlush(cv);
    var opener := Opener(req.tone);
    OpenerFlush(req.tone);
    LetterBodyFlush(opener, req.jobTitle, req.company, SummariseExperience(cv), SummariseSkills(cv),
                    Excerpt(req.jobDescription));
  }

  /** A flush body framed by the greeting and the signature is written out line for line. */
  lemma FlushLetterExact(body: seq<string>)
    requires TrimmedEnds(body) && AllFlush(body)
    ensures LetterOf(body) == Join(body, "\n")
  {
    DedentIndentedBlock(body);
    StripSurroundedJoin(body);
  }

  /**
   * When no value spans more than one line, the letter is exactly the source's lines without
   * their indentation, one per line.
   */
  lemma LetterExact(cv: CvDoc, req: CoverLetterRequest)
    requires SingleLineFields(cv, req)
    ensures GenerateCoverLetterText(cv, req) == Join(BodyOf(cv, req), "\n")
  {
    BodyIsFlush(cv, req);
    BodyTrimmedEnds(cv, req);
    FlushLetterExact(BodyOf(cv, req));
  }

  /** The body opens with the greeting and closes with the signature, neither padded. */
  lemma BodyTrimmedEnds(cv: CvDoc, req: CoverLetterRequest)
    ensures TrimmedEnds(BodyOf(cv, req))
  {
    BodyLines(cv, req);
    GreetingAndSignatureFrame();
  }

  /** The third line quotes the opener, the job title and the company. */
  lemma OpenerLineQuotes(opener: string, title: string, company: string)
    ensures var line := opener + " for the " + title + " position at " + company + ReviewTail;
      Contains(line, opener) && Contains(line, title) && Contains(line, company)
  {
    var tail := ReviewTail;
    var rest := " position at " + company + tail;
    var line := opener + " for the " + title + " position at " + company + ReviewTail;
    var head := opener + " for the " + title + " position at ";
    assert line == head + company + tail;
    assert line == (opener + " for the ") + title + rest;
    assert line == [] + opener + (" for the " + title + rest);
    ContainsInfix([], opener, " for the " + title + rest);
    ContainsInfix(opener + " for the ", title, rest);
    ContainsInfix(head, company, tail);
  }

  /** A value that a line of a flush, framed body quotes is quoted by its letter. */
  lemma FlushLetterQuotes(body: seq<string>, i: nat, x: string)
    requires TrimmedEnds(body) && AllFlush(body)
    requires i < |body| && Contains(body[i], x)
    ensures Contains(LetterOf(body), x)
  {
    FlushLetterExact(body);
    JoinContainsParts(body, "\n", i);
    ContainsTransitive(Join(body, "\n"), body[i], x);
  }

  /** A value that a line of the letter quotes is quoted by the letter. */
  lemma LineQuoted(cv: CvDoc, req: CoverLetterRequest, i: nat, x: string)
    requires SingleLineFields(cv, req)
    requires i < |BodyOf(cv, req)| && Contains(BodyOf(cv, req)[i], x)
    ensures Contains(GenerateCoverLetterText(cv, req), x)
  {
    BodyIsFlush(cv, req);
    BodyTrimmedEnds(cv, req);
    FlushLetterQuotes(BodyOf(cv, req), i, x);
  }

  lemma LetterQuotesRequest(cv: CvDoc, req: CoverLetterRequest)
    requires SingleLineFields(cv, req)
    ensures var letter := GenerateCoverLetterText(cv, req);
      Contains(letter, Opener(req.tone)) && Contains(letter, req.jobTitle) && Contains(letter, req.company)
  {
    BodyLines(cv, req);
    OpenerLineQuotes(Opener(req.tone), req.jobTitle, req.company);
    LineQuoted(cv, req, 2, Opener(req.tone));
    LineQuoted(cv, req, 2, req.jobTitle);
    LineQuoted(cv, req, 2, req.company);
  }

  lemma LetterQuotesExperience(cv: CvDoc, req: CoverLetterRequest)
    requires SingleLineFields(cv, req)
    ensures Contains(GenerateCoverLetterText(cv, req), SummariseExperience(cv))
  {
    BodyLines(cv, req);
    var e := SummariseExperience(cv);
    ContainsInfix([], e, []);
    assert [] + e + [] == e;
    LineQuoted(cv, req, 5, e);
  }

  lemma LetterQuotesSkills(cv: CvDoc, req: CoverLetterRequest)
    requires SingleLineFields(cv, req)
    ensures Contains(GenerateCoverLetterText(cv, req), SummariseSkills(cv))
  {
    BodyLines(cv, req);
    var k := SummariseSkills(cv);
    ContainsInfix([], k, []);
    assert [] + k + [] == k;
    LineQuoted(cv, req, 6, k);
  }

  lemma LetterQuotesExcerpt(cv: CvDoc, req: CoverLetterRequest)
    requires SingleLineFields(cv, req)
    ensures Contains(GenerateCoverLetterText(cv, req), Excerpt(req.jobDescription))
  {
    BodyLines(cv, req);
    var x := Excerpt(req.jobDescription);
    ContainsInfix("- ", x, []);
    assert "- " + x + [] == "- " + x;
    LineQuoted(cv, req, 9, x);
  }

  /**
   * When no value spans more than one line, the letter quotes the opener, the job title, the
   * company, both summaries and the excerpt.
   */
  lemma LetterContents(cv: CvDoc, req: CoverLetterRequest)
    requires SingleLineFields(cv, req)
    ensures var letter := GenerateCoverLetterText(cv, req);
      && Contains(letter, Opener(req.tone))
      && Contains(letter, req.jobTitle)
      && Contains(letter, req.company)
      && Contains(letter, SummariseExperience(cv))
      && Contains(letter, SummariseSkills(cv))
      && Contains(letter, Excerpt(req.jobDescription))
  {
    LetterQuotesRequest(cv, req);
    LetterQuotesExperience(cv, req);
    LetterQuotesSkills(cv, req);
    LetterQuotesExcerpt(cv, req);
  }
}

/**
 * The cover-letter endpoints (app/api/cover_letter_routes.py): find the CV, write the letter with
 * the language model when a key is configured and with the template otherwise or when the model
 * call fails, save it per job, and answer "latest letter for this job" queries.
 * The two collections are fields of a `Database` object; the environment's API key and the
 * model client are parameters.
 */
module CoverLetterRoutes {
  import opened Wrappers
  import opened Text
  import opened PyText
  import opened Schemas
  import opened CoverLetterService
  import opened OpenAiCoverLetter

  // ---------------------------------------------------------------------------------------
  // _to_object_id

  newtype Byte = x: int | 0 <= x < 256

  /** A MongoDB object id: twelve bytes. */
  datatype ObjectId = ObjectId(bytes: seq<Byte>)

  /** A character `bytes.fromhex` reads as a digit, in either case. */
  predicate IsHexDigit(c: char)
  {
    '0' <= c <= '9' || 'a' <= c <= 'f' || 'A' <= c <= 'F'
  }

  function HexValue(c: char): (v: int)
    requires IsHexDigit(c)
    ensures 0 <= v < 16
  {
    if '0' <= c <= '9' then c as int - '0' as int
    else if 'a' <= c <= 'f' then c as int - 'a' as int + 10
    else c as int - 'A' as int + 10
  }

  /** The lower-case digit `str(ObjectId)` writes for `v`. */
  function HexDigit(v: int): (c: char)
    requires 0 <= v < 16
    ensures IsHexDigit(c) && HexValue(c) == v
  {
    if v < 10 then ('0' as int + v) as char else ('a' as int + v - 10) as char
  }

  predicate AllHex(s: string)
  {
    forall i :: 0 <= i < |s| ==> IsHexDigit(s[i])
  }

  /** The bytes a string of hex digit pairs spells, two digits per byte, high digit first. */
  function ParseHex(s: string): (r: seq<Byte>)
    requires |s| % 2 == 0 && AllHex(s)
    ensures |r| == |s| / 2
    decreases |s|
  {
    if s == [] then []
    else
      assert AllHex(s[2..]) by { assert forall i :: 0 <= i < |s| - 2 ==> s[2..][i] == s[i + 2]; }
      [(HexValue(s[0]) * 16 + HexValue(s[1])) as Byte] + ParseHex(s[2..])
  }

  /** `str(oid)` for the bytes: two lower-case hex digits per byte. */
  function HexOf(bytes: seq<Byte>): (r: string)
    ensures |r| == 2 * |bytes|
    decreases |bytes|
  {
    if bytes == [] then []
    else [HexDigit(bytes[0] as int / 16), HexDigit(bytes[0] as int % 16)] + HexOf(bytes[1..])
  }

  /**
   * `_to_object_id(value)`: `ObjectId(value)` for a string of exactly 24 hex digits, and `None`,
   * instead of an error, for anything else.
   */
  function ToObjectId(value: string): (r: Option<ObjectId>)
    ensures r.Some? <==> |value| == 24 && AllHex(value)
    ensures r.Some? ==> |r.value.bytes| == 12
  {
    if |value| == 24 && AllHex(value) then Some(ObjectId(ParseHex(value))) else None
  }

  lemma {:induction false} HexOfAllHex(bytes: seq<Byte>)
    ensures AllHex(HexOf(bytes))
    decreases |bytes|
  {
    if bytes != [] {
      HexOfAllHex(bytes[1..]);
      var h := HexOf(bytes);
      assert forall i :: 2 <= i < |h| ==> h[i] == HexOf(bytes[1..])[i - 2];
    }
  }

  lemma {:induction false} ParseHexOf(bytes: seq<Byte>)
    ensures AllHex(HexOf(bytes)) && ParseHex(HexOf(bytes)) == bytes
    decreases |bytes|
  {
    HexOfAllHex(bytes);
    if bytes != [] {
      var h := HexOf(bytes);
      assert h[2..] == HexOf(bytes[1..]);
      ParseHexOf(bytes[1..]);
      var b := bytes[0] as int;
      assert HexValue(h[0]) * 16 + HexValue(h[1]) == b;
    }
  }

  lemma HexDigitLower(c: char)
    requires IsHexDigit(c)
    ensures HexDigit(HexValue(c)) == LowerChar(c)
  {
  }

  lemma LowerPair(s: string)
    requires |s| >= 2
    ensures Lower(s) == [LowerChar(s[0]), LowerChar(s[1])] + Lower(s[2..])
  {
    var r := [LowerChar(s[0]), LowerChar(s[1])] + Lower(s[2..]);
    assert forall i :: 2 <= i < |s| ==> r[i] == Lower(s[2..])[i - 2];
  }

  lemma {:induction false} HexOfParse(s: string)
    requires |s| % 2 == 0 && AllHex(s)
    ensures HexOf(ParseHex(s)) == Lower(s)
    decreases |s|
  {
    if s != [] {
      assert AllHex(s[2..]) by { assert forall i :: 0 <= i < |s| - 2 ==> s[2..][i] == s[i + 2]; }
      HexOfParse(s[2..]);
      var v := HexValue(s[0]) * 16 + HexValue(s[1]);
      var bytes := ParseHex(s);
      assert bytes == [v as Byte] + ParseHex(s[2..]);
      assert bytes[1..] == ParseHex(s[2..]);
      assert bytes[0] as int / 16 == HexValue(s[0]) && bytes[0] as int % 16 == HexValue(s[1]);
      HexDigitLower(s[0]);
      HexDigitLower(s[1]);
      LowerPair(s);
    }
  }

  /** Printing an object id and reading it back gives the same id. */
  lemma ObjectIdRoundTrip(oid: ObjectId)
    requires |oid.bytes| == 12
    ensures ToObjectId(HexOf(oid.bytes)) == Some(oid)
  {
    ParseHexOf(oid.bytes);
  }

  /** An id that parses prints back as the same digits, lower-cased. */
  lemma ObjectIdPrintsBack(value: string)
    requires ToObjectId(value).Some?
    ensures HexOf(ToObjectId(value).value.bytes) == Lower(value)
  {
    HexOfParse(value);
  }

  // ---------------------------------------------------------------------------------------
  // The CV lookup (lines 40-46)

  /** A stored CV: its `_id`, its optional `cv_id` field, and what the letter writers read. */
  datatype CvRecord = CvRecord(id: ObjectId, cvId: Option<string>, doc: CvDoc)

  /** `find_one(filter)`: the first record, in collection order, that the filter matches. */
  function FindOne<T>(xs: seq<T>, matches: T -> bool): (r: Option<T>)
    ensures r.Some? <==> exists i :: 0 <= i < |xs| && matches(xs[i])
    ensures r.Some? ==> exists i :: (0 <= i < |xs| && xs[i] == r.value && matches(xs[i])
      && forall j :: 0 <= j < i ==> !matches(xs[j]))
    decreases |xs|
  {
    if xs == [] then None
    else if matches(xs[0]) then Some(xs[0])
    else
      var r := FindOne(xs[1..], matches);
      assert forall i :: 1 <= i < |xs| ==> xs[i] == xs[1..][i - 1];
      r
  }

  /** An HTTP error the handler raises. */
  datatype HttpError = HttpError(status: int, detail: string)

  const CvNotFound: HttpError := HttpError(404, "CV not found")

  /** `find_one({"cv_id": cvId})` */
  function FindByCvId(cvs: seq<CvRecord>, cvId: string): Option<CvRecord>
  {
    FindOne(cvs, (c: CvRecord) => c.cvId == Some(cvId))
  }

  /** `find_one({"_id": oid})` */
  function FindById(cvs: seq<CvRecord>, oid: ObjectId): Option<CvRecord>
  {
    FindOne(cvs, (c: CvRecord) => c.id == oid)
  }

  /**
   * The CV the request names: the first CV whose `cv_id` field is the request's id, if any;
   * otherwise, when the id parses as an object id, the CV with that `_id`; otherwise 404.
   */
  function LookupCv(cvs: seq<CvRecord>, cvId: string): (r: Result<CvDoc, HttpError>)
    ensures r.Err? ==> r == Err(CvNotFound)
    ensures (exists i :: 0 <= i < |cvs| && cvs[i].cvId == Some(cvId)) ==>
      r.Ok? && exists i :: (0 <= i < |cvs| && cvs[i].cvId == Some(cvId) && r.value == cvs[i].doc
        && forall j :: 0 <= j < i ==> cvs[j].cvId != Some(cvId))
    ensures (forall i :: 0 <= i < |cvs| ==> cvs[i].cvId != Some(cvId)) ==>
      (r.Ok? <==> ToObjectId(cvId).Some? && exists i :: 0 <= i < |cvs| && cvs[i].id == ToObjectId(cvId).value)
    ensures (forall i :: 0 <= i < |cvs| ==> cvs[i].cvId != Some(cvId)) && r.Ok? ==>
      exists i :: 0 <= i < |cvs| && cvs[i].id == ToObjectId(cvId).value && r.value == cvs[i].doc
  {
    match FindByCvId(cvs, cvId)
    case Some(c) => Ok(c.doc)
    case None =>
      match ToObjectId(cvId)
      case None => Err(CvNotFound)
      case Some(oid) =>
        match FindById(cvs, oid)
        case Some(c) => Ok(c.doc)
        case None => Err(CvNotFound)
  }

  /** An id that is not 24 hex digits is only ever looked up by its `cv_id` field. */
  lemma LookupWithoutObjectId(cvs: seq<CvRecord>, cvId: string)
    requires !(|cvId| == 24 && AllHex(cvId))
    ensures LookupCv(cvs, cvId).Ok? <==> exists i :: 0 <= i < |cvs| && cvs[i].cvId == Some(cvId)
  {
  }

  // ---------------------------------------------------------------------------------------
  // The letter and the mode (lines 48-67)

  /** `os.getenv("OPENAI_API_KEY")` is truthy: set and not empty. */
  predicate KeySet(apiKey: Option<string>)
  {
    apiKey.Some? && apiKey.value != []
  }

  /** The body of a generate or latest response. */
  datatype LetterResponse = LetterResponse(coverLetter: string, mode: string, note: Option<string>)

  const ModeOpenAi: string := "openai"
  const ModeTemplate: string := "template"
  const FailurePrefix: string := "OpenAI failed: "

  /** The model's letter for this CV and request: the request's tone defaults to "professional". */
  function LlmLetter(cv: CvDoc, req: CoverLetterRequest, respond: string -> LlmOutcome): Result<string, string>
  {
    GenerateCoverLetterLlm(cv, req.jobTitle, req.company, req.jobDescription, ToneOf(req), respond)
  }

  /**
   * Which letter is sent back and how it is labelled, given the model's outcome `llm` and the
   * template letter. The mode is "openai" and the note absent exactly when the key is set and
   * the model call returns, and then the letter is the model's. A failing call gives the
   * template letter, mode "template" and the note "OpenAI failed: " followed by the error's type
   * name; with no key the template letter comes with no note.
   */
  function Choose(apiKey: Option<string>, llm: Result<string, string>, template: string): (r: LetterResponse)
    ensures r.mode == ModeOpenAi && r.note == None <==> KeySet(apiKey) && llm.Ok?
    ensures r.mode == ModeOpenAi || r.mode == ModeTemplate
    ensures r.mode == ModeOpenAi ==> llm.Ok? && r.coverLetter == llm.value
    ensures r.mode == ModeTemplate ==> r.coverLetter == template
    ensures r.note.Some? <==> KeySet(apiKey) && llm.Err?
    ensures r.note.Some? ==> llm.Err? && r.note == Some(FailurePrefix + llm.error)
  {
    assert ModeOpenAi[0] != ModeTemplate[0];
    if KeySet(apiKey) then
      match llm
      case Ok(letter) => LetterResponse(letter, ModeOpenAi, None)
      case Err(errorType) => LetterResponse(template, ModeTemplate, Some(FailurePrefix + errorType))
    else LetterResponse(template, ModeTemplate, None)
  }

  /** The response `generate_cover_letter` builds for a found CV. */
  function Generation(cv: CvDoc, req: CoverLetterRequest, apiKey: Option<string>,
                      respond: string -> LlmOutcome): LetterResponse
  {
    Choose(apiKey, LlmLetter(cv, req, respond), GenerateCoverLetterText(cv, req))
  }

  /** Without a key the model is never asked: the answer is the same whatever it would say. */
  lemma NoKeyIgnoresModel(cv: CvDoc, req: CoverLetterRequest, apiKey: Option<string>,
                          a: string -> LlmOutcome, b: string -> LlmOutcome)
    requires !KeySet(apiKey)
    ensures Generation(cv, req, apiKey, a) == Generation(cv, req, apiKey, b)
    ensures Generation(cv, req, apiKey, a) == LetterResponse(GenerateCoverLetterText(cv, req), ModeTemplate, None)
  {
  }

  /**
   * Whatever happens, the letter sent back opens with the greeting and closes with the signature
   * whenever the template wrote it.
   */
  lemma TemplateLetterFramed(cv: CvDoc, req: CoverLetterRequest, apiKey: Option<string>,
                             respond: string -> LlmOutcome)
    ensures var r := Generation(cv, req, apiKey, respond);
      r.mode == ModeTemplate ==> Framed(r.coverLetter)
  {
    LetterStartsAndEnds(cv, req);
  }

  // ---------------------------------------------------------------------------------------
  // The saved letters and the latest one (lines 24-34, 69-83)

  /**
   * A stored cover letter. The handler always writes `text` and `mode`; they are optional here
   * because the reader falls back to defaults when a stored document lacks them.
   */
  datatype LetterDoc = LetterDoc(
    cvId: string,
    jobId: string,
    jobTitle: string,
    company: string,
    tone: string,
    text: Option<string>,
    mode: Option<string>,
    note: Option<string>)

  /** The document `generate_cover_letter` saves. */
  function SavedDoc(req: CoverLetterRequest, r: LetterResponse): (d: LetterDoc)
    ensures d.text == Some(r.coverLetter) && d.mode == Some(r.mode) && d.note == r.note
    ensures d.jobId == req.jobId && d.cvId == req.cvId
    ensures d.tone == (if req.tone.Some? && req.tone.value != [] then req.tone.value else "professional")
  {
    LetterDoc(req.cvId, req.jobId, req.jobTitle, req.company, ToneOf(req), Some(r.coverLetter), Some(r.mode), r.note)
  }

  /** The most recently saved letter for the job: the last one saved with that `job_id`. */
  function Latest(docs: seq<LetterDoc>, jobId: string): (r: Option<LetterDoc>)
    ensures r.Some? <==> exists i :: 0 <= i < |docs| && docs[i].jobId == jobId
    ensures r.Some? ==> exists i :: (0 <= i < |docs| && docs[i] == r.value && docs[i].jobId == jobId
      && forall j :: i < j < |docs| ==> docs[j].jobId != jobId)
    decreases |docs|
  {
    if docs == [] then None
    else if docs[|docs| - 1].jobId == jobId then Some(docs[|docs| - 1])
    else
      var r := Latest(docs[..|docs| - 1], jobId);
      assert forall i :: 0 <= i < |docs| - 1 ==> docs[i] == docs[..|docs| - 1][i];
      r
  }

  const NoLetterNote: string := "No cover letter saved for this job yet."

  /**
   * `get_latest_cover_letter`'s answer: empty, mode "none" and a note when nothing is saved;
   * otherwise the saved text, mode and note, with `""` and "template" for a missing text or mode.
   */
  function LatestResponse(doc: Option<LetterDoc>): (r: LetterResponse)
    ensures doc.None? ==> r == LetterResponse("", "none", Some(NoLetterNote))
    ensures doc.Some? ==> (r.coverLetter == doc.value.text.GetOr("") && r.mode == doc.value.mode.GetOr(ModeTemplate)
      && r.note == doc.value.note)
  {
    match doc
    case None => LetterResponse("", "none", Some(NoLetterNote))
    case Some(d) => LetterResponse(d.text.GetOr(""), d.mode.GetOr(ModeTemplate), d.note)
  }

  /** Right after a letter is saved for a job, the latest letter for that job is the one just sent back. */
  lemma SaveThenLatest(docs: seq<LetterDoc>, req: CoverLetterRequest, r: LetterResponse)
    ensures LatestResponse(Latest(docs + [SavedDoc(req, r)], req.jobId)) == r
  {
  }

  /** Saving a letter for one job leaves the latest letter of every other job as it was. */
  lemma SaveKeepsOtherJobs(docs: seq<LetterDoc>, d: LetterDoc, jobId: string)
    requires d.jobId != jobId
    ensures Latest(docs + [d], jobId) == Latest(docs, jobId)
  {
    assert (docs + [d])[..|docs|] == docs;
  }

  /** The backend's collections: the stored CVs and the saved cover letters, oldest first. */
  class Database {
    var cvs: seq<CvRecord>
    var coverLetters: seq<LetterDoc>

    constructor (cvs: seq<CvRecord>)
      ensures this.cvs == cvs && coverLetters == []
    {
      this.cvs := cvs;
      coverLetters := [];
    }

    /** `save_cover_letter(data)`: the document is added after every earlier one. */
    method SaveCoverLetter(doc: LetterDoc)
      modifies this
      ensures coverLetters == old(coverLetters) + [doc]
      ensures cvs == old(cvs)
    {
      coverLetters := coverLetters + [doc];
    }

    /** `GET /cover-letter/latest/{job_id}` */
    method GetLatestCoverLetter(jobId: string) returns (r: LetterResponse)
      ensures r == LatestResponse(Latest(coverLetters, jobId))
    {
      var doc := Latest(coverLetters, jobId);
      if doc.None? {
        return LetterResponse("", "none", Some(NoLetterNote));
      }
      r := LetterResponse(doc.value.text.GetOr(""), doc.value.mode.GetOr(ModeTemplate), doc.value.note);
    }

    /** Step 1 of `generate_cover_letter`: by `cv_id`, then by `_id` when the id parses, else 404. */
    method FindCv(cvId: string) returns (r: Result<CvDoc, HttpError>)
      ensures r == LookupCv(cvs, cvId)
    {
      var cvDoc := FindByCvId(cvs, cvId);
      if cvDoc.None? {
        var oid := ToObjectId(cvId);
        if oid.Some? {
          cvDoc := FindById(cvs, oid.value);
        }
      }
      if cvDoc.None? {
        return Err(CvNotFound);
      }
      r := Ok(cvDoc.value.doc);
    }

    /** Step 2 of `generate_cover_letter`: the model's letter when there is a key and it answers, else the template's. */
    method WriteLetter(cv: CvDoc, req: CoverLetterRequest, apiKey: Option<string>, respond: string -> LlmOutcome)
      returns (r: LetterResponse)
      ensures r == Generation(cv, req, apiKey, respond)
    {
      var mode := ModeTemplate;
      var note: Option<string> := None;
      var letter;
      if KeySet(apiKey) {
        var answer := LlmLetter(cv, req, respond);
        if answer.Ok? {
          letter := answer.value;
          mode := ModeOpenAi;
        } else {
          letter := GenerateCoverLetterText(cv, req);
          mode := ModeTemplate;
          note := Some(FailurePrefix + answer.error);
        }
      } else {
        letter := GenerateCoverLetterText(cv, req);
      }
      r := LetterResponse(letter, mode, note);
    }

    /**
     * `POST /cover-letter/generate`: 404 and nothing saved when the CV is not found; otherwise
     * the letter chosen by `Generation` is saved for the job and sent back, so that the saved
     * document and the response carry the same text, mode and note.
     */
    method GenerateCoverLetter(req: CoverLetterRequest, apiKey: Option<string>, respond: string -> LlmOutcome)
      returns (r: Result<LetterResponse, HttpError>)
      modifies this
      ensures cvs == old(cvs)
      ensures LookupCv(cvs, req.cvId).Err? ==> r == Err(CvNotFound) && coverLetters == old(coverLetters)
      ensures LookupCv(cvs, req.cvId).Ok? ==>
        && r == Ok(Generation(LookupCv(cvs, req.cvId).value, req, apiKey, respond))
        && coverLetters == old(coverLetters) + [SavedDoc(req, r.value)]
    {
      // 1) the CV
      var found := FindCv(req.cvId);
      if found.Err? {
        return Err(found.error);
      }
      var cv := found.value;

      // 2) the letter, and how it was written
      var written := WriteLetter(cv, req, apiKey, respond);
      var letter, mode, note := written.coverLetter, written.mode, written.note;

      // 3) save per job
      SaveCoverLetter(LetterDoc(req.cvId, req.jobId, req.jobTitle, req.company, ToneOf(req), Some(letter), Some(mode), note));
      r := Ok(LetterResponse(letter, mode, note));
    }
  }

  /** After a successful generate, the latest letter for the job is the generated one. */
  method GenerateThenLatest(db: Database, req: CoverLetterRequest, apiKey: Option<string>, respond: string -> LlmOutcome)
    returns (generated: Result<LetterResponse, HttpError>, latest: LetterResponse)
    modifies db
    ensures generated.Ok? ==> latest == generated.value
  {
    generated := db.GenerateCoverLetter(req, apiKey, respond);
    latest := db.GetLatestCoverLetter(req.jobId);
    if generated.Ok? {
      SaveThenLatest(old(db.coverLetters), req, generated.value);
    }
  }
}

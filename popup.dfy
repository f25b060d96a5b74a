/**
 * The extension's popup (chrome-extension/popup.js): a form whose fields the handlers read,
 * check and overwrite. The form, its status line and the extension's stored `cv_id` are fields
 * of a `PopupForm` object; the active tab and the content script's reply are parameters.
 */
module Popup {
  import opened Wrappers
  import opened Text
  import opened JsText
  import opened Content

  /** JavaScript's `x || ""` on an optional string: `undefined` and `""` both give `""`. */
  function OrEmpty(x: Option<JsString>): JsString
  {
    x.GetOr([])
  }

  // ---------------------------------------------------------------------------------------
  // ensureTabCanReceiveMessages

  /** The active tab as `chrome.tabs.query` gives it: its id and its URL, either may be missing. */
  datatype Tab = Tab(id: Option<int>, url: Option<JsString>)

  const NoTabError: JsString := Encode("No active tab found.")
  const InternalPageError: JsString := Encode("Cannot extract from browser internal pages.")

  /** `!tab?.id`: no tab, no id, or the falsy id 0. */
  predicate NoTabId(tab: Option<Tab>)
  {
    tab.None? || tab.value.id.None? || tab.value.id == Some(0)
  }

  /** A URL on which the browser runs no content script. */
  predicate InternalUrl(url: JsString)
  {
    StartsWith(url, Encode("chrome://")) || StartsWith(url, Encode("edge://")) || StartsWith(url, Encode("about:"))
  }

  lemma TabErrorsDiffer()
    ensures NoTabError != InternalPageError
  {
    EncodeInjective("No active tab found.", "Cannot extract from browser internal pages.");
  }

  /**
   * `ensureTabCanReceiveMessages(tab)`, with the message it throws: "No active tab found." exactly
   * when there is no tab id; otherwise "Cannot extract from browser internal pages." exactly when
   * the URL (`""` when missing) is a chrome://, edge:// or about: page; otherwise nothing.
   */
  function TabError(tab: Option<Tab>): (r: Option<JsString>)
    ensures r == Some(NoTabError) <==> NoTabId(tab)
    ensures r == Some(InternalPageError) <==> !NoTabId(tab) && InternalUrl(OrEmpty(tab.value.url))
    ensures r.None? <==> !NoTabId(tab) && !InternalUrl(OrEmpty(tab.value.url))
  {
    TabErrorsDiffer();
    if NoTabId(tab) then Some(NoTabError)
    else if InternalUrl(OrEmpty(tab.value.url)) then Some(InternalPageError)
    else None
  }

  /** A tab with an id but no URL is accepted: the empty URL is not an internal page. */
  lemma MissingUrlAccepted(id: int)
    requires id != 0
    ensures TabError(Some(Tab(Some(id), None))) == None
  {
    assert !InternalUrl([]) by {
      assert Encode("chrome://") != [] && Encode("edge://") != [] && Encode("about:") != [];
    }
  }

  // ---------------------------------------------------------------------------------------
  // getFormValues

  /** The six values the handlers read from the form. */
  datatype FormValues = FormValues(
    cvId: JsString,
    jobTitle: JsString,
    company: JsString,
    jobDescription: JsString,
    tone: JsString,
    jobId: JsString)

  /**
   * `getFormValues()` on the raw field values: every field except `tone` is the raw value with
   * only whitespace cut from its two ends, and no whitespace left there.
   */
  function TrimValues(raw: FormValues): (v: FormValues)
    ensures v.tone == raw.tone
    ensures TrimOf(raw.cvId, v.cvId, IsJsWhitespace) && TrimOf(raw.jobTitle, v.jobTitle, IsJsWhitespace)
      && TrimOf(raw.company, v.company, IsJsWhitespace) && TrimOf(raw.jobDescription, v.jobDescription, IsJsWhitespace)
      && TrimOf(raw.jobId, v.jobId, IsJsWhitespace)
  {
    TrimIsTrimOf(raw.cvId, IsJsWhitespace);
    TrimIsTrimOf(raw.jobTitle, IsJsWhitespace);
    TrimIsTrimOf(raw.company, IsJsWhitespace);
    TrimIsTrimOf(raw.jobDescription, IsJsWhitespace);
    TrimIsTrimOf(raw.jobId, IsJsWhitespace);
    FormValues(JsTrim(raw.cvId), JsTrim(raw.jobTitle), JsTrim(raw.company), JsTrim(raw.jobDescription),
               raw.tone, JsTrim(raw.jobId))
  }

  /** Reading values that were already read changes nothing, the untrimmed tone included. */
  lemma TrimValuesIdempotent(raw: FormValues)
    ensures TrimValues(TrimValues(raw)) == TrimValues(raw)
  {
    TrimIdempotent(JsTrim(raw.cvId), IsJsWhitespace);
    TrimIdempotent(JsTrim(raw.jobTitle), IsJsWhitespace);
    TrimIdempotent(JsTrim(raw.company), IsJsWhitespace);
    TrimIdempotent(JsTrim(raw.jobDescription), IsJsWhitespace);
    TrimIdempotent(JsTrim(raw.jobId), IsJsWhitespace);
  }

  /** The tone reaches the request exactly as the user typed it, surrounding spaces included. */
  lemma ToneNotTrimmed(raw: FormValues)
    ensures TrimValues(raw).tone == raw.tone
  {
  }

  // ---------------------------------------------------------------------------------------
  // The required-field guards

  /** The first message whose value is empty, checking in order; none when every value is present. */
  function FirstMissing(checks: seq<(JsString, JsString)>): (r: Option<JsString>)
    ensures r.None? <==> forall i :: 0 <= i < |checks| ==> checks[i].0 != []
    ensures r.Some? ==> exists i :: (0 <= i < |checks| && checks[i].0 == [] && r.value == checks[i].1
      && forall j :: 0 <= j < i ==> checks[j].0 != [])
    decreases |checks|
  {
    if checks == [] then None
    else if checks[0].0 == [] then Some(checks[0].1)
    else
      var r := FirstMissing(checks[1..]);
      assert forall i :: 1 <= i < |checks| ==> checks[i] == checks[1..][i - 1];
      r
  }

  const CvIdRequired: JsString := Encode("cv_id is required.")
  const SaveTitleRequired: JsString := Encode("Job Title is required (extract or type it).")
  const SaveDescriptionRequired: JsString := Encode("Job Description is required (extract/paste/select text).")
  const JobIdRequired: JsString := Encode("tracked job_id is required (click Save tracked job first).")
  const GenerateTitleRequired: JsString := Encode("Job Title is required.")
  const GenerateDescriptionRequired: JsString := Encode("Job Description is required.")

  const SaveNoCompanyStatus: JsString := Encode("Saving… (Company is empty — you can still save, but add it for best results.)")
  const SavingStatus: JsString := Encode("Saving tracked job (running match)…")
  const GenerateNoCompanyStatus: JsString := Encode("Generating… (Company is empty — letter may look generic. Consider filling it.)")
  const GeneratingStatus: JsString := Encode("Generating cover letter…")

  /**
   * The guards `saveTrackedJobViaMatch` runs before it calls the backend: the error thrown for
   * the first of `cv_id`, job title and job description that is empty, or, when all are present,
   * the status shown, which warns exactly when the company is empty.
   */
  function SaveCheck(v: FormValues): (r: Result<JsString, JsString>)
    ensures r.Ok? <==> v.cvId != [] && v.jobTitle != [] && v.jobDescription != []
    ensures r.Ok? ==> r.value == (if v.company == [] then SaveNoCompanyStatus else SavingStatus)
  {
    if v.cvId == [] then Err(CvIdRequired)
    else if v.jobTitle == [] then Err(SaveTitleRequired)
    else if v.jobDescription == [] then Err(SaveDescriptionRequired)
    else if v.company == [] then Ok(SaveNoCompanyStatus)
    else Ok(SavingStatus)
  }

  /**
   * The guards `generateCoverLetter` runs before it calls the backend: the first of `cv_id`,
   * `job_id`, job title and job description that is empty, or the status shown, which warns
   * exactly when the company is empty.
   */
  function GenerateCheck(v: FormValues): (r: Result<JsString, JsString>)
    ensures r.Ok? <==> v.cvId != [] && v.jobId != [] && v.jobTitle != [] && v.jobDescription != []
    ensures r.Ok? ==> r.value == (if v.company == [] then GenerateNoCompanyStatus else GeneratingStatus)
  {
    if v.cvId == [] then Err(CvIdRequired)
    else if v.jobId == [] then Err(JobIdRequired)
    else if v.jobTitle == [] then Err(GenerateTitleRequired)
    else if v.jobDescription == [] then Err(GenerateDescriptionRequired)
    else if v.company == [] then Ok(GenerateNoCompanyStatus)
    else Ok(GeneratingStatus)
  }

  /** Skipping a present value does not change which message comes first. */
  lemma FirstMissingSkip(checks: seq<(JsString, JsString)>)
    requires checks != [] && checks[0].0 != []
    ensures FirstMissing(checks) == FirstMissing(checks[1..])
  {
  }

  /** Saving refuses with the message of the first missing field, in the order `cv_id`, title, description. */
  lemma SaveCheckReportsFirstMissing(v: FormValues)
    ensures var checks := [(v.cvId, CvIdRequired), (v.jobTitle, SaveTitleRequired), (v.jobDescription, SaveDescriptionRequired)];
      && (SaveCheck(v).Err? <==> FirstMissing(checks).Some?)
      && (SaveCheck(v).Err? ==> FirstMissing(checks) == Some(SaveCheck(v).error))
  {
    var checks := [(v.cvId, CvIdRequired), (v.jobTitle, SaveTitleRequired), (v.jobDescription, SaveDescriptionRequired)];
    if v.cvId != [] {
      FirstMissingSkip(checks);
      assert checks[1..] == [(v.jobTitle, SaveTitleRequired), (v.jobDescription, SaveDescriptionRequired)];
      if v.jobTitle != [] {
        FirstMissingSkip(checks[1..]);
        assert checks[1..][1..] == [(v.jobDescription, SaveDescriptionRequired)];
      }
    }
  }

  /** Generating refuses with the message of the first missing field, in the order `cv_id`, `job_id`, title, description. */
  lemma GenerateCheckReportsFirstMissing(v: FormValues)
    ensures var checks := [(v.cvId, CvIdRequired), (v.jobId, JobIdRequired), (v.jobTitle, GenerateTitleRequired),
                           (v.jobDescription, GenerateDescriptionRequired)];
      && (GenerateCheck(v).Err? <==> FirstMissing(checks).Some?)
      && (GenerateCheck(v).Err? ==> FirstMissing(checks) == Some(GenerateCheck(v).error))
  {
    var checks := [(v.cvId, CvIdRequired), (v.jobId, JobIdRequired), (v.jobTitle, GenerateTitleRequired),
                   (v.jobDescription, GenerateDescriptionRequired)];
    if v.cvId != [] {
      FirstMissingSkip(checks);
      var c1 := checks[1..];
      assert c1 == [(v.jobId, JobIdRequired), (v.jobTitle, GenerateTitleRequired), (v.jobDescription, GenerateDescriptionRequired)];
      if v.jobId != [] {
        FirstMissingSkip(c1);
        var c2 := c1[1..];
        assert c2 == [(v.jobTitle, GenerateTitleRequired), (v.jobDescription, GenerateDescriptionRequired)];
        if v.jobTitle != [] {
          FirstMissingSkip(c2);
          assert c2[1..] == [(v.jobDescription, GenerateDescriptionRequired)];
        }
      }
    }
  }

  /** Neither guard ever refuses a form because of its company: only the status differs. */
  lemma CompanyIsOptional(v: FormValues, company: JsString)
    ensures SaveCheck(v).Ok? <==> SaveCheck(v.(company := company)).Ok?
    ensures GenerateCheck(v).Ok? <==> GenerateCheck(v.(company := company)).Ok?
    ensures SaveCheck(v).Err? ==> SaveCheck(v.(company := company)) == SaveCheck(v)
    ensures GenerateCheck(v).Err? ==> GenerateCheck(v.(company := company)) == GenerateCheck(v)
  {
  }

  /** A form that can be generated from can also be saved. */
  lemma GenerateNeedsMoreThanSave(v: FormValues)
    ensures GenerateCheck(v).Ok? ==> SaveCheck(v).Ok?
  {
  }

  // ---------------------------------------------------------------------------------------
  // extractFromPage's handling of the reply

  const ExtractFailed: JsString := Encode("Could not extract job from page.")
  /** The `TypeError` message V8 gives for `res.job.job_title` when `res.job` is undefined. */
  const MissingJobError: JsString := Encode("Cannot read properties of undefined (reading 'job_title')")
  const NoCompanyStatus: JsString := Encode("Extracted ✅ Company not found — type it in (common on some sites).")
  const ExtractedStatus: JsString := Encode("Extracted job info ✅")

  /** What an accepted reply writes into the form. */
  datatype Filled = Filled(jobTitle: JsString, company: JsString, jobDescription: JsString, status: JsString)

  /**
   * The reply read as `extractFromPage` reads it: a missing or not-ok reply throws its `error`,
   * or "Could not extract job from page." when that is missing or empty; an ok reply without a
   * job throws a `TypeError`; otherwise the three job fields, `""` for a missing one, go into
   * the form, with the warning status exactly when the company is missing or empty.
   */
  function ReadReply(res: Option<WireReply>): (r: Result<Filled, JsString>)
    ensures (res.None? || !res.value.ok) ==> r.Err? && r.error == (if res.Some? && OrEmpty(res.value.error) != [] then res.value.error.value else ExtractFailed)
    ensures r.Ok? <==> res.Some? && res.value.ok && res.value.job.Some?
    ensures r.Ok? ==> var job := res.value.job.value;
      && r.value == Filled(OrEmpty(job.jobTitle), OrEmpty(job.company), OrEmpty(job.jobDescription), r.value.status)
      && (r.value.status == NoCompanyStatus <==> OrEmpty(job.company) == [])
      && (r.value.status == ExtractedStatus <==> OrEmpty(job.company) != [])
  {
    assert NoCompanyStatus != ExtractedStatus by {
      EncodeInjective("Extracted ✅ Company not found — type it in (common on some sites).", "Extracted job info ✅");
    }
    if res.None? || !res.value.ok then
      Err(if res.Some? && OrEmpty(res.value.error) != [] then res.value.error.value else ExtractFailed)
    else if res.value.job.None? then Err(MissingJobError)
    else
      var job := res.value.job.value;
      Ok(Filled(OrEmpty(job.jobTitle), OrEmpty(job.company), OrEmpty(job.jobDescription),
                if OrEmpty(job.company) == [] then NoCompanyStatus else ExtractedStatus))
  }

  /**
   * End to end: the job the content script extracts from a page reaches the form unchanged,
   * and the popup warns exactly when no company was found.
   */
  lemma ExtractedJobReachesForm(page: Page)
    ensures var job := Extraction(SiteOf(page.hostname), page);
      var reply := JobReply(job, Debug(page.hostname, job.jobTitle != [], job.company != [], job.jobDescription != []));
      var r := ReadReply(Some(ToWire(reply)));
      && r.Ok?
      && r.value.jobTitle == job.jobTitle && r.value.company == job.company && r.value.jobDescription == job.jobDescription
      && (r.value.status == NoCompanyStatus <==> job.company == [])
  {
  }

  /** An error the content script reports is shown as it was sent, when it is not empty. */
  lemma ScriptErrorShown(e: JsString)
    requires e != []
    ensures ReadReply(Some(ToWire(ErrorReply(e)))) == Err(e)
  {
  }

  // ---------------------------------------------------------------------------------------
  // The form

  // The form's messages, written out as UTF-16 code units so that the handlers' proofs see
  // them as plain sequences; the lemmas below tie each one to its text.

  /** "cv_id is empty." */
  const CvIdEmpty: JsString := [0x63, 0x76, 0x5f, 0x69, 0x64, 0x20, 0x69, 0x73, 0x20, 0x65, 0x6d, 0x70, 0x74, 0x79, 0x2e]
  /** "Saved CV ID ✅" */
  const SavedCvIdStatus: JsString := [0x53, 0x61, 0x76, 0x65, 0x64, 0x20, 0x43, 0x56, 0x20, 0x49, 0x44, 0x20, 0x2705]
  /** "Loaded saved CV ID ✅" */
  const LoadedCvIdStatus: JsString := [0x4c, 0x6f, 0x61, 0x64, 0x65, 0x64, 0x20, 0x73, 0x61, 0x76, 0x65, 0x64, 0x20, 0x43, 0x56, 0x20, 0x49, 0x44, 0x20, 0x2705]
  /** "Cleared ✅" */
  const ClearedStatus: JsString := [0x43, 0x6c, 0x65, 0x61, 0x72, 0x65, 0x64, 0x20, 0x2705]

  lemma CvIdEmptyEncoded()
    ensures CvIdEmpty == Encode("cv_id is empty.")
  {
    EncodeBmp("cv_id is empty.");
  }

  lemma SavedCvIdStatusEncoded()
    ensures SavedCvIdStatus == Encode("Saved CV ID ✅")
  {
    EncodeBmp("Saved CV ID ✅");
  }

  lemma LoadedCvIdStatusEncoded()
    ensures LoadedCvIdStatus == Encode("Loaded saved CV ID ✅")
  {
    EncodeBmp("Loaded saved CV ID ✅");
  }

  lemma ClearedStatusEncoded()
    ensures ClearedStatus == Encode("Cleared ✅")
  {
    EncodeBmp("Cleared ✅");
  }

  /** The popup's form fields, its status line, and the `cv_id` kept in `chrome.storage.local`. */
  class PopupForm {
    var cvId: JsString
    var jobTitle: JsString
    var company: JsString
    var jobDesc: JsString
    var tone: JsString
    var jobId: JsString
    var output: JsString
    var status: JsString
    var storedCvId: Option<JsString>

    /** A freshly opened popup: empty fields, the tone selector's value, and whatever storage holds. */
    constructor (tone: JsString, storedCvId: Option<JsString>)
      ensures this.tone == tone && this.storedCvId == storedCvId
      ensures cvId == [] && jobTitle == [] && company == [] && jobDesc == [] && jobId == [] && output == [] && status == []
    {
      this.tone := tone;
      this.storedCvId := storedCvId;
      cvId, jobTitle, company, jobDesc, jobId, output, status := [], [], [], [], [], [], [];
    }

    /** The raw values of the six fields the handlers read. */
    function Raw(): FormValues
      reads this
    {
      FormValues(cvId, jobTitle, company, jobDesc, tone, jobId)
    }

    /** `getFormValues()` */
    function GetFormValues(): (v: FormValues)
      reads this
      ensures v == TrimValues(Raw())
    {
      FormValues(JsTrim(cvId), JsTrim(jobTitle), JsTrim(company), JsTrim(jobDesc), tone, JsTrim(jobId))
    }

    /** `loadCvIdFromStorage()`: a stored non-empty `cv_id` fills the field and says so. */
    method LoadCvIdFromStorage()
      modifies this
      ensures storedCvId.Some? && storedCvId.value != [] ==> cvId == storedCvId.value && status == LoadedCvIdStatus
      ensures !(storedCvId.Some? && storedCvId.value != []) ==> cvId == old(cvId) && status == old(status)
      ensures storedCvId == old(storedCvId) && jobTitle == old(jobTitle) && company == old(company)
        && jobDesc == old(jobDesc) && tone == old(tone) && jobId == old(jobId) && output == old(output)
    {
      if storedCvId.Some? && storedCvId.value != [] {
        cvId := storedCvId.value;
        status := LoadedCvIdStatus;
      }
    }

    /**
     * `saveCvIdToStorage()`: throws "cv_id is empty." and writes nothing when the trimmed field
     * is empty; otherwise stores the trimmed id and says so.
     */
    method SaveCvIdToStorage() returns (err: Option<JsString>)
      modifies this
      ensures JsTrim(old(cvId)) == [] ==> err == Some(CvIdEmpty) && storedCvId == old(storedCvId) && status == old(status)
      ensures JsTrim(old(cvId)) != [] ==> err == None && storedCvId == Some(JsTrim(old(cvId))) && status == SavedCvIdStatus
      ensures cvId == old(cvId) && jobTitle == old(jobTitle) && company == old(company) && jobDesc == old(jobDesc)
        && tone == old(tone) && jobId == old(jobId) && output == old(output)
    {
      var id := JsTrim(cvId);
      if id == [] {
        err := Some(CvIdEmpty);
      } else {
        storedCvId := Some(id);
        status := SavedCvIdStatus;
        err := None;
      }
    }

    /**
     * `resetForm(keepCvId)`: the job fields, the job id and the output are cleared, the tone is
     * kept, and the CV id is kept exactly when `keepCvId` holds.
     */
    method ResetForm(keepCvId: bool)
      modifies this
      ensures jobTitle == [] && company == [] && jobDesc == [] && jobId == [] && output == []
      ensures cvId == (if keepCvId then old(cvId) else [])
      ensures status == ClearedStatus
      ensures tone == old(tone) && storedCvId == old(storedCvId)
    {
      var cv := cvId;
      jobTitle := [];
      company := [];
      jobDesc := [];
      jobId := [];
      output := [];
      if !keepCvId {
        cvId := [];
      }
      status := ClearedStatus;
      if keepCvId {
        cvId := cv;
      }
    }

    /**
     * `extractFromPage()` once the tab is known and the content script has answered `res`:
     * on an error nothing in the form changes; otherwise the job fields and the status are
     * those `ReadReply` gives.
     */
    method ExtractFromPage(tab: Option<Tab>, res: Option<WireReply>) returns (err: Option<JsString>)
      modifies this
      ensures TabError(tab).Some? ==> err == TabError(tab)
      ensures TabError(tab).None? && ReadReply(res).Err? ==> err == Some(ReadReply(res).error)
      ensures err.Some? ==> (jobTitle == old(jobTitle) && company == old(company) && jobDesc == old(jobDesc)
        && status == old(status))
      ensures err.None? <==> TabError(tab).None? && ReadReply(res).Ok?
      ensures err.None? ==> Filled(jobTitle, company, jobDesc, status) == ReadReply(res).value
      ensures cvId == old(cvId) && tone == old(tone) && jobId == old(jobId) && output == old(output)
        && storedCvId == old(storedCvId)
    {
      err := TabError(tab);
      if err.Some? {
        return;
      }
      if res.None? || !res.value.ok {
        var e := if res.Some? then OrEmpty(res.value.error) else [];
        return Some(if e != [] then e else ExtractFailed);
      }
      if res.value.job.None? {
        return Some(MissingJobError);
      }
      var job := res.value.job.value;
      jobTitle := OrEmpty(job.jobTitle);
      company := OrEmpty(job.company);
      jobDesc := OrEmpty(job.jobDescription);
      if job.company.None? || job.company.value == [] {
        status := NoCompanyStatus;
      } else {
        status := ExtractedStatus;
      }
    }

    /** The click handler of a button: the status is cleared, the action runs, and an error is shown as the status. */
    method OnExtractClick(tab: Option<Tab>, res: Option<WireReply>)
      modifies this
      ensures var r := TabError(tab);
        r.Some? ==> status == r.value
      ensures TabError(tab).None? ==> match ReadReply(res)
        case Ok(f) => jobTitle == f.jobTitle && company == f.company && jobDesc == f.jobDescription && status == f.status
        case Err(e) => status == e
      ensures TabError(tab).Some? || ReadReply(res).Err? ==>
        jobTitle == old(jobTitle) && company == old(company) && jobDesc == old(jobDesc)
      ensures cvId == old(cvId) && tone == old(tone) && jobId == old(jobId) && output == old(output)
        && storedCvId == old(storedCvId)
    {
      status := [];
      var err := ExtractFromPage(tab, res);
      if err.Some? {
        status := err.value;
      }
    }

    /** The "save CV id" button: an empty id shows "cv_id is empty.", otherwise the id is stored. */
    method OnSaveCvClick()
      modifies this
      ensures JsTrim(old(cvId)) == [] ==> status == CvIdEmpty && storedCvId == old(storedCvId)
      ensures JsTrim(old(cvId)) != [] ==> status == SavedCvIdStatus && storedCvId == Some(JsTrim(old(cvId)))
      ensures cvId == old(cvId) && jobTitle == old(jobTitle) && company == old(company) && jobDesc == old(jobDesc)
        && tone == old(tone) && jobId == old(jobId) && output == old(output)
    {
      status := [];
      var err := SaveCvIdToStorage();
      if err.Some? {
        status := err.value;
      }
    }
  }

  /** Saving the CV id and opening the popup again fills the field with the trimmed id. */
  method SaveThenReload(form: PopupForm, tone: JsString) returns (next: PopupForm)
    modifies form
    ensures JsTrim(old(form.cvId)) != [] ==> next.cvId == JsTrim(old(form.cvId)) && next.status == LoadedCvIdStatus
  {
    form.OnSaveCvClick();
    next := new PopupForm(tone, form.storedCvId);
    next.LoadCvIdFromStorage();
  }
}

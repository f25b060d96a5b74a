/**
 * The extension's content script (chrome-extension/content.js): it reads one job posting out of
 * the current page. Extraction runs on a snapshot of the page taken once the readiness wait is
 * over; the wait itself is not part of this model.
 */
module Content {
  import opened Wrappers
  import opened Text
  import opened JsText

  /** A CSS selector. The model only compares selectors, so their spelling is kept as written. */
  type Selector = string

  /**
   * The page as the content script sees it after any wait. `elements` gives, for each selector
   * that matches, the `innerText` of the first matching element (None for an element that has no
   * `innerText`); a selector that matches nothing is absent.
   */
  datatype Page = Page(
    hostname: JsString,
    elements: map<Selector, Option<JsString>>,
    title: JsString,
    selection: Option<JsString>)  // `window.getSelection()?.toString()`

  // ---------------------------------------------------------------------------------------
  // pickText

  /** `el?.innerText?.trim()` as `pickText` tests it: empty when there is no element or no text. */
  function TrimmedText(elements: map<Selector, Option<JsString>>, sel: Selector): JsString
  {
    if sel in elements && elements[sel].Some? then JsTrim(elements[sel].value) else []
  }

  /** The trimmed text of the first selector, in list order, whose text is not empty; else empty. */
  function FirstNonBlank(selectors: seq<Selector>, elements: map<Selector, Option<JsString>>): JsString
  {
    if selectors == [] then []
    else
      var t := TrimmedText(elements, selectors[0]);
      if t != [] then t else FirstNonBlank(selectors[1..], elements)
  }

  /** No selector before index `i` yields text. */
  predicate NoneYieldBefore(selectors: seq<Selector>, elements: map<Selector, Option<JsString>>, i: int)
  {
    forall j :: 0 <= j < i && j < |selectors| ==> TrimmedText(elements, selectors[j]) == []
  }

  /** Dropping the first selector shifts the indices by one. */
  lemma NoneYieldShift(selectors: seq<Selector>, elements: map<Selector, Option<JsString>>, i: nat)
    requires selectors != [] && i < |selectors|
    ensures NoneYieldBefore(selectors, elements, i + 1)
        <==> TrimmedText(elements, selectors[0]) == [] && NoneYieldBefore(selectors[1..], elements, i)
  {
    var rest := selectors[1..];
    if TrimmedText(elements, selectors[0]) == [] && NoneYieldBefore(rest, elements, i) {
      forall j | 0 <= j < i + 1 && j < |selectors| ensures TrimmedText(elements, selectors[j]) == [] {
        if j > 0 { assert selectors[j] == rest[j - 1]; }
      }
    }
    if NoneYieldBefore(selectors, elements, i + 1) {
      forall j | 0 <= j < i && j < |rest| ensures TrimmedText(elements, rest[j]) == [] {
        assert rest[j] == selectors[j + 1];
      }
    }
  }

  /**
   * What `pickText` promises: it returns the trimmed text of a selector whose element has
   * non-blank text and every earlier selector yields nothing, so an element that exists but is
   * blank is passed over; and it returns "" exactly when no selector yields text, the empty
   * list included.
   */
  lemma {:induction false} FirstNonBlankIsFirst(selectors: seq<Selector>, elements: map<Selector, Option<JsString>>)
    ensures var r := FirstNonBlank(selectors, elements);
      && (r == [] <==> NoneYieldBefore(selectors, elements, |selectors|))
      && (r != [] ==> exists i :: 0 <= i < |selectors| && r == TrimmedText(elements, selectors[i])
                                  && NoneYieldBefore(selectors, elements, i))
  {
    if selectors != [] {
      var rest := selectors[1..];
      FirstNonBlankIsFirst(rest, elements);
      NoneYieldShift(selectors, elements, |rest|);
      if TrimmedText(elements, selectors[0]) == [] {
        var r := FirstNonBlank(rest, elements);
        if r != [] {
          var i :| 0 <= i < |rest| && r == TrimmedText(elements, rest[i]) && NoneYieldBefore(rest, elements, i);
          NoneYieldShift(selectors, elements, i);
          assert rest[i] == selectors[i + 1];
        }
      } else {
        assert NoneYieldBefore(selectors, elements, 0);
      }
    }
  }

  /** `pickText(selectors)`: a loop over the selectors with an early return. */
  method PickText(selectors: seq<Selector>, elements: map<Selector, Option<JsString>>) returns (txt: JsString)
    ensures txt == FirstNonBlank(selectors, elements)
  {
    for i := 0 to |selectors|
      invariant FirstNonBlank(selectors[i..], elements) == FirstNonBlank(selectors, elements)
    {
      var t := TrimmedText(elements, selectors[i]);
      if t != [] {
        return t;
      }
      assert selectors[i..][1..] == selectors[i + 1..];
    }
    return [];
  }

  // ---------------------------------------------------------------------------------------
  // cleanText

  /** `.replace(/ /g, " ")` */
  function ReplaceNbsp(s: JsString): (r: JsString)
    ensures |r| == |s| && Nbsp !in r
    ensures forall i :: 0 <= i < |s| && s[i] != Nbsp ==> r[i] == s[i]
  {
    seq(|s|, i requires 0 <= i < |s| => if s[i] == Nbsp then Space else s[i])
  }

  /** The length of the run of line feeds `s` starts with. */
  function LeadingNewlines(s: JsString): (k: nat)
    ensures k <= |s|
    ensures forall i :: 0 <= i < k ==> s[i] == LF
    ensures k == |s| || s[k] != LF
  {
    if s != [] && s[0] == LF then 1 + LeadingNewlines(s[1..]) else 0
  }

  /** `.replace(/\n{3,}/g, "\n\n")`: every maximal run of three or more line feeds becomes two. */
  function CollapseNewlines(s: JsString): (r: JsString)
    ensures forall x :: x in r ==> x in s
    ensures s != [] ==> r != [] && r[0] == s[0]
    decreases |s|
  {
    if s == [] then []
    else if s[0] != LF then [s[0]] + CollapseNewlines(s[1..])
    else
      var k := LeadingNewlines(s);
      (if k >= 3 then [LF, LF] else s[..k]) + CollapseNewlines(s[k..])
  }

  /** Three line feeds in a row start at index `i`. */
  predicate TripleNewlineAt(s: JsString, i: int)
  {
    0 <= i && i + 2 < |s| && s[i] == LF && s[i + 1] == LF && s[i + 2] == LF
  }

  /** A leading run of three or more line feeds is a triple at index 0. */
  lemma LeadingTriple(s: JsString)
    ensures LeadingNewlines(s) >= 3 ==> TripleNewlineAt(s, 0)
  {
  }

  predicate NoTripleNewline(s: JsString)
  {
    forall i :: 0 <= i < |s| ==> !TripleNewlineAt(s, i)
  }

  lemma NoTripleNewlineSlice(s: JsString, a: nat, b: nat)
    requires NoTripleNewline(s) && a <= b <= |s|
    ensures NoTripleNewline(s[a..b])
  {
    forall i ensures !TripleNewlineAt(s[a..b], i) {
      if TripleNewlineAt(s[a..b], i) {
        assert TripleNewlineAt(s, a + i);
      }
    }
  }

  /** After collapsing, no three line feeds are adjacent. */
  lemma {:induction false} CollapseLeavesNoTriple(s: JsString)
    ensures NoTripleNewline(CollapseNewlines(s))
    decreases |s|
  {
    if s != [] {
      var r := CollapseNewlines(s);
      if s[0] != LF {
        var rest := CollapseNewlines(s[1..]);
        CollapseLeavesNoTriple(s[1..]);
        forall i ensures !TripleNewlineAt(r, i) {
          if i >= 1 && TripleNewlineAt(r, i) {
            assert TripleNewlineAt(rest, i - 1);
          }
        }
      } else {
        var k := LeadingNewlines(s);
        var block: JsString := if k >= 3 then [LF, LF] else s[..k];
        var rest := CollapseNewlines(s[k..]);
        CollapseLeavesNoTriple(s[k..]);
        assert r == block + rest;
        assert 1 <= |block| <= 2;
        assert rest != [] ==> rest[0] != LF;
        forall i ensures !TripleNewlineAt(r, i) {
          if TripleNewlineAt(r, i) {
            if i >= |block| {
              assert TripleNewlineAt(rest, i - |block|);
            }
          }
        }
      }
    }
  }

  /** Text that has no three adjacent line feeds is left as it is. */
  lemma {:induction false} CollapseFixesNoTriple(s: JsString)
    requires NoTripleNewline(s)
    ensures CollapseNewlines(s) == s
    decreases |s|
  {
    if s != [] {
      if s[0] != LF {
        NoTripleNewlineSlice(s, 1, |s|);
        assert s[1..|s|] == s[1..];
        CollapseFixesNoTriple(s[1..]);
      } else {
        var k := LeadingNewlines(s);
        LeadingTriple(s);
        NoTripleNewlineSlice(s, k, |s|);
        assert s[k..|s|] == s[k..];
        CollapseFixesNoTriple(s[k..]);
        assert s[..k] + s[k..] == s;
      }
    }
  }

  /** The code units of `s` other than line feeds, in order. */
  function NonNewlines(s: JsString): JsString
  {
    if s == [] then [] else (if s[0] == LF then [] else [s[0]]) + NonNewlines(s[1..])
  }

  lemma {:induction false} NonNewlinesConcat(a: JsString, b: JsString)
    ensures NonNewlines(a + b) == NonNewlines(a) + NonNewlines(b)
  {
    if a == [] {
      assert a + b == b;
    } else {
      assert (a + b)[0] == a[0];
      assert (a + b)[1..] == a[1..] + b;
      NonNewlinesConcat(a[1..], b);
    }
  }

  lemma {:induction false} NonNewlinesOfRun(s: JsString)
    requires forall i :: 0 <= i < |s| ==> s[i] == LF
    ensures NonNewlines(s) == []
  {
    if s != [] {
      NonNewlinesOfRun(s[1..]);
    }
  }

  /** Collapsing only removes line feeds: every other code unit stays, in order. */
  lemma {:induction false} CollapseKeepsText(s: JsString)
    ensures NonNewlines(CollapseNewlines(s)) == NonNewlines(s)
    decreases |s|
  {
    if s != [] {
      if s[0] != LF {
        CollapseKeepsText(s[1..]);
        NonNewlinesConcat([s[0]], CollapseNewlines(s[1..]));
      } else {
        var k := LeadingNewlines(s);
        var block: JsString := if k >= 3 then [LF, LF] else s[..k];
        CollapseKeepsText(s[k..]);
        NonNewlinesConcat(block, CollapseNewlines(s[k..]));
        NonNewlinesOfRun(block);
        NonNewlinesOfRun(s[..k]);
        assert s == s[..k] + s[k..];
        NonNewlinesConcat(s[..k], s[k..]);
      }
    }
  }

  /** `k` line feeds in a row. */
  function Newlines(k: nat): (r: JsString)
    ensures |r| == k && forall i :: 0 <= i < k ==> r[i] == LF
  {
    seq(k, _ => LF)
  }

  lemma {:induction false} LeadingNewlinesRun(k: nat, b: JsString)
    requires b == [] || b[0] != LF
    ensures LeadingNewlines(Newlines(k) + b) == k
    decreases k
  {
    if k > 0 {
      assert (Newlines(k) + b)[1..] == Newlines(k - 1) + b;
      LeadingNewlinesRun(k - 1, b);
    } else {
      assert Newlines(k) + b == b;
    }
  }

  lemma {:induction false} LeadingNewlinesAppend(x: JsString, y: JsString)
    requires LeadingNewlines(x) < |x|
    ensures LeadingNewlines(x + y) == LeadingNewlines(x)
    decreases |x|
  {
    if x[0] == LF {
      assert (x + y)[1..] == x[1..] + y;
      LeadingNewlinesAppend(x[1..], y);
    }
  }

  /** What `CollapseNewlines` makes of a maximal run of `k` line feeds. */
  function CollapsedRun(k: nat): (r: JsString)
    ensures k >= 3 ==> r == [LF, LF]
    ensures k < 3 ==> r == Newlines(k)
  {
    if k >= 3 then [LF, LF] else Newlines(k)
  }

  /** A run of line feeds at the very start. */
  lemma CollapseRunFirst(k: nat, b: JsString)
    requires b == [] || b[0] != LF
    ensures CollapseNewlines(Newlines(k) + b) == CollapsedRun(k) + CollapseNewlines(b)
  {
    var s := Newlines(k) + b;
    if k == 0 {
      assert s == b;
    } else {
      LeadingNewlinesRun(k, b);
      assert s[..k] == Newlines(k);
      assert s[k..] == b;
      assert CollapseNewlines(s) == (if k >= 3 then [LF, LF] else s[..k]) + CollapseNewlines(s[k..]);
    }
  }

  lemma HeadAppend(a: JsString, t: JsString)
    requires a != []
    ensures (a + t)[0] == a[0] && (a + t)[1..] == a[1..] + t
  {
  }

  /** A code unit other than a line feed in front is copied, whatever follows collapses after it. */
  lemma CollapseStepChar(a: JsString, t: JsString, tail: JsString)
    requires a != [] && a[0] != LF
    requires CollapseNewlines(a[1..] + t) == CollapseNewlines(a[1..]) + tail
    ensures CollapseNewlines(a + t) == CollapseNewlines(a) + tail
  {
    HeadAppend(a, t);
    assert CollapseNewlines(a + t) == [a[0]] + (CollapseNewlines(a[1..]) + tail);
  }

  /** The leading run of `a + t` is that of `a` when it ends inside `a`. */
  lemma LeadingRunAppend(a: JsString, t: JsString)
    requires LeadingNewlines(a) < |a|
    ensures var j := LeadingNewlines(a);
      LeadingNewlines(a + t) == j && (a + t)[..j] == a[..j] && (a + t)[j..] == a[j..] + t
  {
    LeadingNewlinesAppend(a, t);
  }

  /** A leading run of line feeds that ends inside `a` collapses the same whatever follows `a`. */
  lemma CollapseStepRun(a: JsString, t: JsString, tail: JsString)
    requires a != [] && a[0] == LF && LeadingNewlines(a) < |a|
    requires CollapseNewlines(a[LeadingNewlines(a)..] + t) == CollapseNewlines(a[LeadingNewlines(a)..]) + tail
    ensures CollapseNewlines(a + t) == CollapseNewlines(a) + tail
  {
    var j := LeadingNewlines(a);
    LeadingRunAppend(a, t);
    var block: JsString := if j >= 3 then [LF, LF] else a[..j];
    assert CollapseNewlines(a + t) == block + (CollapseNewlines(a[j..]) + tail);
  }

  /** Text that does not end inside a run of line feeds collapses on its own, apart from what follows. */
  lemma {:induction false} CollapseConcat(a: JsString, t: JsString)
    requires a == [] || a[|a| - 1] != LF
    ensures CollapseNewlines(a + t) == CollapseNewlines(a) + CollapseNewlines(t)
    decreases |a|
  {
    if a == [] {
      assert a + t == t;
    } else if a[0] != LF {
      CollapseConcat(a[1..], t);
      CollapseStepChar(a, t, CollapseNewlines(t));
    } else {
      var j := LeadingNewlines(a);
      assert j < |a|;
      CollapseConcat(a[j..], t);
      CollapseStepRun(a, t, CollapseNewlines(t));
    }
  }

  /**
   * A maximal run of `k` line feeds between `a` and `b` becomes exactly two line feeds when
   * `k >= 3` and is kept as it is otherwise; the text on either side collapses on its own.
   */
  lemma CollapseRun(a: JsString, k: nat, b: JsString)
    requires a == [] || a[|a| - 1] != LF
    requires b == [] || b[0] != LF
    ensures CollapseNewlines(a + (Newlines(k) + b)) == CollapseNewlines(a) + (CollapsedRun(k) + CollapseNewlines(b))
  {
    CollapseConcat(a, Newlines(k) + b);
    CollapseRunFirst(k, b);
  }

  /**
   * `cleanText(t)`: non-breaking spaces become spaces, runs of three or more line feeds become
   * two, and the ends are trimmed; `null` or `undefined` gives "".
   */
  function CleanText(t: Option<JsString>): (r: JsString)
    ensures Nbsp !in r
    ensures NoTripleNewline(r)
    ensures IsTrimmed(r, IsJsWhitespace)
    ensures t == None ==> r == []
  {
    match t
    case None => []
    case Some(s) =>
      CollapseLeavesNoTriple(ReplaceNbsp(s));
      TrimKeepsClean(CollapseNewlines(ReplaceNbsp(s)));
      JsTrim(CollapseNewlines(ReplaceNbsp(s)))
  }

  /** Trimming keeps text free of non-breaking spaces and of triple line feeds: it only cuts the ends. */
  lemma TrimKeepsClean(c: JsString)
    requires Nbsp !in c && NoTripleNewline(c)
    ensures Nbsp !in JsTrim(c) && NoTripleNewline(JsTrim(c))
  {
    TrimKeepsNoNbsp(c);
    TrimKeepsNoTriple(c);
  }

  lemma TrimKeepsNoNbsp(c: JsString)
    requires Nbsp !in c
    ensures Nbsp !in JsTrim(c)
  {
    var i := TrimBlock(c, IsJsWhitespace);
  }

  lemma TrimKeepsNoTriple(c: JsString)
    requires NoTripleNewline(c)
    ensures NoTripleNewline(JsTrim(c))
  {
    var i := TrimIsBlock(c, IsJsWhitespace);
    NoTripleNewlineSlice(c, i, i + |Trim(c, IsJsWhitespace)|);
  }

  /** Cleaning cleaned text changes nothing. */
  lemma CleanTextIdempotent(t: Option<JsString>)
    ensures CleanText(Some(CleanText(t))) == CleanText(t)
  {
    var c := CleanText(t);
    assert ReplaceNbsp(c) == c;
    CollapseFixesNoTriple(c);
    TrimIdempotent(c, IsJsWhitespace);
  }

  // ---------------------------------------------------------------------------------------
  // Site profiles and dispatch

  datatype Site = LinkedIn | Indeed | Glassdoor | Generic

  const LinkedInMarker: JsString := Encode("linkedin.com")
  const IndeedMarker: JsString := Encode("indeed.")
  const GlassdoorMarker: JsString := Encode("glassdoor.")

  /**
   * The site profile for a hostname (isLinkedIn / isIndeed / isGlassdoor tried in that order):
   * a case-sensitive substring test on the raw hostname, first match wins, generic otherwise.
   */
  function SiteOf(host: JsString): (site: Site)
    ensures site == LinkedIn <==> Contains(host, LinkedInMarker)
    ensures site == Indeed <==> !Contains(host, LinkedInMarker) && Contains(host, IndeedMarker)
    ensures site == Glassdoor <==>
      !Contains(host, LinkedInMarker) && !Contains(host, IndeedMarker) && Contains(host, GlassdoorMarker)
    ensures site == Generic <==>
      !Contains(host, LinkedInMarker) && !Contains(host, IndeedMarker) && !Contains(host, GlassdoorMarker)
  {
    if Contains(host, LinkedInMarker) then LinkedIn
    else if Contains(host, IndeedMarker) then Indeed
    else if Contains(host, GlassdoorMarker) then Glassdoor
    else Generic
  }

  /**
   * The selector lists of a vendor site: what the readiness wait watches (and for how long, in
   * milliseconds), then the fallback chains for title, company and description. The wait is
   * not modelled, so `waitFor` and `waitMs` only record the profile; extraction reads the
   * three fallback chains.
   */
  datatype Profile = Profile(
    waitFor: seq<Selector>,
    waitMs: nat,
    title: seq<Selector>,
    company: seq<Selector>,
    description: seq<Selector>)

  const LinkedInProfile := Profile(
    [".jobs-unified-top-card__job-title h1", ".job-details-jobs-unified-top-card__job-title h1",
     ".jobs-description__content", ".show-more-less-html__markup"],
    3500,
    [".jobs-unified-top-card__job-title h1", ".job-details-jobs-unified-top-card__job-title h1",
     "h1.t-24.t-bold.inline", "h1.t-24.t-bold"],
    [".jobs-unified-top-card__company-name a", ".jobs-unified-top-card__company-name",
     ".job-details-jobs-unified-top-card__company-name a", ".job-details-jobs-unified-top-card__company-name",
     ".topcard__org-name-link"],
    [".jobs-description__content", ".jobs-description-content__text", ".show-more-less-html__markup",
     ".jobs-box__html-content", "article"])

  const IndeedProfile := Profile(
    ["h1.jobsearch-JobInfoHeader-title", "#jobDescriptionText", "[data-testid='jobDetailTitle']",
     "[data-testid='jobDescriptionText']"],
    3500,
    ["h1.jobsearch-JobInfoHeader-title", "[data-testid='jobDetailTitle']", "h1"],
    ["[data-testid='company-name']", "div.jobsearch-InlineCompanyRating div:first-child",
     "div.jobsearch-CompanyInfoWithoutHeaderImage div:first-child", "div.jobsearch-CompanyInfoContainer a",
     "div.jobsearch-CompanyInfoContainer div"],
    ["#jobDescriptionText", "[data-testid='jobDescriptionText']", ".jobsearch-jobDescriptionText",
     "article", "main"])

  const GlassdoorProfile := Profile(
    ["h1[data-test='job-title']", "[data-test='employer-name']", "[data-test='jobDescriptionContent']",
     "[data-test='job-description']"],
    4500,
    ["h1[data-test='job-title']", "h1[data-test='jobTitle']", "h1"],
    ["[data-test='employer-name']", "[data-test='employerName']", "[data-test='employer']",
     ".EmployerProfile_employerName__", ".employerName"],
    ["[data-test='jobDescriptionContent']", "[data-test='job-description']", "[data-test='jobDescription']",
     "article", "main"])

  const GenericCompany: seq<Selector> := ["[data-company-name]", ".company"]
  const GenericDescription: seq<Selector> := ["[data-job-description]", ".description", "article", "main", "body"]

  // ---------------------------------------------------------------------------------------
  // Extractors

  const MaxDescription: nat := 12000

  /** The record every extractor returns. */
  datatype ExtractedJob = ExtractedJob(jobTitle: JsString, company: JsString, jobDescription: JsString)

  /**
   * The record built from the three picked texts: each is cleaned, and the description is then
   * cut to 12000 code units (and not trimmed again), so it is a prefix of the cleaned text that
   * equals it whenever that is short enough.
   */
  function JobFromTexts(title: JsString, company: JsString, description: JsString): (job: ExtractedJob)
    ensures job.jobTitle == CleanText(Some(title)) && job.company == CleanText(Some(company))
    ensures job.jobDescription <= CleanText(Some(description))
    ensures |job.jobDescription| <= MaxDescription
    ensures |CleanText(Some(description))| <= MaxDescription ==> job.jobDescription == CleanText(Some(description))
    ensures |CleanText(Some(description))| > MaxDescription ==> |job.jobDescription| == MaxDescription
  {
    ExtractedJob(CleanText(Some(title)), CleanText(Some(company)), Take(CleanText(Some(description)), MaxDescription))
  }

  /**
   * The generic title: the first `h1`'s `innerText` when that is a non-empty string, otherwise
   * `document.title`, trimmed.
   */
  function GenericTitle(page: Page): JsString
  {
    var h1 := if "h1" in page.elements then page.elements["h1"] else None;
    JsTrim(if h1.Some? && h1.value != [] then h1.value else page.title)
  }

  /** An `h1` holding only whitespace is truthy, so it gives an empty title and `document.title` is not consulted. */
  lemma BlankHeadingHidesDocumentTitle(page: Page, heading: JsString)
    requires "h1" in page.elements && page.elements["h1"] == Some(heading)
    requires heading != [] && All(heading, IsJsWhitespace)
    ensures GenericTitle(page) == []
  {
    TrimPadded(heading, [], [], IsJsWhitespace);
    assert heading + [] + [] == heading;
  }

  /** A heading with text gives that text, trimmed. */
  lemma HeadingTextIsTitle(page: Page)
    requires "h1" in page.elements && page.elements["h1"].Some? && JsTrim(page.elements["h1"].value) != []
    ensures GenericTitle(page) == JsTrim(page.elements["h1"].value)
  {
  }

  /** The selector lists of a vendor site. */
  function ProfileOf(site: Site): Profile
    requires site != Generic
  {
    match site
    case LinkedIn => LinkedInProfile
    case Indeed => IndeedProfile
    case Glassdoor => GlassdoorProfile
  }

  /** What a vendor extractor returns: the three picked texts, cleaned. */
  function VendorExtraction(p: Profile, page: Page): ExtractedJob
  {
    JobFromTexts(FirstNonBlank(p.title, page.elements), FirstNonBlank(p.company, page.elements),
                 FirstNonBlank(p.description, page.elements))
  }

  /** What the generic extractor returns. */
  function GenericExtraction(page: Page): ExtractedJob
  {
    JobFromTexts(GenericTitle(page), FirstNonBlank(GenericCompany, page.elements),
                 FirstNonBlank(GenericDescription, page.elements))
  }

  /** What the extractor for `site` returns on `page`. */
  function Extraction(site: Site, page: Page): ExtractedJob
  {
    if site == Generic then GenericExtraction(page) else VendorExtraction(ProfileOf(site), page)
  }

  /** The picked text the description of `site`'s extractor is cut from. */
  function DescriptionSource(site: Site, page: Page): JsString
  {
    FirstNonBlank(if site == Generic then GenericDescription else ProfileOf(site).description, page.elements)
  }

  /**
   * Every field of `job` is clean, and its description is a prefix of the cleaned description
   * text `d`, at most 12000 code units long, the whole of `d` when that fits.
   */
  predicate CleanRecord(job: ExtractedJob, d: JsString)
  {
    && Nbsp !in job.jobTitle && Nbsp !in job.company && Nbsp !in job.jobDescription
    && IsTrimmed(job.jobTitle, IsJsWhitespace) && IsTrimmed(job.company, IsJsWhitespace)
    && NoTripleNewline(job.jobTitle) && NoTripleNewline(job.company) && NoTripleNewline(job.jobDescription)
    && job.jobDescription <= d && |job.jobDescription| <= MaxDescription
    && (|d| <= MaxDescription ==> job.jobDescription == d)
  }

  /** The record built from any three texts is clean. */
  lemma JobIsClean(title: JsString, company: JsString, description: JsString)
    ensures CleanRecord(JobFromTexts(title, company, description), CleanText(Some(description)))
  {
    var job := JobFromTexts(title, company, description);
    CleanCut(CleanText(Some(description)));
    assert job.jobDescription == Take(CleanText(Some(description)), MaxDescription);
  }

  /** Cutting clean text to 12000 code units keeps it clean. */
  lemma CleanCut(d: JsString)
    requires Nbsp !in d && NoTripleNewline(d)
    ensures var x := Take(d, MaxDescription); Nbsp !in x && NoTripleNewline(x)
  {
    var x := Take(d, MaxDescription);
    assert x == d[..|x|];
    CleanPrefix(d, |x|);
  }

  /** A prefix of clean text is clean. */
  lemma CleanPrefix(d: JsString, n: nat)
    requires Nbsp !in d && NoTripleNewline(d) && n <= |d|
    ensures Nbsp !in d[..n] && NoTripleNewline(d[..n])
  {
    NoTripleNewlineSlice(d, 0, n);
    assert d[0..n] == d[..n];
  }

  /** Every extractor's record is clean, its description cut from the description text it picked. */
  lemma ExtractionIsClean(site: Site, page: Page)
    ensures CleanRecord(Extraction(site, page), CleanText(Some(DescriptionSource(site, page))))
  {
    if site == Generic {
      JobIsClean(GenericTitle(page), FirstNonBlank(GenericCompany, page.elements),
                 FirstNonBlank(GenericDescription, page.elements));
    } else {
      var p := ProfileOf(site);
      JobIsClean(FirstNonBlank(p.title, page.elements), FirstNonBlank(p.company, page.elements),
                 FirstNonBlank(p.description, page.elements));
    }
  }

  /** extractLinkedIn / extractIndeed / extractGlassdoor after the wait: three `pickText` calls. */
  method ExtractVendor(p: Profile, page: Page) returns (job: ExtractedJob)
    ensures job == VendorExtraction(p, page)
  {
    var title := PickText(p.title, page.elements);
    var company := PickText(p.company, page.elements);
    var description := PickText(p.description, page.elements);
    job := JobFromTexts(title, company, description);
  }

  /** extractGeneric: no wait, the heading or document title, then two `pickText` calls. */
  method ExtractGeneric(page: Page) returns (job: ExtractedJob)
    ensures job == GenericExtraction(page)
  {
    var title := GenericTitle(page);
    var company := PickText(GenericCompany, page.elements);
    var description := PickText(GenericDescription, page.elements);
    job := JobFromTexts(title, company, description);
  }

  // ---------------------------------------------------------------------------------------
  // Message handling

  const GetSelectionType: JsString := Encode("JP_GET_SELECTION")
  const ExtractJobType: JsString := Encode("JP_EXTRACT_JOB")
  const UnknownTypeError: JsString := Encode("Unknown message type")

  /** The `debug` object sent with an extracted job. */
  datatype Debug = Debug(host: JsString, hasTitle: bool, hasCompany: bool, hasDesc: bool)

  /** What the content script sends back through `sendResponse`. */
  datatype Reply =
    | SelectionReply(ok: bool, text: JsString)   // `{ ok, text }`
    | JobReply(job: ExtractedJob, debug: Debug)   // `{ ok: true, job, debug }`
    | ErrorReply(error: JsString)                 // `{ ok: false, error }`

  /**
   * The reply to JP_GET_SELECTION: `ok` exactly when the trimmed selection is not empty, with at
   * most 12000 code units of it as `text` ("" when there is no selection).
   */
  function SelectionReplyOf(selection: Option<JsString>): (r: Reply)
    ensures r.SelectionReply?
    ensures r.ok <==> selection.Some? && JsTrim(selection.value) != []
    ensures r.ok ==> r.text != []
    ensures |r.text| <= MaxDescription
    ensures r.text <= if selection.Some? then JsTrim(selection.value) else []
  {
    match selection
    case None => SelectionReply(false, [])
    case Some(s) =>
      var text := JsTrim(s);
      SelectionReply(text != [], Take(text, MaxDescription))
  }

  /** The extractor the page's host selects. */
  method ExtractJob(page: Page) returns (job: ExtractedJob)
    ensures job == Extraction(SiteOf(page.hostname), page)
  {
    var site := SiteOf(page.hostname);
    if site == Generic {
      job := ExtractGeneric(page);
    } else {
      job := ExtractVendor(ProfileOf(site), page);
    }
  }

  /**
   * The `onMessage` listener. `msgType` is `msg.type` when it is a string; `fault` stands for an
   * error thrown by the page environment while the request is handled, as `String(e)` shows it.
   */
  method HandleMessage(msgType: Option<JsString>, page: Page, fault: Option<JsString>) returns (reply: Reply)
    ensures fault.Some? ==> reply == ErrorReply(fault.value)
    ensures fault.None? && msgType == Some(GetSelectionType) ==> reply == SelectionReplyOf(page.selection)
    ensures fault.None? && msgType == Some(ExtractJobType) ==>
      var job := Extraction(SiteOf(page.hostname), page);
      reply == JobReply(job, Debug(page.hostname, job.jobTitle != [], job.company != [], job.jobDescription != []))
    ensures fault.None? && msgType != Some(GetSelectionType) && msgType != Some(ExtractJobType) ==>
      reply == ErrorReply(UnknownTypeError)
  {
    if fault.Some? {
      return ErrorReply(fault.value);
    }
    RequestTypesDiffer();
    if msgType == Some(GetSelectionType) {
      return SelectionReplyOf(page.selection);
    }
    if msgType == Some(ExtractJobType) {
      var job := ExtractJob(page);
      return JobReply(job, Debug(page.hostname, job.jobTitle != [], job.company != [], job.jobDescription != []));
    }
    return ErrorReply(UnknownTypeError);
  }

  /** The two request types are different strings, so each reaches its own branch. */
  lemma RequestTypesDiffer()
    ensures GetSelectionType != ExtractJobType
  {
    EncodeInjective("JP_GET_SELECTION", "JP_EXTRACT_JOB");
  }

  // ---------------------------------------------------------------------------------------
  // The reply as the popup receives it

  /** The `job` object as JSON: a field the sender left out is None. */
  datatype WireJob = WireJob(jobTitle: Option<JsString>, company: Option<JsString>, jobDescription: Option<JsString>)

  /** A reply as JSON: `ok`, and whichever of `job`, `text` and `error` it carries. */
  datatype WireReply = WireReply(ok: bool, job: Option<WireJob>, text: Option<JsString>, error: Option<JsString>)

  /** The JSON form of a reply. */
  function ToWire(r: Reply): (w: WireReply)
    ensures w.ok <==> (r.SelectionReply? && r.ok) || r.JobReply?
    ensures r.JobReply? ==> w.job == Some(WireJob(Some(r.job.jobTitle), Some(r.job.company), Some(r.job.jobDescription)))
    ensures r.ErrorReply? ==> w.error == Some(r.error) && w.job == None
  {
    match r
    case SelectionReply(ok, text) => WireReply(ok, None, Some(text), None)
    case JobReply(job, _) => WireReply(true, Some(WireJob(Some(job.jobTitle), Some(job.company), Some(job.jobDescription))), None, None)
    case ErrorReply(e) => WireReply(false, None, None, Some(e))
  }
}

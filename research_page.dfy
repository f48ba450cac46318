/**
 * The research page: the url test behind its Analyze button, what a click
 * on Analyze sends (a JSON body for a url, a multipart form for an upload)
 * or the error it shows instead, the message it shows for a failed
 * request, and the Markdown export of an analysis.
 */
module ResearchPage {
  import opened Wrappers
  import opened Strings
  import opened JsonValue
  import AnalyzeRoute
  import Middleware

  // ---------------------------------------------------------------------------
  // The url test

  /** `/\.pdf(\?|$)/i.test(url)`, stated through its two ways of matching. */
  predicate LooksPdf(url: string) {
    PdfMarked(LowerAscii(url))
  }

  /** The lower-cased url ends with ".pdf" or contains ".pdf?". */
  predicate PdfMarked(lower: string) {
    (|lower| >= 4 && lower[|lower| - 4..] == ".pdf") || Contains(lower, ".pdf?")
  }

  /**
   * The test holds exactly when ".pdf", in any ASCII case, occurs somewhere
   * followed by a '?' or by the end of the url.
   */
  lemma LooksPdfIff(url: string)
    ensures LooksPdf(url) <==> exists j :: OccursAt(LowerAscii(url), ".pdf", j)
                                        && (j + 4 == |url| || LowerAscii(url)[j + 4] == '?')
  {
    PdfMarkedIff(LowerAscii(url));
  }

  lemma PdfMarkedIff(lower: string)
    ensures PdfMarked(lower) <==> exists j :: OccursAt(lower, ".pdf", j) && (j + 4 == |lower| || lower[j + 4] == '?')
  {
    if |lower| >= 4 && lower[|lower| - 4..] == ".pdf" {
      assert OccursAt(lower, ".pdf", |lower| - 4);
    }
    if Contains(lower, ".pdf?") {
      var i := Find(lower, ".pdf?").value;
      QueryAfterPdf(lower, i);
    }
    forall j | OccursAt(lower, ".pdf", j) && (j + 4 == |lower| || lower[j + 4] == '?')
      ensures PdfMarked(lower)
    {
      if j + 4 < |lower| {
        PdfBeforeQuery(lower, j);
        ContainsIff(lower, ".pdf?");
      } else {
        assert lower[|lower| - 4..] == lower[j..j + 4];
      }
    }
  }

  /** ".pdf?" at `i` is ".pdf" at `i` followed by '?'. */
  lemma QueryAfterPdf(s: string, i: int)
    requires OccursAt(s, ".pdf?", i)
    ensures OccursAt(s, ".pdf", i) && s[i + 4] == '?'
  {
    var w := s[i..i + 5];
    assert s[i..i + 4] == w[..4];
    assert s[i + 4] == w[4];
  }

  /** ".pdf" at `j` followed by '?' is ".pdf?" at `j`. */
  lemma PdfBeforeQuery(s: string, j: int)
    requires OccursAt(s, ".pdf", j) && j + 4 < |s| && s[j + 4] == '?'
    ensures OccursAt(s, ".pdf?", j)
  {
    assert s[j..j + 5] == s[j..j + 4] + [s[j + 4]];
  }

  /** The end of the url may follow ".pdf", but a fragment may not. */
  lemma LooksPdfExamples()
    ensures LooksPdf("x.PDF?dl=1")
    ensures LooksPdf("x.pdf")
    ensures !LooksPdf("x.pdf#frag")
  {
    QueryExample();
    assert LowerAscii("x.pdf") == "x.pdf";
    FragmentExample();
  }

  lemma QueryExample()
    ensures LooksPdf("x.PDF?dl=1")
  {
    var lower := LowerAscii("x.PDF?dl=1");
    assert lower[1] == '.' && lower[2] == 'p' && lower[3] == 'd' && lower[4] == 'f' && lower[5] == '?';
    PdfMarkedIff(lower);
    assert OccursAt(lower, ".pdf", 1);
  }

  lemma FragmentExample()
    ensures !LooksPdf("x.pdf#frag")
  {
    var lower := LowerAscii("x.pdf#frag");
    assert lower == "x.pdf#frag";
    NoQueryNoMark(lower);
  }

  /** A lower-cased url without '?' that does not end in ".pdf" does not look like a PDF. */
  lemma NoQueryNoMark(lower: string)
    requires '?' !in lower
    requires !(|lower| >= 4 && lower[|lower| - 4..] == ".pdf")
    ensures !PdfMarked(lower)
  {
    forall j | 0 <= j && j + 5 <= |lower| ensures !OccursAt(lower, ".pdf?", j) {
      assert lower[j..j + 5][4] == lower[j + 4];
    }
    ContainsIff(lower, ".pdf?");
  }

  /**
   * `isValidUrl`: a non-empty url that the URL parser accepts, with the
   * http or https protocol, that either looks like a PDF or is an arXiv
   * abstract or PDF page. `protocol` stands for `new URL(url).protocol`,
   * None when the constructor throws.
   */
  predicate IsValidUrl(url: string, protocol: string -> Option<string>) {
    if url == "" then false
    else match protocol(url)
      case None => false
      case Some(p) => (p == "http:" || p == "https:") && (LooksPdf(url) || AnalyzeRoute.IsArxivUrl(url))
  }

  /**
   * A url passes exactly when it is filled in, parses with an http(s)
   * protocol, and its lower-cased text has ".pdf" before a "?" or the end,
   * or names an arXiv abstract or PDF page.
   */
  lemma IsValidUrlIff(url: string, protocol: string -> Option<string>)
    ensures var lower := LowerAscii(url);
      IsValidUrl(url, protocol) <==>
        && url != ""
        && (protocol(url) == Some("http:") || protocol(url) == Some("https:"))
        && (|| (exists j :: OccursAt(lower, ".pdf", j) && (j + 4 == |url| || lower[j + 4] == '?'))
            || (exists j :: OccursAt(lower, "arxiv.org/abs/", j) || OccursAt(lower, "arxiv.org/pdf/", j)))
  {
    LooksPdfIff(url);
    AnalyzeRoute.ArxivUrlIff(url);
    ValidUrlParts(url, protocol, LooksPdf(url), AnalyzeRoute.IsArxivUrl(url));
  }

  /** `isValidUrl` as the conjunction of its three tests. */
  lemma ValidUrlParts(url: string, protocol: string -> Option<string>, pdf: bool, arxiv: bool)
    requires LooksPdf(url) == pdf && AnalyzeRoute.IsArxivUrl(url) == arxiv
    ensures IsValidUrl(url, protocol)
      <==> url != "" && (protocol(url) == Some("http:") || protocol(url) == Some("https:")) && (pdf || arxiv)
  {
  }

  /** The url field is marked invalid when it is filled in and fails the test. */
  predicate UrlMarkedInvalid(url: string, protocol: string -> Option<string>) {
    url != "" && !IsValidUrl(url, protocol)
  }

  // ---------------------------------------------------------------------------
  // A click on Analyze

  datatype Tab = UrlTab | UploadTab

  /**
   * What the page holds when Analyze is clicked. `key` and `model` are the
   * stored credentials, `localStorage.getItem(..) || ''`.
   */
  datatype PageState = PageState(tab: Tab, url: string, file: Option<AnalyzeRoute.UploadFile>, key: string, model: string)

  const MISSING_CONFIG: string := "Missing OpenRouter key/model. Configure under the Config tab."
  const INVALID_URL: string := "Enter a valid PDF or arXiv URL."
  const NO_FILE_SELECTED: string := "Please select a PDF to upload."
  const ANALYZE_PATH: string := "/api/research/analyze"

  datatype Submission =
    | ShowError(message: string)
    | PostJson(body: Json)
    | PostForm(form: AnalyzeRoute.FormData)

  /** The form an upload sends; the url rides along only when it is filled in. */
  function UploadForm(file: AnalyzeRoute.UploadFile, key: string, model: string, url: string): AnalyzeRoute.FormData {
    var form := map[
      "file" := AnalyzeRoute.FFile(file),
      "openrouterApiKey" := AnalyzeRoute.FText(key),
      "openrouterModel" := AnalyzeRoute.FText(model)
    ];
    if url != "" then form["url" := AnalyzeRoute.FText(url)] else form
  }

  /** `onAnalyze` up to the request it sends: the credentials are checked, then the tab's input. */
  function OnAnalyze(st: PageState, protocol: string -> Option<string>): Submission {
    if st.key == "" || st.model == "" then ShowError(MISSING_CONFIG)
    else if st.tab == UrlTab then
      if !IsValidUrl(st.url, protocol) then ShowError(INVALID_URL)
      else PostJson(JObj(map[
        "url" := JStr(st.url),
        "openrouterApiKey" := JStr(st.key),
        "openrouterModel" := JStr(st.model)
      ]))
    else if st.file.None? then ShowError(NO_FILE_SELECTED)
    else PostForm(UploadForm(st.file.value, st.key, st.model, st.url))
  }

  /** The Analyze button is disabled while loading, and when the tab's input is missing or invalid. */
  predicate AnalyzeDisabled(st: PageState, loading: bool, protocol: string -> Option<string>) {
    loading || (if st.tab == UrlTab then !IsValidUrl(st.url, protocol) else st.file.None?)
  }

  /**
   * The page-side checks come in order: missing credentials first, then an
   * invalid url on the url tab or a missing file on the upload tab; a
   * request goes out exactly when none of them fails, as JSON from the url
   * tab and as a form from the upload tab.
   */
  lemma OnAnalyzeChecksInOrder(st: PageState, protocol: string -> Option<string>)
    ensures var r := OnAnalyze(st, protocol);
      && (st.key == "" || st.model == "" ==> r == ShowError(MISSING_CONFIG))
      && (st.key != "" && st.model != "" && st.tab == UrlTab && !IsValidUrl(st.url, protocol)
          ==> r == ShowError(INVALID_URL))
      && (st.key != "" && st.model != "" && st.tab == UploadTab && st.file.None?
          ==> r == ShowError(NO_FILE_SELECTED))
      && (r.PostJson? <==> st.key != "" && st.model != "" && st.tab == UrlTab && IsValidUrl(st.url, protocol))
      && (r.PostForm? <==> st.key != "" && st.model != "" && st.tab == UploadTab && st.file.Some?)
  {
  }

  /** An enabled button only ever fails on the page for want of credentials. */
  lemma EnabledButtonSends(st: PageState, protocol: string -> Option<string>)
    requires !AnalyzeDisabled(st, false, protocol)
    ensures OnAnalyze(st, protocol).ShowError? <==> st.key == "" || st.model == ""
  {
  }

  /**
   * What the url tab sends passes the middleware and the route's checks,
   * and the route will use the url as the paper's link.
   */
  lemma UrlSubmissionAccepted(st: PageState, protocol: string -> Option<string>)
    requires OnAnalyze(st, protocol).PostJson?
    ensures var body := OnAnalyze(st, protocol).body;
      var req := AnalyzeRoute.AnalyzeRequest(Some(Middleware.JSON_TYPE), None, Some(body));
      && !Middleware.Rejects(Middleware.Request("POST", ANALYZE_PATH, Some(Middleware.JSON_TYPE)))
      && !Middleware.RejectsAsWritten(Middleware.Request("POST", ANALYZE_PATH, Some(Middleware.JSON_TYPE)))
      && AnalyzeRoute.CheckRequest(req) == Success(AnalyzeRoute.Accepted(Some(JStr(st.url))))
  {
    Middleware.JsonRequestPasses(ANALYZE_PATH, "POST", "");
    assert Middleware.JSON_TYPE + "" == Middleware.JSON_TYPE;
    assert st.url != "" && st.key != "" && st.model != "";
    JsonRequestChecksBody(OnAnalyze(st, protocol).body);
    JsonBodyAccepted(st.url, st.key, st.model);
  }

  /** A JSON request is checked as a JSON body. */
  lemma JsonRequestChecksBody(body: Json)
    ensures AnalyzeRoute.CheckRequest(AnalyzeRoute.AnalyzeRequest(Some(Middleware.JSON_TYPE), None, Some(body)))
            == AnalyzeRoute.CheckJsonBody(Some(body))
  {
    Middleware.JsonTypeNotMultipart();
  }

  /** The route's JSON checks pass on the body the url tab builds from non-empty values. */
  lemma JsonBodyAccepted(url: string, key: string, model: string)
    requires url != "" && key != "" && model != ""
    ensures AnalyzeRoute.CheckJsonBody(Some(JObj(map[
              "url" := JStr(url), "openrouterApiKey" := JStr(key), "openrouterModel" := JStr(model)])))
            == Success(AnalyzeRoute.Accepted(Some(JStr(url))))
  {
  }

  lemma AnalyzePathIsApi() ensures "/api/" <= ANALYZE_PATH {}

  /**
   * What the upload tab sends is refused by the middleware as written, with
   * 415, before the route sees it. With the intended guard it gets through,
   * and the route accepts it exactly when the file is a PDF of at least one
   * byte and at most 20 MiB; the paper's link is then the url typed in, if any.
   */
  lemma UploadSubmission(st: PageState, protocol: string -> Option<string>, boundary: string)
    requires OnAnalyze(st, protocol).PostForm?
    requires !Contains(boundary, Middleware.JSON_TYPE)
    ensures var form := OnAnalyze(st, protocol).form;
      var ct := Middleware.MultipartHeader(boundary);
      var req := AnalyzeRoute.AnalyzeRequest(Some(ct), Some(form), None);
      var file := st.file.value;
      && Middleware.RejectsAsWritten(Middleware.Request("POST", ANALYZE_PATH, Some(ct)))
      && !Middleware.Rejects(Middleware.Request("POST", ANALYZE_PATH, Some(ct)))
      && (AnalyzeRoute.CheckRequest(req).Success?
          <==> file.mime == "application/pdf" && 0 < file.size <= AnalyzeRoute.MAX_PDF_SIZE)
      && (AnalyzeRoute.CheckRequest(req).Success? ==>
            AnalyzeRoute.CheckRequest(req).value.linkForMeta == (if st.url == "" then None else Some(JStr(st.url))))
  {
    AnalyzePathIsApi();
    Middleware.MultipartUploadRefused(ANALYZE_PATH, boundary);
    Middleware.MultipartHeaderIsMultipart(boundary);
    var form := OnAnalyze(st, protocol).form;
    AnalyzeRoute.UploadChecksInOrder(form);
  }

  // ---------------------------------------------------------------------------
  // A failed request

  /**
   * `j?.error || \`Request failed (${res.status})\``, for a response body
   * whose `error`, when truthy, is a string.
   */
  function FailureMessage(status: nat, body: Option<Json>): (r: string)
    ensures r != ""
    ensures var e := FieldOf(body, "error");
      e.Some? && e.value.JStr? && e.value.s != "" ==> r == e.value.s
    ensures var e := FieldOf(body, "error");
      !(e.Some? && Truthy(e.value)) ==> r == "Request failed (" + NatToString(status) + ")"
  {
    var e := FieldOf(body, "error");
    if e.Some? && e.value.JStr? && e.value.s != "" then e.value.s
    else "Request failed (" + NatToString(status) + ")"
  }

  /** An upload refused by the middleware as written shows the middleware's own message. */
  lemma RefusedUploadMessage()
    ensures FailureMessage(Middleware.UNSUPPORTED_MEDIA_TYPE,
                           Some(JObj(map["error" := JStr(Middleware.UNSUPPORTED_MESSAGE)])))
            == Middleware.UNSUPPORTED_MESSAGE
  {
  }

  // ---------------------------------------------------------------------------
  // The Markdown export

  /** The textual fields of an analysis that the export writes. */
  datatype Analysis = Analysis(
    title: string,
    authors: seq<string>,
    venueYear: string,
    link: string,
    codeOrData: string,
    coreContribution: string,
    innovations: seq<string>,
    classification: string,
    justification: string,
    limitations: seq<string>,
    openQuestions: seq<string>,
    summary: string)

  /** One `- ` line per item. */
  function Bullets(items: seq<string>): (r: seq<string>)
    ensures |r| == |items|
    ensures forall i :: 0 <= i < |items| ==> r[i] == "- " + items[i]
  {
    seq(|items|, i requires 0 <= i < |items| => "- " + items[i])
  }

  const TITLE_LINE: string := "# Research Analysis"
  const METADATA_HEADING: string := "## Metadata Snapshot"
  const CORE_HEADING: string := "## Core Contribution"
  const INNOVATIONS_HEADING: string := "## Key Innovations & Methodology"
  const SIGNIFICANCE_HEADING: string := "## Significance & Impact"
  const LIMITATIONS_HEADING: string := "## Weaknesses & Limitations"
  const QUESTIONS_HEADING: string := "## Open Questions & Future Directions"
  const SUMMARY_HEADING: string := "## Plain-English Summary"

  /** The lines of the export before the innovations. */
  function Opening(a: Analysis): seq<string> {
    [
      TITLE_LINE, "", METADATA_HEADING,
      "- Title: " + a.title,
      "- Authors: " + Join(a.authors, ", "),
      "- Venue/Year: " + a.venueYear,
      "- Link: " + a.link,
      "- Code/Data: " + a.codeOrData,
      "", CORE_HEADING, a.coreContribution, "", INNOVATIONS_HEADING
    ]
  }

  function Significance(a: Analysis): seq<string> {
    [
      "", SIGNIFICANCE_HEADING,
      "- Classification: " + a.classification,
      "- Justification: " + a.justification,
      "", LIMITATIONS_HEADING
    ]
  }

  const QUESTIONS_LINES: seq<string> := ["", QUESTIONS_HEADING]

  function Closing(a: Analysis): seq<string> {
    ["", SUMMARY_HEADING, a.summary]
  }

  /** The lines of the export, in order. */
  function MarkdownLines(a: Analysis): seq<string> {
    Opening(a) + Bullets(a.innovations) + Significance(a) + Bullets(a.limitations)
      + QUESTIONS_LINES + Bullets(a.openQuestions) + Closing(a)
  }

  /** `items.forEach((b) => mdLines.push(\`- ${b}\`))`. */
  method PushBullets(md: seq<string>, items: seq<string>) returns (r: seq<string>)
    ensures r == md + Bullets(items)
  {
    r := md;
    for i := 0 to |items|
      invariant r == md + Bullets(items[..i])
    {
      assert Bullets(items[..i + 1]) == Bullets(items[..i]) + ["- " + items[i]];
      r := r + ["- " + items[i]];
    }
    assert items[..|items|] == items;
  }

  /** `onExportMarkdown` up to the download: the lines, pushed in order, then joined with newlines. */
  method ExportMarkdown(a: Analysis) returns (text: string)
    ensures text == Join(MarkdownLines(a), "\n")
  {
    var md: seq<string> := [];
    md := md + [TITLE_LINE];
    md := md + [""];
    md := md + [METADATA_HEADING];
    md := md + ["- Title: " + a.title];
    md := md + ["- Authors: " + Join(a.authors, ", ")];
    md := md + ["- Venue/Year: " + a.venueYear];
    md := md + ["- Link: " + a.link];
    md := md + ["- Code/Data: " + a.codeOrData];
    md := md + [""];
    md := md + [CORE_HEADING];
    md := md + [a.coreContribution];
    md := md + [""];
    md := md + [INNOVATIONS_HEADING];
    assert md == Opening(a);
    md := PushBullets(md, a.innovations);
    ghost var p1 := md;
    md := md + [""];
    md := md + [SIGNIFICANCE_HEADING];
    md := md + ["- Classification: " + a.classification];
    md := md + ["- Justification: " + a.justification];
    md := md + [""];
    md := md + [LIMITATIONS_HEADING];
    assert md == p1 + Significance(a);
    md := PushBullets(md, a.limitations);
    ghost var p3 := md;
    md := md + [""];
    md := md + [QUESTIONS_HEADING];
    assert md == p3 + QUESTIONS_LINES;
    md := PushBullets(md, a.openQuestions);
    ghost var p5 := md;
    md := md + [""];
    md := md + [SUMMARY_HEADING];
    md := md + [a.summary];
    assert md == p5 + Closing(a);
    assert md == MarkdownLines(a);
    text := Join(md, "\n");
  }

  /**
   * The export has 24 fixed lines plus one per list item, and each section
   * heading sits right after the previous section's items.
   */
  lemma MarkdownLayout(a: Analysis)
    ensures var md := MarkdownLines(a);
      var n1 := |a.innovations|;
      var n2 := |a.limitations|;
      var n3 := |a.openQuestions|;
      && |md| == 24 + n1 + n2 + n3
      && md[0] == TITLE_LINE && md[2] == METADATA_HEADING && md[9] == CORE_HEADING
      && md[12] == INNOVATIONS_HEADING
      && md[14 + n1] == SIGNIFICANCE_HEADING
      && md[18 + n1] == LIMITATIONS_HEADING
      && md[20 + n1 + n2] == QUESTIONS_HEADING
      && md[22 + n1 + n2 + n3] == SUMMARY_HEADING
      && md[23 + n1 + n2 + n3] == a.summary
      && md[4] == "- Authors: " + Join(a.authors, ", ")
  {
    var n1 := |a.innovations|;
    var n2 := |a.limitations|;
    var p1 := Opening(a) + Bullets(a.innovations);
    var p2 := p1 + Significance(a);
    var p3 := p2 + Bullets(a.limitations);
    var p4 := p3 + QUESTIONS_LINES;
    var p5 := p4 + Bullets(a.openQuestions);
    var md := MarkdownLines(a);
    assert md == p5 + Closing(a);
    assert |p1| == 13 + n1 && |p3| == 19 + n1 + n2 && |p5| == 21 + n1 + n2 + |a.openQuestions|;
    assert md[12] == p1[12] && md[0] == p1[0] && md[2] == p1[2] && md[4] == p1[4] && md[9] == p1[9];
    assert md[14 + n1] == p2[14 + n1] && md[18 + n1] == p2[18 + n1];
    assert md[20 + n1 + n2] == p4[20 + n1 + n2];
  }

  /** Each section's items appear as bullet lines, in order, right after its heading. */
  lemma MarkdownBullets(a: Analysis)
    ensures var md := MarkdownLines(a);
      var n1 := |a.innovations|;
      var n2 := |a.limitations|;
      var n3 := |a.openQuestions|;
      && |md| == 24 + n1 + n2 + n3
      && (forall i :: 0 <= i < n1 ==> md[13 + i] == "- " + a.innovations[i])
      && (forall i :: 0 <= i < n2 ==> md[19 + n1 + i] == "- " + a.limitations[i])
      && (forall i :: 0 <= i < n3 ==> md[21 + n1 + n2 + i] == "- " + a.openQuestions[i])
  {
    var md := MarkdownLines(a);
    var b1 := Bullets(a.innovations);
    var b2 := Bullets(a.limitations);
    var b3 := Bullets(a.openQuestions);
    var pre2 := Opening(a) + b1 + Significance(a);
    var pre3 := pre2 + b2 + QUESTIONS_LINES;
    var post3 := Closing(a);
    var post2 := QUESTIONS_LINES + b3 + post3;
    var post1 := Significance(a) + b2 + post2;
    assert md == Opening(a) + b1 + post1;
    assert md == pre2 + b2 + post2;
    assert md == pre3 + b3 + post3;
    BulletsBetween(Opening(a), a.innovations, post1);
    BulletsBetween(pre2, a.limitations, post2);
    BulletsBetween(pre3, a.openQuestions, post3);
  }

  /** The bullet lines of `items`, placed after `pre`, start at index `|pre|`. */
  lemma BulletsBetween(pre: seq<string>, items: seq<string>, post: seq<string>)
    ensures var md := pre + Bullets(items) + post;
      forall i :: 0 <= i < |items| ==> md[|pre| + i] == "- " + items[i]
  {
  }

  /** `s` has no line break, so it stays one line of the export. */
  predicate OneLine(s: string) {
    Avoids(s, '\n')
  }

  lemma OneLineConcat(a: string, b: string)
    requires OneLine(a) && OneLine(b)
    ensures OneLine(a + b)
  {
  }

  /** Every line of `lines` is a single line. */
  predicate AllOneLine(lines: seq<string>) {
    AllAvoid(lines, '\n')
  }

  lemma AllOneLineConcat(a: seq<string>, b: seq<string>)
    requires AllOneLine(a) && AllOneLine(b)
    ensures AllOneLine(a + b)
  {
    forall k | 0 <= k < |a + b| ensures OneLine((a + b)[k]) {
      if k < |a| { assert (a + b)[k] == a[k]; } else { assert (a + b)[k] == b[k - |a|]; }
    }
  }

  /** Every text field and list item of the analysis is a single line. */
  predicate SingleLineFields(a: Analysis) {
    && OneLine(a.title) && OneLine(a.venueYear) && OneLine(a.link) && OneLine(a.codeOrData)
    && OneLine(a.coreContribution) && OneLine(a.classification) && OneLine(a.justification)
    && OneLine(a.summary)
    && AllOneLine(a.authors) && AllOneLine(a.innovations) && AllOneLine(a.limitations)
    && AllOneLine(a.openQuestions)
  }

  lemma BulletsOneLine(items: seq<string>)
    requires AllOneLine(items)
    ensures AllOneLine(Bullets(items))
  {
    forall k | 0 <= k < |items| ensures OneLine(Bullets(items)[k]) {
      OneLineConcat("- ", items[k]);
    }
  }

  lemma OpeningOneLine(a: Analysis)
    requires SingleLineFields(a)
    ensures AllOneLine(Opening(a))
  {
    JoinAvoids(a.authors, ", ", '\n');
    OneLineConcat("- Title: ", a.title);
    OneLineConcat("- Authors: ", Join(a.authors, ", "));
    OneLineConcat("- Venue/Year: ", a.venueYear);
    OneLineConcat("- Link: ", a.link);
    OneLineConcat("- Code/Data: ", a.codeOrData);
  }

  lemma SignificanceOneLine(a: Analysis)
    requires SingleLineFields(a)
    ensures AllOneLine(Significance(a))
  {
    OneLineConcat("- Classification: ", a.classification);
    OneLineConcat("- Justification: ", a.justification);
  }

  lemma MarkdownLinesOneLine(a: Analysis)
    requires SingleLineFields(a)
    ensures AllOneLine(MarkdownLines(a))
  {
    OpeningOneLine(a);
    SignificanceOneLine(a);
    BulletsOneLine(a.innovations);
    BulletsOneLine(a.limitations);
    BulletsOneLine(a.openQuestions);
    assert AllOneLine(Closing(a));
    assert AllOneLine(QUESTIONS_LINES);
    var p1 := Opening(a) + Bullets(a.innovations);
    AllOneLineConcat(Opening(a), Bullets(a.innovations));
    var p2 := p1 + Significance(a);
    AllOneLineConcat(p1, Significance(a));
    var p3 := p2 + Bullets(a.limitations);
    AllOneLineConcat(p2, Bullets(a.limitations));
    var p4 := p3 + QUESTIONS_LINES;
    AllOneLineConcat(p3, QUESTIONS_LINES);
    var p5 := p4 + Bullets(a.openQuestions);
    AllOneLineConcat(p4, Bullets(a.openQuestions));
    AllOneLineConcat(p5, Closing(a));
  }

  /**
   * When every field is a single line, splitting the exported text at its
   * line breaks gives back exactly the lines of the export.
   */
  method ExportedLinesRecoverable(a: Analysis) returns (text: string)
    requires SingleLineFields(a)
    ensures Split(text, '\n') == MarkdownLines(a)
  {
    text := ExportMarkdown(a);
    MarkdownLinesOneLine(a);
    SplitJoin(MarkdownLines(a), '\n');
  }
}

/**
 * The research-paper analysis endpoint: the arXiv url test, the two request
 * forms (a multipart upload and a JSON body) with their checks in order, the
 * model call with its one retry after removing Markdown code fences, and the
 * merge of the model's answer over the default response shape. The form
 * parser, the body parser, the provider's answer and `JSON.parse` are
 * parameters.
 */
module AnalyzeRoute {
  import opened Wrappers
  import opened Strings
  import opened JsonValue

  // ---------------------------------------------------------------------------
  // arXiv urls

  /** `/arxiv\.org\/(abs|pdf)\//i.test(url)`. */
  predicate IsArxivUrl(url: string) {
    var lower := LowerAscii(url);
    Contains(lower, "arxiv.org/abs/") || Contains(lower, "arxiv.org/pdf/")
  }

  /**
   * The test ignores ASCII case, and holds exactly when one of the two
   * markers occurs somewhere in the lower-cased url.
   */
  lemma ArxivUrlIff(url: string)
    ensures IsArxivUrl(url) == IsArxivUrl(LowerAscii(url))
    ensures IsArxivUrl(url) <==> exists j :: OccursAt(LowerAscii(url), "arxiv.org/abs/", j)
                                          || OccursAt(LowerAscii(url), "arxiv.org/pdf/", j)
  {
    LowerAsciiIdempotent(url);
    ContainsIff(LowerAscii(url), "arxiv.org/abs/");
    ContainsIff(LowerAscii(url), "arxiv.org/pdf/");
  }

  // ---------------------------------------------------------------------------
  // Removing code fences

  const FENCE: string := "```"
  const JSON_FENCE: string := "```json"

  /**
   * `s.replace(/```json|```/g, '')`: scanning left to right, each
   * "```json" (tried first) or "```" is removed.
   */
  function StripFences(s: string): string
    decreases |s|
  {
    if |s| == 0 then ""
    else if JSON_FENCE <= s then StripFences(s[|JSON_FENCE|..])
    else if FENCE <= s then StripFences(s[|FENCE|..])
    else [s[0]] + StripFences(s[1..])
  }

  /** `t` starts with two backticks. */
  predicate TwoTicks(t: string) {
    |t| >= 2 && t[0] == '`' && t[1] == '`'
  }

  /** Starting with a fence, stated character by character. */
  lemma FenceAt(s: string)
    ensures FENCE <= s <==> (|s| >= 3 && s[0] == '`' && s[1] == '`' && s[2] == '`')
    ensures OccursAt(s, FENCE, 0) <==> FENCE <= s
  {
    if |s| >= 3 {
      assert s[..3] == [s[0], s[1], s[2]];
      assert s[0..3] == s[..3];
    }
  }

  /** A text that does not start with a backtick keeps its first character. */
  lemma StripKeepsFirst(u: string)
    requires |u| > 0 && u[0] != '`'
    ensures |StripFences(u)| > 0 && StripFences(u)[0] == u[0]
  {
    FenceAt(u);
  }

  /** A text that does not start with two backticks does not yield one that does. */
  lemma StripNoDoubleStart(t: string)
    requires !TwoTicks(t)
    ensures !TwoTicks(StripFences(t))
  {
    if |t| > 0 {
      if t[0] != '`' {
        StripKeepsFirst(t);
      } else {
        FenceAt(t);
        assert StripFences(t) == [t[0]] + StripFences(t[1..]);
        if |t| > 1 {
          StripKeepsFirst(t[1..]);
        }
      }
    }
  }

  /** After the replacement no "```" is left, even where removals bring backticks together. */
  lemma {:induction false} StripRemovesFences(s: string)
    ensures forall j :: !OccursAt(StripFences(s), FENCE, j)
    decreases |s|
  {
    if |s| == 0 {
    } else if JSON_FENCE <= s {
      StripRemovesFences(s[|JSON_FENCE|..]);
    } else if FENCE <= s {
      StripRemovesFences(s[|FENCE|..]);
    } else {
      var rest := StripFences(s[1..]);
      var r := [s[0]] + rest;
      assert StripFences(s) == r;
      StripRemovesFences(s[1..]);
      OccursShift(r, FENCE);
      assert r[1..] == rest;
      FenceAt(s);
      FenceAt(r);
      if s[0] == '`' {
        assert !TwoTicks(s[1..]);
        StripNoDoubleStart(s[1..]);
      }
    }
  }

  /** No fence occurs in `s` after its first character. */
  lemma FenceFreeTail(s: string)
    requires |s| > 0 && forall j :: !OccursAt(s, FENCE, j)
    ensures forall j :: !OccursAt(s[1..], FENCE, j)
  {
    OccursShift(s, FENCE);
    forall j ensures !OccursAt(s[1..], FENCE, j) {
      if j >= 0 { assert OccursAt(s, FENCE, j + 1) == OccursAt(s[1..], FENCE, j); }
    }
  }

  /** A text without a fence is left as it is. */
  lemma {:induction false} StripWithoutFence(s: string)
    requires forall j :: !OccursAt(s, FENCE, j)
    ensures StripFences(s) == s
    decreases |s|
  {
    if |s| > 0 {
      FenceAt(s);
      assert !OccursAt(s, FENCE, 0);
      FenceFreeTail(s);
      StripWithoutFence(s[1..]);
    }
  }

  /** A fence-free text that does not end in a backtick, followed by a closing fence, loses only the fence. */
  lemma {:induction false} StripClosingFence(x: string)
    requires forall j :: !OccursAt(x, FENCE, j)
    requires |x| > 0 ==> x[|x| - 1] != '`'
    ensures StripFences(x + FENCE) == x
    decreases |x|
  {
    var s := x + FENCE;
    if |x| == 0 {
      assert s == FENCE;
      assert s[|FENCE|..] == "";
    } else {
      FenceAt(x);
      assert !OccursAt(x, FENCE, 0);
      assert s[..|FENCE|] != FENCE by {
        assert s[0] == x[0] && s[1] == (if |x| > 1 then x[1] else '`') && s[2] == (if |x| > 2 then x[2] else '`');
      }
      StripStep(s);
      FenceFreeTail(x);
      StripClosingFence(x[1..]);
      assert s[1..] == x[1..] + FENCE;
      assert x == [x[0]] + x[1..];
    }
  }

  /** A text that does not start with a fence keeps its first character and is stripped from the next. */
  lemma StripStep(s: string)
    requires |s| > 0 && !(FENCE <= s)
    ensures StripFences(s) == [s[0]] + StripFences(s[1..])
  {
    JsonFenceIsFence(s);
  }

  /** A "```json" fence starts with a plain one. */
  lemma JsonFenceIsFence(s: string)
    ensures JSON_FENCE <= s ==> FENCE <= s
  {
    assert JSON_FENCE[..|FENCE|] == FENCE;
  }

  /** A reply wrapped as "```json" … "```" is unwrapped to its body. */
  lemma StripJsonFenced(x: string)
    requires forall j :: !OccursAt(x, FENCE, j)
    requires |x| > 0 ==> x[|x| - 1] != '`'
    ensures StripFences(JSON_FENCE + x + FENCE) == x
  {
    var s := JSON_FENCE + x + FENCE;
    assert JSON_FENCE <= s;
    assert s[|JSON_FENCE|..] == x + FENCE;
    StripClosingFence(x);
  }

  /** A plain fence followed by a body that does not start with "json" is not a "```json" fence. */
  lemma PlainFenceNotJson(x: string)
    requires !("json" <= x)
    ensures !(JSON_FENCE <= FENCE + x + FENCE)
  {
    var t := x + FENCE;
    assert FENCE + x + FENCE == FENCE + t;
    if |t| >= 4 {
      if |x| >= 4 {
        assert t[..4] == x[..4];
      } else {
        assert t[|x|] == '`';
      }
      assert t[..4] != "json";
      assert (FENCE + t)[..7][3..] == t[..4];
      assert JSON_FENCE[3..] == "json";
    }
  }

  /** A reply wrapped in plain fences is unwrapped too, unless its body itself starts with "json". */
  lemma StripPlainFenced(x: string)
    requires forall j :: !OccursAt(x, FENCE, j)
    requires |x| > 0 ==> x[|x| - 1] != '`'
    requires !("json" <= x)
    ensures StripFences(FENCE + x + FENCE) == x
  {
    var t := x + FENCE;
    assert FENCE + x + FENCE == FENCE + t;
    PlainFenceNotJson(x);
    StripAfterPlainFence(t);
    StripClosingFence(x);
  }

  /** A leading fence that is not a "```json" fence is removed on its own. */
  lemma StripAfterPlainFence(t: string)
    requires !(JSON_FENCE <= FENCE + t)
    ensures StripFences(FENCE + t) == StripFences(t)
  {
    var s := FENCE + t;
    assert s[..|FENCE|] == FENCE;
    assert s[|FENCE|..] == t;
  }

  // ---------------------------------------------------------------------------
  // The model call

  /** What the provider's HTTP endpoint answered. */
  datatype OrOutcome =
    | OrHttpFailure(status: nat, statusText: string, text: string)
    | OrBadBody
    | OrReply(content: Option<string>)

  /**
   * `callOpenRouter`: the reply's content parsed as JSON; when that fails,
   * the content with its fences removed and trimmed, parsed once more.
   */
  function CallOpenRouter(outcome: OrOutcome, parse: string -> Option<Json>): (r: Result<Json, Thrown>)
    ensures r.Success? ==> outcome.OrReply? && outcome.content.Some? && outcome.content.value != ""
    ensures r.Success? ==> var c := outcome.content.value;
      || parse(c) == Some(r.value)
      || (parse(c).None? && parse(Trim(StripFences(c))) == Some(r.value))
    ensures outcome.OrHttpFailure? ==> r == Failure(Raised(
      "OpenRouter error: " + NatToString(outcome.status) + " " + outcome.statusText + " - " + outcome.text))
    ensures outcome.OrReply? && (outcome.content.None? || outcome.content.value == "")
      ==> r == Failure(Raised("No content from OpenRouter"))
    ensures outcome.OrReply? && outcome.content.Some? && outcome.content.value != "" ==> var c := outcome.content.value;
      && (parse(c).Some? ==> r == Success(parse(c).value))
      && (parse(c).None? && parse(Trim(StripFences(c))).Some? ==> r == Success(parse(Trim(StripFences(c))).value))
      && (parse(c).None? && parse(Trim(StripFences(c))).None? ==> r.Failure?)
  {
    match outcome
    case OrHttpFailure(status, statusText, text) =>
      Failure(Raised("OpenRouter error: " + NatToString(status) + " " + statusText + " - " + text))
    case OrBadBody => Failure(EngineError)
    case OrReply(content) =>
      if content.None? || content.value == "" then Failure(Raised("No content from OpenRouter"))
      else
        match parse(content.value)
        case Some(v) => Success(v)
        case None =>
          match parse(Trim(StripFences(content.value)))
          case Some(v) => Success(v)
          case None => Failure(EngineError)
  }

  /** JSON the provider wrapped in a "```json" fence is recovered by the retry. */
  lemma FencedReplyRecovered(x: string, parse: string -> Option<Json>)
    requires forall j :: !OccursAt(x, FENCE, j)
    requires |x| > 0 ==> x[|x| - 1] != '`'
    requires parse(JSON_FENCE + x + FENCE).None? && parse(Trim(x)).Some?
    ensures CallOpenRouter(OrReply(Some(JSON_FENCE + x + FENCE)), parse) == Success(parse(Trim(x)).value)
  {
    StripJsonFenced(x);
  }

  // ---------------------------------------------------------------------------
  // Requests

  const MAX_PDF_SIZE: int := 20 * 1024 * 1024

  const NO_FILE: string := "No file uploaded"
  const MISSING_CREDENTIALS: string := "Missing OpenRouter credentials"
  const ONLY_PDF: string := "Only PDF uploads are supported"
  const PDF_TOO_LARGE: string := "PDF too large (max 20MB)"
  const NO_URL: string := "Provide a PDF or preprint URL or upload a PDF via multipart/form-data"

  datatype UploadFile = UploadFile(size: nat, mime: string)

  /** A multipart field: text, or a file. */
  datatype FormValue = FText(text: string) | FFile(file: UploadFile)

  /** The first value of each field of a multipart body. */
  type FormData = map<string, FormValue>

  function FormGet(form: FormData, name: string): Option<FormValue> {
    if name in form then Some(form[name]) else None
  }

  /** `String(formData.get(name) || '')` is not empty. */
  predicate FormCredentialPresent(v: Option<FormValue>) {
    v.Some? && (v.value.FFile? || v.value.text != "")
  }

  /** `String(v || '')` is not empty, for a value of a JSON body. */
  predicate JsonCredentialPresent(v: Option<Json>) {
    v.Some? && Truthy(v.value) && !RendersEmpty(v.value)
  }

  /**
   * `(formData.get('url') as string) || undefined`: an empty text becomes
   * undefined; a file stays the file object, which JSON writes as `{}`.
   */
  function FormUrl(v: Option<FormValue>): Option<Json> {
    match v
    case None => None
    case Some(FText(t)) => if t == "" then None else Some(JStr(t))
    case Some(FFile(_)) => Some(JObj(map[]))
  }

  /**
   * The request as the route sees it: its content type, the multipart body
   * as the form parser reads it (None when it cannot), and the JSON body as
   * `req.json()` reads it (None when it cannot).
   */
  datatype AnalyzeRequest = AnalyzeRequest(contentType: Option<string>, form: Option<FormData>, json: Option<Json>)

  predicate IsMultipart(req: AnalyzeRequest) {
    Contains(req.contentType.GetOr(""), "multipart/form-data")
  }

  datatype AnalyzeResponse =
    | BadRequest(message: string)
    | ServerError(thrown: Thrown)
    | Analysis(result: Json)

  /** A request that passed the checks: only the link for the metadata matters to the merge. */
  datatype Accepted = Accepted(linkForMeta: Option<Json>)

  /** The upload checks, in the order the route makes them. */
  function CheckUpload(form: FormData): Result<Accepted, AnalyzeResponse> {
    var file := FormGet(form, "file");
    if file.None? || file.value == FText("") || (file.value.FFile? && file.value.file.size == 0) then
      Failure(BadRequest(NO_FILE))
    else if !FormCredentialPresent(FormGet(form, "openrouterApiKey"))
         || !FormCredentialPresent(FormGet(form, "openrouterModel")) then
      Failure(BadRequest(MISSING_CREDENTIALS))
    else if !file.value.FFile? || file.value.file.mime != "application/pdf" then
      Failure(BadRequest(ONLY_PDF))
    else if file.value.file.size > MAX_PDF_SIZE then
      Failure(BadRequest(PDF_TOO_LARGE))
    else
      Success(Accepted(FormUrl(FormGet(form, "url"))))
  }

  /** The JSON-body checks: credentials first, then the url. An unreadable body counts as `{}`. */
  function CheckJsonBody(json: Option<Json>): Result<Accepted, AnalyzeResponse> {
    var body := json.GetOr(JObj(map[]));
    var url := Field(body, "url");
    if !JsonCredentialPresent(Field(body, "openrouterApiKey"))
       || !JsonCredentialPresent(Field(body, "openrouterModel")) then
      Failure(BadRequest(MISSING_CREDENTIALS))
    else if url.None? || !Truthy(url.value) then
      Failure(BadRequest(NO_URL))
    else
      Success(Accepted(url))
  }

  function CheckRequest(req: AnalyzeRequest): Result<Accepted, AnalyzeResponse> {
    if IsMultipart(req) then
      if req.form.None? then Failure(ServerError(EngineError)) else CheckUpload(req.form.value)
    else CheckJsonBody(req.json)
  }

  // ---------------------------------------------------------------------------
  // The response shape

  const EMPTY: Json := JStr("")

  function ShapeMetadata(link: Json): map<string, Json> {
    map["title" := EMPTY, "authors" := JArr([]), "venue_year" := EMPTY, "link" := link, "code_or_data" := EMPTY]
  }

  /** The default response, with `link` set to `linkForMeta ?? ''`. */
  function Shape(link: Json): map<string, Json> {
    map[
      "metadata" := JObj(ShapeMetadata(link)),
      "core_contribution" := EMPTY,
      "innovations_methodology" := JArr([]),
      "significance" := JObj(map["classification" := EMPTY, "justification" := EMPTY]),
      "limitations" := JArr([]),
      "open_questions" := JArr([]),
      "plain_english_summary" := EMPTY]
  }

  const SHAPE_KEYS: set<string> := {
    "metadata", "core_contribution", "innovations_methodology", "significance",
    "limitations", "open_questions", "plain_english_summary"
  }

  const METADATA_KEYS: set<string> := {"title", "authors", "venue_year", "link", "code_or_data"}

  /** `typeof result === 'object'`: objects, arrays and null. */
  predicate IsObjectLike(v: Json) {
    v.JObj? || v.JArr? || v.JNull?
  }

  /** `linkForMeta ?? result?.metadata?.link ?? ''`. */
  function MetadataLink(result: Json, linkForMeta: Option<Json>): Json {
    Coalesce(linkForMeta, Coalesce(FieldOf(Field(result, "metadata"), "link"), EMPTY))
  }

  /** `...(typeof result === 'object' ? result : {})`. */
  function TopLevel(result: Json): map<string, Json> {
    if IsObjectLike(result) then Spread(result) else map[]
  }

  /** The merge of the model's answer over the default shape. */
  function MergeShape(result: Json, linkForMeta: Option<Json>): Json {
    var shape := Shape(Coalesce(linkForMeta, EMPTY));
    var top := TopLevel(result);
    var metadata := ShapeMetadata(Coalesce(linkForMeta, EMPTY))
      + Spread(Coalesce(Field(result, "metadata"), JObj(map[])))
      + map["link" := MetadataLink(result, linkForMeta)];
    JObj(shape + top + map["metadata" := JObj(metadata)])
  }

  /**
   * Every key of the shape, and every key of its metadata, is in the
   * response, whatever the model returned.
   */
  lemma MergeHasShape(result: Json, linkForMeta: Option<Json>)
    ensures var m := MergeShape(result, linkForMeta).fields;
      && SHAPE_KEYS <= m.Keys
      && m["metadata"].JObj? && METADATA_KEYS <= m["metadata"].fields.Keys
      && m["metadata"].fields["link"] == MetadataLink(result, linkForMeta)
  {
  }

  /**
   * Outside `metadata`, a key the model's object has takes the model's
   * value unchecked; a shape key it lacks, or any key when the answer is not
   * an object, takes the default.
   */
  lemma MergeTopLevel(result: Json, linkForMeta: Option<Json>, k: string)
    requires k != "metadata"
    ensures var m := MergeShape(result, linkForMeta).fields;
      && (result.JObj? && k in result.fields ==> m[k] == result.fields[k])
      && (k in SHAPE_KEYS && (!result.JObj? || k !in result.fields) ==> m[k] == Shape(EMPTY)[k])
  {
    ShapeLookup(Coalesce(linkForMeta, EMPTY), k);
    TopLevelLookup(result, k);
  }

  /** An object answer spreads its fields; no other answer supplies a shape key. */
  lemma TopLevelLookup(result: Json, k: string)
    ensures result.JObj? ==> TopLevel(result) == result.fields
    ensures k in SHAPE_KEYS && !result.JObj? ==> k !in TopLevel(result)
  {
    if k in SHAPE_KEYS && !result.JObj? {
      ShapeKeysNamed();
      TopLevelNonObject(result, k);
    }
  }

  /** A non-object answer supplies no key that starts with a letter. */
  lemma TopLevelNonObject(result: Json, k: string)
    requires |k| > 0 && 'a' <= k[0] <= 'z' && !result.JObj?
    ensures k !in TopLevel(result)
  {
    if result.JArr? {
      assert TopLevel(result) == IndexMap(result.items);
    } else {
      assert TopLevel(result) == map[];
    }
  }

  /** Outside `metadata` the shape does not depend on the link, and has exactly the shape keys. */
  lemma ShapeLookup(link: Json, k: string)
    requires k != "metadata"
    ensures k in Shape(link) <==> k in SHAPE_KEYS
    ensures k in SHAPE_KEYS ==> Shape(link)[k] == Shape(EMPTY)[k]
  {
  }

  /** Every shape key starts with a lower-case letter, so none is an array index. */
  lemma ShapeKeysNamed()
    ensures forall k :: k in SHAPE_KEYS ==> |k| > 0 && 'a' <= k[0] <= 'z'
  {
  }

  /**
   * The link is the request's link when there is one; otherwise the model's
   * `metadata.link` unless that is missing or null, and otherwise empty.
   */
  lemma MergeLink(result: Json, linkForMeta: Option<Json>)
    ensures var link := MergeShape(result, linkForMeta).fields["metadata"].fields["link"];
      && (!Nullish(linkForMeta) ==> link == linkForMeta.value)
      && (Nullish(linkForMeta) && !Nullish(FieldOf(Field(result, "metadata"), "link"))
          ==> link == FieldOf(Field(result, "metadata"), "link").value)
      && (Nullish(linkForMeta) && Nullish(FieldOf(Field(result, "metadata"), "link")) ==> link == EMPTY)
  {
    MergeHasShape(result, linkForMeta);
  }

  /**
   * An answer that already has every shape key, with an object `metadata`
   * holding every metadata key, comes back as it is except for the link.
   */
  lemma MergeConforming(result: Json, linkForMeta: Option<Json>)
    requires result.JObj? && SHAPE_KEYS <= result.fields.Keys
    requires result.fields["metadata"].JObj? && METADATA_KEYS <= result.fields["metadata"].fields.Keys
    ensures var md := result.fields["metadata"].fields;
      MergeShape(result, linkForMeta)
        == JObj(result.fields["metadata" := JObj(md["link" := MetadataLink(result, linkForMeta)])])
  {
    var md := result.fields["metadata"].fields;
    var link := MetadataLink(result, linkForMeta);
    var shape := Shape(Coalesce(linkForMeta, EMPTY));
    var shapeMd := ShapeMetadata(Coalesce(linkForMeta, EMPTY));
    assert shape.Keys == SHAPE_KEYS;
    assert shapeMd.Keys == METADATA_KEYS;
    assert Spread(result) == result.fields;
    OverrideCovered(shape, result.fields);
    assert Spread(Coalesce(Field(result, "metadata"), JObj(map[]))) == md;
    OverrideCovered(shapeMd, md);
    OverrideIsUpdate(md, "link", link);
    OverrideIsUpdate(result.fields, "metadata", JObj(md["link" := link]));
  }

  /** Spreading a map over one whose keys it covers gives the covering map. */
  lemma OverrideCovered(a: map<string, Json>, b: map<string, Json>)
    requires a.Keys <= b.Keys
    ensures a + b == b
  {
  }

  /** Spreading a one-entry map over `m` updates that entry. */
  lemma OverrideIsUpdate(m: map<string, Json>, k: string, v: Json)
    ensures m + map[k := v] == m[k := v]
  {
  }

  // ---------------------------------------------------------------------------
  // The handler

  /** `POST`: the checks, then the model call, then the merge. */
  function Analyze(req: AnalyzeRequest, outcome: OrOutcome, parse: string -> Option<Json>): AnalyzeResponse {
    match CheckRequest(req)
    case Failure(response) => response
    case Success(accepted) =>
      match CallOpenRouter(outcome, parse)
      case Failure(e) => ServerError(e)
      case Success(result) => Analysis(MergeShape(result, accepted.linkForMeta))
  }

  /**
   * The upload checks come in order: a missing or empty file, then missing
   * credentials, then a non-PDF, then a file over 20 MiB; only an upload
   * passing all four reaches the model.
   */
  lemma UploadChecksInOrder(form: FormData)
    ensures var file := FormGet(form, "file");
      var noFile := file.None? || file.value == FText("") || (file.value.FFile? && file.value.file.size == 0);
      var creds := FormCredentialPresent(FormGet(form, "openrouterApiKey"))
                   && FormCredentialPresent(FormGet(form, "openrouterModel"));
      var pdf := file.Some? && file.value.FFile? && file.value.file.mime == "application/pdf";
      var r := CheckUpload(form);
      && (noFile ==> r == Failure(BadRequest(NO_FILE)))
      && (!noFile && !creds ==> r == Failure(BadRequest(MISSING_CREDENTIALS)))
      && (!noFile && creds && !pdf ==> r == Failure(BadRequest(ONLY_PDF)))
      && (!noFile && creds && pdf && file.value.file.size > MAX_PDF_SIZE ==> r == Failure(BadRequest(PDF_TOO_LARGE)))
      && (r.Success? <==> pdf && 0 < file.value.file.size <= MAX_PDF_SIZE && creds)
  {
  }

  /**
   * In a JSON body, missing credentials are reported even when the url is
   * missing too; with credentials, a falsy url is reported; an accepted
   * body's link is its url.
   */
  lemma JsonChecksInOrder(json: Option<Json>)
    ensures var body := json.GetOr(JObj(map[]));
      var creds := JsonCredentialPresent(Field(body, "openrouterApiKey"))
                   && JsonCredentialPresent(Field(body, "openrouterModel"));
      var url := Field(body, "url");
      var r := CheckJsonBody(json);
      && (!creds ==> r == Failure(BadRequest(MISSING_CREDENTIALS)))
      && (creds && (url.None? || !Truthy(url.value)) ==> r == Failure(BadRequest(NO_URL)))
      && (r.Success? <==> creds && url.Some? && Truthy(url.value))
      && (r.Success? ==> r.value.linkForMeta == url)
  {
  }

  /** A request rejected by the checks gets the same answer whatever the provider would say. */
  lemma RejectedBeforeModel(req: AnalyzeRequest, o1: OrOutcome, o2: OrOutcome, p1: string -> Option<Json>, p2: string -> Option<Json>)
    requires CheckRequest(req).Failure?
    ensures Analyze(req, o1, p1) == Analyze(req, o2, p2) == CheckRequest(req).error
  {
  }

  /**
   * An accepted request gets the model's answer merged over the shape, or a
   * 500 carrying what the model call threw; in particular a reply whose
   * content parses directly is analysed as that value.
   */
  lemma AcceptedRequestAnalysed(req: AnalyzeRequest, outcome: OrOutcome, parse: string -> Option<Json>)
    requires CheckRequest(req).Success?
    ensures var link := CheckRequest(req).value.linkForMeta;
      var call := CallOpenRouter(outcome, parse);
      && (call.Success? ==> Analyze(req, outcome, parse) == Analysis(MergeShape(call.value, link)))
      && (call.Failure? ==> Analyze(req, outcome, parse) == ServerError(call.error))
      && (outcome.OrReply? && outcome.content.Some? && outcome.content.value != ""
          && parse(outcome.content.value).Some?
          ==> Analyze(req, outcome, parse) == Analysis(MergeShape(parse(outcome.content.value).value, link)))
  {
  }

  /** For a JSON body, the answer's `metadata.link` is the submitted url, whatever the model returned. */
  lemma JsonLinkIsUrl(req: AnalyzeRequest, outcome: OrOutcome, parse: string -> Option<Json>)
    requires !IsMultipart(req)
    requires Analyze(req, outcome, parse).Analysis?
    ensures var url := Field(req.json.GetOr(JObj(map[])), "url");
      url.Some? && Analyze(req, outcome, parse).result.fields["metadata"].fields["link"] == url.value
  {
    var accepted := CheckRequest(req).value;
    var result := CallOpenRouter(outcome, parse).value;
    MergeLink(result, accepted.linkForMeta);
  }

  /** An upload with an empty `url` field takes the model's link, or the empty string. */
  lemma UploadEmptyUrlFallsBack(req: AnalyzeRequest, outcome: OrOutcome, parse: string -> Option<Json>)
    requires IsMultipart(req) && req.form.Some? && FormGet(req.form.value, "url") in {None, Some(FText(""))}
    requires Analyze(req, outcome, parse).Analysis?
    ensures var result := CallOpenRouter(outcome, parse).value;
      var modelLink := FieldOf(Field(result, "metadata"), "link");
      Analyze(req, outcome, parse).result.fields["metadata"].fields["link"]
        == (if Nullish(modelLink) then EMPTY else modelLink.value)
  {
    var accepted := CheckRequest(req).value;
    var result := CallOpenRouter(outcome, parse).value;
    MergeLink(result, accepted.linkForMeta);
  }
}

/**
 * The request schema of the generate endpoint: three enumerations with
 * defaults, a URL of bounded length and two optional credential strings.
 * Validation either yields the typed body, defaults filled in, or the list of
 * issues found, one per failed check, in the schema's field order.
 */
module Validators {
  import opened Wrappers
  import opened JsonValue

  const MAX_URL_LENGTH: nat := 2048

  datatype ThreadType = Regular | Viral
  datatype Tone = Professional | Engaging
  datatype Industry =
    General | Saas | Developer | Marketing | Ai | Product | Design | Finance | Health | Education

  function ThreadTypeName(t: ThreadType): string {
    match t
    case Regular => "regular"
    case Viral => "viral"
  }

  function ToneName(t: Tone): string {
    match t
    case Professional => "professional"
    case Engaging => "engaging"
  }

  function IndustryName(i: Industry): string {
    match i
    case General => "general"
    case Saas => "saas"
    case Developer => "developer"
    case Marketing => "marketing"
    case Ai => "ai"
    case Product => "product"
    case Design => "design"
    case Finance => "finance"
    case Health => "health"
    case Education => "education"
  }

  function ParseThreadType(s: string): Option<ThreadType> {
    if s == "regular" then Some(Regular)
    else if s == "viral" then Some(Viral)
    else None
  }

  function ParseTone(s: string): Option<Tone> {
    if s == "professional" then Some(Professional)
    else if s == "engaging" then Some(Engaging)
    else None
  }

  function ParseIndustry(s: string): Option<Industry> {
    if s == "general" then Some(General)
    else if s == "saas" then Some(Saas)
    else if s == "developer" then Some(Developer)
    else if s == "marketing" then Some(Marketing)
    else if s == "ai" then Some(Ai)
    else if s == "product" then Some(Product)
    else if s == "design" then Some(Design)
    else if s == "finance" then Some(Finance)
    else if s == "health" then Some(Health)
    else if s == "education" then Some(Education)
    else None
  }

  /** Each enumeration's parser accepts exactly the listed names, and inverts the naming. */
  lemma EnumRoundTrip(tt: ThreadType, tn: Tone, ind: Industry, s: string)
    ensures ParseThreadType(ThreadTypeName(tt)) == Some(tt)
    ensures ParseTone(ToneName(tn)) == Some(tn)
    ensures ParseIndustry(IndustryName(ind)) == Some(ind)
    ensures ParseThreadType(s).Some? ==> ThreadTypeName(ParseThreadType(s).value) == s
    ensures ParseTone(s).Some? ==> ToneName(ParseTone(s).value) == s
    ensures ParseIndustry(s).Some? ==> IndustryName(ParseIndustry(s).value) == s
    ensures ParseThreadType(s).Some? <==> s in {"regular", "viral"}
    ensures ParseTone(s).Some? <==> s in {"professional", "engaging"}
    ensures ParseIndustry(s).Some? <==> s in INDUSTRY_NAMES
  {
    ThreadTypeRoundTrip(tt, s);
    ToneRoundTrip(tn, s);
    IndustryRoundTrip(ind, s);
  }

  lemma ThreadTypeRoundTrip(tt: ThreadType, s: string)
    ensures ParseThreadType(ThreadTypeName(tt)) == Some(tt)
    ensures ParseThreadType(s).Some? ==> ThreadTypeName(ParseThreadType(s).value) == s
    ensures ParseThreadType(s).Some? <==> s in {"regular", "viral"}
  {
  }

  lemma ToneRoundTrip(tn: Tone, s: string)
    ensures ParseTone(ToneName(tn)) == Some(tn)
    ensures ParseTone(s).Some? ==> ToneName(ParseTone(s).value) == s
    ensures ParseTone(s).Some? <==> s in {"professional", "engaging"}
  {
  }

  lemma IndustryRoundTrip(ind: Industry, s: string)
    ensures ParseIndustry(IndustryName(ind)) == Some(ind)
    ensures ParseIndustry(s).Some? ==> IndustryName(ParseIndustry(s).value) == s
    ensures ParseIndustry(s).Some? <==> s in INDUSTRY_NAMES
  {
  }

  const INDUSTRY_NAMES: set<string> := {
    "general", "saas", "developer", "marketing", "ai",
    "product", "design", "finance", "health", "education"
  }

  datatype IssueCode = InvalidType | InvalidUrl | TooBig | InvalidEnumValue

  /** A failed check; the path is the field name, or "" for the body itself. */
  datatype Issue = Issue(path: string, code: IssueCode)

  datatype GenerateBody = GenerateBody(
    url: string,
    threadType: ThreadType,
    tone: Tone,
    industry: Industry,
    openrouterApiKey: Option<string>,
    openrouterModel: Option<string>)

  /** `z.string().url().max(2048)`: both checks run, each adding its own issue. */
  function UrlIssues(v: Option<Json>, isUrl: string -> bool): seq<IssueCode> {
    if v.None? || !v.value.JStr? then [InvalidType]
    else
      var u := v.value.s;
      (if isUrl(u) then [] else [InvalidUrl]) + (if |u| <= MAX_URL_LENGTH then [] else [TooBig])
  }

  /** An enumeration with a default: absent takes the default, a string must be one of the names. */
  function EnumField<T>(v: Option<Json>, parse: string -> Option<T>, default: T): Result<T, IssueCode> {
    if v.None? then Success(default)
    else if !v.value.JStr? then Failure(InvalidType)
    else if parse(v.value.s).None? then Failure(InvalidEnumValue)
    else Success(parse(v.value.s).value)
  }

  /** `z.string().optional()`: absent is fine, anything else must be a string (null is not). */
  function OptionalString(v: Option<Json>): Result<Option<string>, IssueCode> {
    if v.None? then Success(None)
    else if v.value.JStr? then Success(Some(v.value.s))
    else Failure(InvalidType)
  }

  function IssuesOf<T>(path: string, r: Result<T, IssueCode>): seq<Issue> {
    if r.Failure? then [Issue(path, r.error)] else []
  }

  function AsIssues(path: string, codes: seq<IssueCode>): (r: seq<Issue>)
    ensures |r| == |codes|
  {
    seq(|codes|, i requires 0 <= i < |codes| => Issue(path, codes[i]))
  }

  /**
   * `GenerateBodySchema.safeParse(body)`. A body that is not an object fails
   * with one issue on the body; otherwise every field is checked and the
   * body is accepted only when no check failed.
   */
  function ValidateGenerateBody(body: Json, isUrl: string -> bool): (r: Result<GenerateBody, seq<Issue>>)
    ensures r.Failure? ==> |r.error| > 0
    ensures r.Success? ==> body.JObj? && Field(body, "url") == Some(JStr(r.value.url))
    ensures r.Success? ==> isUrl(r.value.url) && |r.value.url| <= MAX_URL_LENGTH
  {
    if !body.JObj? then Failure([Issue("", InvalidType)])
    else
      var url := Field(body, "url");
      var tt := EnumField(Field(body, "threadType"), ParseThreadType, Regular);
      var tone := EnumField(Field(body, "tone"), ParseTone, Professional);
      var ind := EnumField(Field(body, "industry"), ParseIndustry, General);
      var key := OptionalString(Field(body, "openrouterApiKey"));
      var model := OptionalString(Field(body, "openrouterModel"));
      var issues := AsIssues("url", UrlIssues(url, isUrl))
        + IssuesOf("threadType", tt) + IssuesOf("tone", tone) + IssuesOf("industry", ind)
        + IssuesOf("openrouterApiKey", key) + IssuesOf("openrouterModel", model);
      if |issues| > 0 then Failure(issues)
      else
        assert UrlIssues(url, isUrl) == [];
        Success(GenerateBody(url.value.s, tt.value, tone.value, ind.value, key.value, model.value))
  }

  /**
   * An object's issues start with those of `url`: a missing or non-string url
   * gives one type issue; a string url gives a url issue when it does not
   * parse and a size issue when it is over 2048 characters, both in that
   * order when both checks fail.
   */
  lemma UrlIssuesFirst(body: Json, isUrl: string -> bool)
    requires body.JObj?
    ensures var r := ValidateGenerateBody(body, isUrl);
      var url := Field(body, "url");
      && (url.None? || !url.value.JStr? ==> r.Failure? && r.error[0] == Issue("url", InvalidType))
      && (url.Some? && url.value.JStr? && !isUrl(url.value.s) && |url.value.s| > MAX_URL_LENGTH
          ==> r.Failure? && r.error[..2] == [Issue("url", InvalidUrl), Issue("url", TooBig)])
      && (url.Some? && url.value.JStr? && !isUrl(url.value.s) && |url.value.s| <= MAX_URL_LENGTH
          ==> r.Failure? && r.error[0] == Issue("url", InvalidUrl) && Issue("url", TooBig) !in r.error)
      && (url.Some? && url.value.JStr? && isUrl(url.value.s) && |url.value.s| > MAX_URL_LENGTH
          ==> r.Failure? && r.error[0] == Issue("url", TooBig) && Issue("url", InvalidUrl) !in r.error)
  {
    var url := Field(body, "url");
    var head := AsIssues("url", UrlIssues(url, isUrl));
    var r := ValidateGenerateBody(body, isUrl);
    if r.Failure? {
      assert r.error[..|head|] == head;
      forall i | |head| <= i < |r.error|
        ensures r.error[i].path != "url"
      {
      }
    }
  }

  /** The field values each part of the schema admits, stated without the validator. */
  predicate AdmitsField(body: Json, isUrl: string -> bool) {
    && body.JObj?
    && Field(body, "url").Some? && Field(body, "url").value.JStr?
    && isUrl(Field(body, "url").value.s) && |Field(body, "url").value.s| <= MAX_URL_LENGTH
    && Field(body, "threadType") in {None, Some(JStr("regular")), Some(JStr("viral"))}
    && Field(body, "tone") in {None, Some(JStr("professional")), Some(JStr("engaging"))}
    && (Field(body, "industry").None?
        || (Field(body, "industry").value.JStr? && Field(body, "industry").value.s in INDUSTRY_NAMES))
    && (Field(body, "openrouterApiKey").None? || Field(body, "openrouterApiKey").value.JStr?)
    && (Field(body, "openrouterModel").None? || Field(body, "openrouterModel").value.JStr?)
  }

  /** The schema accepts a body exactly when every field is admissible. */
  lemma ValidateAcceptsIff(body: Json, isUrl: string -> bool)
    ensures ValidateGenerateBody(body, isUrl).Success? <==> AdmitsField(body, isUrl)
  {
    if body.JObj? {
      ThreadTypeFieldOk(Field(body, "threadType"));
      ToneFieldOk(Field(body, "tone"));
      IndustryFieldOk(Field(body, "industry"));
    }
  }

  lemma ThreadTypeFieldOk(v: Option<Json>)
    ensures EnumField(v, ParseThreadType, Regular).Success? <==> v in {None, Some(JStr("regular")), Some(JStr("viral"))}
  {
    ThreadTypeRoundTrip(Regular, if v.Some? && v.value.JStr? then v.value.s else "");
  }

  lemma ToneFieldOk(v: Option<Json>)
    ensures EnumField(v, ParseTone, Professional).Success? <==> v in {None, Some(JStr("professional")), Some(JStr("engaging"))}
  {
    ToneRoundTrip(Professional, if v.Some? && v.value.JStr? then v.value.s else "");
  }

  lemma IndustryFieldOk(v: Option<Json>)
    ensures EnumField(v, ParseIndustry, General).Success? <==> v.None? || (v.value.JStr? && v.value.s in INDUSTRY_NAMES)
  {
    IndustryRoundTrip(General, if v.Some? && v.value.JStr? then v.value.s else "");
  }

  /** Absent options take their defaults; present ones are carried over, as are the credentials. */
  lemma ValidateDefaults(body: Json, isUrl: string -> bool)
    requires ValidateGenerateBody(body, isUrl).Success?
    ensures var b := ValidateGenerateBody(body, isUrl).value;
      && (Field(body, "threadType").None? ==> b.threadType == Regular)
      && (Field(body, "threadType").Some? ==> Field(body, "threadType") == Some(JStr(ThreadTypeName(b.threadType))))
      && (Field(body, "tone").None? ==> b.tone == Professional)
      && (Field(body, "tone").Some? ==> Field(body, "tone") == Some(JStr(ToneName(b.tone))))
      && (Field(body, "industry").None? ==> b.industry == General)
      && (Field(body, "industry").Some? ==> Field(body, "industry") == Some(JStr(IndustryName(b.industry))))
      && (b.openrouterApiKey.Some? <==> Field(body, "openrouterApiKey").Some?)
      && (b.openrouterApiKey.Some? ==> Field(body, "openrouterApiKey") == Some(JStr(b.openrouterApiKey.value)))
      && (b.openrouterModel.Some? <==> Field(body, "openrouterModel").Some?)
      && (b.openrouterModel.Some? ==> Field(body, "openrouterModel") == Some(JStr(b.openrouterModel.value)))
  {
    var b := ValidateGenerateBody(body, isUrl).value;
    var tt := Field(body, "threadType");
    var tn := Field(body, "tone");
    var ind := Field(body, "industry");
    ThreadTypeRoundTrip(b.threadType, if tt.Some? && tt.value.JStr? then tt.value.s else "");
    ToneRoundTrip(b.tone, if tn.Some? && tn.value.JStr? then tn.value.s else "");
    IndustryRoundTrip(b.industry, if ind.Some? && ind.value.JStr? then ind.value.s else "");
  }
}

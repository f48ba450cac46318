/**
 * The home page: when its Generate button is enabled, the JSON body it
 * posts to the generate endpoint, the message it shows for a failed
 * request, and how it presents a result (per-tweet and LinkedIn length
 * bands, the text its copy button copies, the model label).
 */
module HomePage {
  import opened Wrappers
  import opened Strings
  import opened JsonValue
  import opened Validators
  import GenerateRoute

  // ---------------------------------------------------------------------------
  // The url field and the Generate button

  /** `isUrlValid`: a non-empty url the URL constructor accepts, `parses` standing for it. */
  predicate IsUrlValid(url: string, parses: string -> bool) {
    url != "" && parses(url)
  }

  predicate GenerateDisabled(loading: bool, url: string, parses: string -> bool) {
    loading || !IsUrlValid(url, parses)
  }

  /** The hint under the field shows for a filled-in url that does not parse. */
  predicate ShowUrlHint(url: string, parses: string -> bool) {
    url != "" && !IsUrlValid(url, parses)
  }

  /**
   * An empty url disables the button without a hint; a hinted url disables
   * it; when not loading, the button is disabled exactly for these two.
   */
  lemma ButtonAndHint(loading: bool, url: string, parses: string -> bool)
    ensures url == "" ==> GenerateDisabled(loading, url, parses) && !ShowUrlHint(url, parses)
    ensures ShowUrlHint(url, parses) ==> GenerateDisabled(loading, url, parses)
    ensures GenerateDisabled(false, url, parses) <==> url == "" || ShowUrlHint(url, parses)
  {
  }

  // ---------------------------------------------------------------------------
  // The request body

  /** The choices on the form when Generate is pressed. */
  datatype FormChoice = FormChoice(url: string, threadType: ThreadType, tone: Tone, industry: Industry)

  /** A stored value as `JSON.stringify` writes it: `localStorage.getItem` gives null when absent. */
  function NullOr(v: Option<string>): (r: Json)
    ensures v.None? <==> r == JNull
    ensures v.Some? ==> r == JStr(v.value)
  {
    if v.None? then JNull else JStr(v.value)
  }

  function ChoiceFields(c: FormChoice): map<string, Json> {
    map[
      "url" := JStr(c.url),
      "threadType" := JStr(ThreadTypeName(c.threadType)),
      "tone" := JStr(ToneName(c.tone)),
      "industry" := JStr(IndustryName(c.industry))
    ]
  }

  /** The body as written: both stored credentials go out, as null when nothing is stored. */
  function RequestBodyAsWritten(c: FormChoice, storedKey: Option<string>, storedModel: Option<string>): Json {
    JObj(ChoiceFields(c)["openrouterApiKey" := NullOr(storedKey)]["openrouterModel" := NullOr(storedModel)])
  }

  /** The body as intended: a credential that is not stored is left out. */
  function RequestBody(c: FormChoice, storedKey: Option<string>, storedModel: Option<string>): Json {
    var withKey := if storedKey.Some? then ChoiceFields(c)["openrouterApiKey" := JStr(storedKey.value)]
                   else ChoiceFields(c);
    JObj(if storedModel.Some? then withKey["openrouterModel" := JStr(storedModel.value)] else withKey)
  }

  /**
   * As written, a visitor with no stored key (or no stored model) always
   * gets a rejected request: the schema's optional strings refuse null,
   * and the route answers with its invalid-request error.
   */
  lemma AsWrittenRejectsMissingCredential(c: FormChoice, storedKey: Option<string>, storedModel: Option<string>,
                                          cache: map<GenerateRoute.CacheKey, GenerateRoute.CacheEntry>, now: int,
                                          up: GenerateRoute.Upstream)
    requires storedKey.None? || storedModel.None?
    ensures var body := RequestBodyAsWritten(c, storedKey, storedModel);
      && ValidateGenerateBody(body, up.isUrl).Failure?
      && (storedKey.None? ==> Issue("openrouterApiKey", InvalidType) in ValidateGenerateBody(body, up.isUrl).error)
      && (storedModel.None? ==> Issue("openrouterModel", InvalidType) in ValidateGenerateBody(body, up.isUrl).error)
      && GenerateRoute.Respond(cache, now, Some(body), up).response.InvalidRequest?
  {
    var body := RequestBodyAsWritten(c, storedKey, storedModel);
    assert Field(body, "openrouterApiKey") == Some(NullOr(storedKey));
    assert Field(body, "openrouterModel") == Some(NullOr(storedModel));
    ValidateAcceptsIff(body, up.isUrl);
  }

  /** With both credentials stored, the written body is the intended one. */
  lemma AsWrittenAgreesWhenStored(c: FormChoice, key: string, model: string)
    ensures RequestBodyAsWritten(c, Some(key), Some(model)) == RequestBody(c, Some(key), Some(model))
  {
  }

  /**
   * The intended body is accepted exactly when the url parses and is at
   * most 2048 characters long, and the route then reads back the choices
   * and the stored credentials unchanged.
   */
  lemma RequestBodyValidates(c: FormChoice, storedKey: Option<string>, storedModel: Option<string>,
                             isUrl: string -> bool)
    ensures var r := ValidateGenerateBody(RequestBody(c, storedKey, storedModel), isUrl);
      && (r.Success? <==> isUrl(c.url) && |c.url| <= MAX_URL_LENGTH)
      && (r.Success? ==> r.value == GenerateBody(c.url, c.threadType, c.tone, c.industry, storedKey, storedModel))
  {
    var body := RequestBody(c, storedKey, storedModel);
    assert Field(body, "url") == Some(JStr(c.url));
    assert Field(body, "threadType") == Some(JStr(ThreadTypeName(c.threadType)));
    assert Field(body, "tone") == Some(JStr(ToneName(c.tone)));
    assert Field(body, "industry") == Some(JStr(IndustryName(c.industry)));
    assert Field(body, "openrouterApiKey") == (if storedKey.Some? then Some(JStr(storedKey.value)) else None);
    assert Field(body, "openrouterModel") == (if storedModel.Some? then Some(JStr(storedModel.value)) else None);
    EnumRoundTrip(c.threadType, c.tone, c.industry, "");
    ValidateAcceptsIff(body, isUrl);
  }

  /** `t || 'Request failed'`: the response text of a failed request, or a fixed message for none. */
  function FailureMessage(text: string): (r: string)
    ensures r != ""
    ensures text != "" ==> r == text
    ensures text == "" ==> r == "Request failed"
  {
    if text == "" then "Request failed" else text
  }

  // ---------------------------------------------------------------------------
  // Presenting a result

  const TWEET_LIMIT: nat := 280
  const TWEET_WARNING: nat := 260
  const LINKEDIN_MIN: nat := 1300
  const LINKEDIN_MAX: nat := 1700

  /** How a tweet's length is coloured: green, amber when close to the limit, red over it. */
  datatype TweetBand = TweetFine | TweetNear | TweetOver

  function TweetBandOf(count: nat): TweetBand {
    if count > TWEET_LIMIT then TweetOver
    else if count >= TWEET_WARNING && count <= TWEET_LIMIT then TweetNear
    else TweetFine
  }

  function TweetRank(b: TweetBand): nat {
    match b
    case TweetFine => 0
    case TweetNear => 1
    case TweetOver => 2
  }

  /** A tweet is red exactly over 280, amber from 260 to 280, green below 260; longer is never better. */
  lemma TweetBands(count: nat, longer: nat)
    ensures TweetBandOf(count) == TweetOver <==> count > TWEET_LIMIT
    ensures TweetBandOf(count) == TweetNear <==> TWEET_WARNING <= count <= TWEET_LIMIT
    ensures TweetBandOf(count) == TweetFine <==> count < TWEET_WARNING
    ensures count <= longer ==> TweetRank(TweetBandOf(count)) <= TweetRank(TweetBandOf(longer))
  {
  }

  /** How the LinkedIn post's length is coloured against the optimal range. */
  datatype LinkedinBand = TooShort | Optimal | TooLong

  function LinkedinBandOf(count: nat): LinkedinBand {
    var under := count < LINKEDIN_MIN;
    var over := count > LINKEDIN_MAX;
    if !under && !over then Optimal else if over then TooLong else TooShort
  }

  lemma LinkedinBands(count: nat)
    ensures LinkedinBandOf(count) == Optimal <==> LINKEDIN_MIN <= count <= LINKEDIN_MAX
    ensures LinkedinBandOf(count) == TooLong <==> count > LINKEDIN_MAX
    ensures LinkedinBandOf(count) == TooShort <==> count < LINKEDIN_MIN
  {
  }

  /** What the thread's copy button copies: the tweets separated by blank lines. */
  function CopyText(thread: seq<string>): string {
    Join(thread, "\n\n")
  }

  /** The copied text is the tweets plus two characters between each two of them. */
  lemma CopyTextLength(thread: seq<string>)
    requires |thread| >= 1
    ensures |CopyText(thread)| == TotalLength(thread) + 2 * (|thread| - 1)
  {
    JoinLength(thread, "\n\n");
  }

  /** The model label: the first "anthropic/" and then the first "openai/" are dropped. */
  function ModelLabel(model: string): (r: string)
    ensures |r| <= |model|
  {
    ReplaceFirst(ReplaceFirst(model, "anthropic/", ""), "openai/", "")
  }

  /**
   * The first "anthropic/", wherever it lies, is removed; when what is left
   * has no "openai/", that is the label.
   */
  lemma ModelLabelDropsFirstAnthropic(model: string, i: nat)
    requires OccursAt(model, "anthropic/", i)
    requires forall j :: 0 <= j < i ==> !OccursAt(model, "anthropic/", j)
    requires !Contains(model[..i] + model[i + 10..], "openai/")
    ensures ModelLabel(model) == model[..i] + model[i + 10..]
  {
    ReplaceFirstAt(model, "anthropic/", "", i);
    assert model[..i] + "" + model[i + 10..] == model[..i] + model[i + 10..];
  }

  /** In a name without "anthropic/", the first "openai/", wherever it lies, is removed. */
  lemma ModelLabelDropsFirstOpenai(model: string, i: nat)
    requires !Contains(model, "anthropic/")
    requires OccursAt(model, "openai/", i)
    requires forall j :: 0 <= j < i ==> !OccursAt(model, "openai/", j)
    ensures ModelLabel(model) == model[..i] + model[i + 7..]
  {
    ReplaceFirstAt(model, "openai/", "", i);
    assert model[..i] + "" + model[i + 7..] == model[..i] + model[i + 7..];
  }

  /** A name with neither vendor prefix is shown as it is. */
  lemma ModelLabelKeeps(model: string)
    requires !Contains(model, "anthropic/") && !Contains(model, "openai/")
    ensures ModelLabel(model) == model
  {
  }

  /** The vendor prefix of an Anthropic or OpenAI model is dropped. */
  lemma ModelLabelDropsVendor(name: string)
    ensures !Contains(name, "openai/") ==> ModelLabel("anthropic/" + name) == name
    ensures !Contains("openai/" + name, "anthropic/") ==> ModelLabel("openai/" + name) == name
  {
    ReplaceLeading("anthropic/", name, "");
    ReplaceLeading("openai/", name, "");
    assert "" + name == name;
  }
}

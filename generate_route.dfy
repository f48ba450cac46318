/**
 * The fixed reply the generate endpoint uses when no provider key is
 * configured, line by line, and the fact that none of its lines holds `{`.
 */
module StubReply {
  // The non-empty lines of the fixed reply used when no provider key is configured.
  const HEADER: string := "STUB_RESPONSE:"
  const HOOK: string := "Hook: 1-2 sentence compelling opener \U{1F9F5} 1/4"
  const INSIGHT_1: string := "Insight 1: Concrete takeaway \U{1F9F5} 2/4"
  const INSIGHT_2: string := "Insight 2: Concrete takeaway \U{1F9F5} 3/4"
  const CTA: string := "CTA. [URL] @account1 @account2 " + "@account3 #tag1 #tag2 \U{1F9F5} 4/4"
  const LINKEDIN_LABEL: string := "LinkedIn:"
  const LINKEDIN_HOOK: string := "\U{1F680} A strong opening hook."
  const LINKEDIN_INSIGHT_1: string := "\U{1F4A1} Key insight 1 with actionable value"
  const LINKEDIN_INSIGHT_2: string := "\U{1F4C8} Key insight 2 with practical application"
  const LINKEDIN_INSIGHT_3: string := "\U{1F3AF} Key insight 3 with clear takeaway"
  const LINKEDIN_QUESTION: string := "What's your experience with this topic?"
  const LINKEDIN_LINK: string := "Read the full article: [URL]"
  const LINKEDIN_TAGS: string := "#Industry #Growth #Innovation"

  /** The lines of the fixed reply, in order. */
  const LINES: seq<string> := [
    HEADER, HOOK, INSIGHT_1, INSIGHT_2, CTA, "",
    LINKEDIN_LABEL, LINKEDIN_HOOK, "",
    LINKEDIN_INSIGHT_1, LINKEDIN_INSIGHT_2, LINKEDIN_INSIGHT_3, "",
    LINKEDIN_QUESTION, "",
    LINKEDIN_LINK, "",
    LINKEDIN_TAGS
  ]

  // One lemma per line keeps each proof obligation small.
  lemma NoBraceInHeader() ensures '{' !in HEADER {}
  lemma NoBraceInHook() ensures '{' !in HOOK {}
  lemma NoBraceInInsight1() ensures '{' !in INSIGHT_1 {}
  lemma NoBraceInInsight2() ensures '{' !in INSIGHT_2 {}
  lemma NoBraceInCta() ensures '{' !in CTA {}
  lemma NoBraceInLinkedinLabel() ensures '{' !in LINKEDIN_LABEL {}
  lemma NoBraceInLinkedinHook() ensures '{' !in LINKEDIN_HOOK {}
  lemma NoBraceInLinkedinInsight1() ensures '{' !in LINKEDIN_INSIGHT_1 {}
  lemma NoBraceInLinkedinInsight2() ensures '{' !in LINKEDIN_INSIGHT_2 {}
  lemma NoBraceInLinkedinInsight3() ensures '{' !in LINKEDIN_INSIGHT_3 {}
  lemma NoBraceInLinkedinQuestion() ensures '{' !in LINKEDIN_QUESTION {}
  lemma NoBraceInLinkedinLink() ensures '{' !in LINKEDIN_LINK {}
  lemma NoBraceInLinkedinTags() ensures '{' !in LINKEDIN_TAGS {}

  /** No line of the reply holds `{`. */
  lemma LinesBraceFree()
    ensures forall k :: 0 <= k < |LINES| ==> '{' !in LINES[k]
  {
    NoBraceInHeader();
    NoBraceInHook();
    NoBraceInInsight1();
    NoBraceInInsight2();
    NoBraceInCta();
    NoBraceInLinkedinLabel();
    NoBraceInLinkedinHook();
    NoBraceInLinkedinInsight1();
    NoBraceInLinkedinInsight2();
    NoBraceInLinkedinInsight3();
    NoBraceInLinkedinQuestion();
    NoBraceInLinkedinLink();
    NoBraceInLinkedinTags();
  }
}

/**
 * The generate endpoint: provider selection from the environment, the stub
 * reply used without credentials, the normaliser for the model's reply, the
 * response payload, the per-IP fixed-window rate limiter and the one-hour
 * result cache. The two module-level maps of the route are the fields of a
 * `RouteState` object; the clock, the environment, the page fetch, the model
 * call and `JSON.parse` are parameters.
 */
module GenerateRoute {
  import opened Wrappers
  import opened Strings
  import opened JsonValue
  import opened Validators
  import StubReply

  // ---------------------------------------------------------------------------
  // Provider configuration

  datatype Provider = OpenRouter | OpenAI

  datatype ProviderCfg = ProviderCfg(provider: Provider, key: Option<string>, model: string)

  const DEFAULT_OPENROUTER_MODEL: string := "anthropic/claude-3.7-sonnet"
  const DEFAULT_OPENAI_MODEL: string := "gpt-4o-mini"

  /** `process.env[name]`, which may be set to the empty string. */
  function EnvVar(env: map<string, string>, name: string): Option<string> {
    if name in env then Some(env[name]) else None
  }

  /** `process.env[name]` is truthy: set and not empty. */
  predicate EnvSet(env: map<string, string>, name: string) {
    name in env && env[name] != ""
  }

  /** `process.env[name] || fallback`. */
  function EnvOr(env: map<string, string>, name: string, fallback: string): string {
    if EnvSet(env, name) then env[name] else fallback
  }

  function OpenRouterCfg(env: map<string, string>): ProviderCfg {
    ProviderCfg(OpenRouter, EnvVar(env, "OPENROUTER_API_KEY"),
                EnvOr(env, "OPENROUTER_MODEL", DEFAULT_OPENROUTER_MODEL))
  }

  function OpenAICfg(env: map<string, string>): ProviderCfg {
    ProviderCfg(OpenAI, EnvVar(env, "OPENAI_API_KEY"), EnvOr(env, "OPENAI_MODEL", DEFAULT_OPENAI_MODEL))
  }

  /** `(process.env.LLM_PROVIDER || '').toLowerCase()`. */
  function ProviderSelector(env: map<string, string>): string {
    LowerAscii(EnvOr(env, "LLM_PROVIDER", ""))
  }

  /** `getProviderCfg()`. */
  function GetProviderCfg(env: map<string, string>): Option<ProviderCfg> {
    var selector := ProviderSelector(env);
    if selector == "openrouter" then Some(OpenRouterCfg(env))
    else if selector == "openai" then Some(OpenAICfg(env))
    else if EnvSet(env, "OPENROUTER_API_KEY") then Some(OpenRouterCfg(env))
    else if EnvSet(env, "OPENAI_API_KEY") then Some(OpenAICfg(env))
    else None
  }

  /** The name of the environment variable holding a provider's key. */
  function KeyVariable(p: Provider): string {
    match p
    case OpenRouter => "OPENROUTER_API_KEY"
    case OpenAI => "OPENAI_API_KEY"
  }

  /**
   * An explicit selector wins; otherwise an OpenRouter key takes precedence
   * over an OpenAI key, and with neither there is no configuration. A
   * configuration always names a model and carries its provider's key.
   */
  lemma ProviderPrecedence(env: map<string, string>)
    ensures var cfg := GetProviderCfg(env);
      && (ProviderSelector(env) == "openrouter" ==> cfg.Some? && cfg.value.provider == OpenRouter)
      && (ProviderSelector(env) == "openai" ==> cfg.Some? && cfg.value.provider == OpenAI)
      && (ProviderSelector(env) !in {"openrouter", "openai"} && EnvSet(env, "OPENROUTER_API_KEY")
          ==> cfg.Some? && cfg.value.provider == OpenRouter)
      && (cfg.Some? && cfg.value.provider == OpenAI
          ==> ProviderSelector(env) == "openai" || !EnvSet(env, "OPENROUTER_API_KEY"))
      && (cfg.None? <==> ProviderSelector(env) !in {"openrouter", "openai"}
                         && !EnvSet(env, "OPENROUTER_API_KEY") && !EnvSet(env, "OPENAI_API_KEY"))
      && (cfg.Some? ==> cfg.value.model != "" && cfg.value.key == EnvVar(env, KeyVariable(cfg.value.provider)))
  {
  }

  // ---------------------------------------------------------------------------
  // The model call

  /** What the provider's HTTP endpoint answered. */
  datatype LlmOutcome =
    | LlmHttpFailure(status: nat, text: string)
    | LlmBadBody
    | LlmReply(content: Option<string>)

  predicate HasKey(cfg: Option<ProviderCfg>) {
    cfg.Some? && cfg.value.key.Some? && cfg.value.key.value != ""
  }

  function ProviderLabel(p: Provider): string {
    match p
    case OpenRouter => "OpenRouter"
    case OpenAI => "OpenAI"
  }

  const STUB_RESPONSE: string := Join(StubReply.LINES, "\n")

  /**
   * `callLLM`: without a configuration or a key the stub text; otherwise the
   * reply's content, where a failed request or an empty reply is an error.
   */
  function CallLLM(cfg: Option<ProviderCfg>, outcome: LlmOutcome): (r: Result<string, Thrown>)
    ensures !HasKey(cfg) ==> r == Success(STUB_RESPONSE)
    ensures HasKey(cfg) && r.Success? ==> r.value != "" && outcome == LlmReply(Some(r.value))
    ensures HasKey(cfg) && outcome.LlmReply? && outcome.content.Some? && outcome.content.value != ""
      ==> r == Success(outcome.content.value)
    ensures HasKey(cfg) && outcome.LlmHttpFailure?
      ==> r == Failure(Raised(ProviderLabel(cfg.value.provider) + " error: " + NatToString(outcome.status) + " " + outcome.text))
    ensures HasKey(cfg) && outcome.LlmReply? && (outcome.content.None? || outcome.content.value == "")
      ==> r == Failure(Raised(ProviderLabel(cfg.value.provider) + " returned empty content"))
  {
    if !HasKey(cfg) then Success(STUB_RESPONSE)
    else
      var name := ProviderLabel(cfg.value.provider);
      match outcome
      case LlmHttpFailure(status, text) => Failure(Raised(name + " error: " + NatToString(status) + " " + text))
      case LlmBadBody => Failure(EngineError)
      case LlmReply(content) =>
        if content.None? || content.value == "" then Failure(Raised(name + " returned empty content"))
        else Success(content.value)
  }

  // ---------------------------------------------------------------------------
  // Normalising the model's reply

  datatype AiContent = AiContent(thread: seq<Json>, linkedin: string)

  const FALLBACK: AiContent := AiContent(
    [ JStr("Hook about the article. Key insight. \U{1F9F5} 1/4"),
      JStr("Insight #1 with value. \U{1F9F5} 2/4"),
      JStr("Insight #2 with value. \U{1F9F5} 3/4"),
      JStr("CTA. [URL] @account1 @account2 @account3 #tag1 #tag2 \U{1F9F5} 4/4") ],
    "\U{1F680} Hook about the article.\n\n\U{1F4A1} Insight 1 with actionable value\n"
    + "\U{1F4C8} Insight 2 with practical application\n\U{1F3AF} Insight 3 with clear takeaway\n\n"
    + "What are your thoughts on this?\n\nRead the full article: [URL]\n\n#marketing #content #growth")

  const MAX_TWEETS: nat := 5

  /** `/\{[\s\S]*\}/` matches `s[p..q + 1]`. */
  predicate IsBraceMatch(s: string, p: int, q: int) {
    0 <= p < q < |s| && s[p] == '{' && s[q] == '}'
  }

  /**
   * The span the greedy pattern `/\{[\s\S]*\}/` selects: it starts at the
   * leftmost `{` that has some `}` after it and extends to the last `}`, so it
   * starts no later and ends no earlier than any other possible match.
   */
  function BraceSpan(s: string): (r: Option<(nat, nat)>)
    ensures r.Some? ==> IsBraceMatch(s, r.value.0, r.value.1)
    ensures r.Some? ==> forall p, q :: IsBraceMatch(s, p, q) ==> r.value.0 <= p && q <= r.value.1
    ensures r.None? ==> forall p, q :: !IsBraceMatch(s, p, q)
  {
    var first := IndexOfChar(s, '{');
    var last := LastIndexOfChar(s, '}');
    if first.Some? && last.Some? && first.value < last.value then Some((first.value, last.value))
    else None
  }

  /** `text.match(/\{[\s\S]*\}/)?.[0]`. */
  function JsonBlock(text: string): (r: Option<string>)
    ensures r.Some? <==> exists p, q :: IsBraceMatch(text, p, q)
    ensures r.Some? ==> |r.value| >= 2 && r.value[0] == '{' && r.value[|r.value| - 1] == '}'
  {
    match BraceSpan(text)
    case None => None
    case Some((p, q)) => Some(text[p..q + 1])
  }

  /** The parsed block has an array `thread` and a string `linkedin`. */
  predicate WellShaped(v: Json) {
    && Field(v, "thread").Some? && Field(v, "thread").value.JArr?
    && Field(v, "linkedin").Some? && Field(v, "linkedin").value.JStr?
  }

  function Min(a: int, b: int): int {
    if a <= b then a else b
  }

  /**
   * `parseAIJson`: the first five elements of `thread` (not type-checked) and
   * `linkedin` of the block, when the block parses into the right shape;
   * otherwise the fixed four-tweet fallback.
   */
  function ParseAIJson(text: string, parse: string -> Option<Json>): (r: AiContent)
    ensures |r.thread| <= MAX_TWEETS
    ensures (JsonBlock(text).None? || parse(JsonBlock(text).value).None?
             || !WellShaped(parse(JsonBlock(text).value).value)) ==> r == FALLBACK
    ensures JsonBlock(text).Some? && parse(JsonBlock(text).value).Some?
             && WellShaped(parse(JsonBlock(text).value).value)
      ==> var v := parse(JsonBlock(text).value).value;
          var items := Field(v, "thread").value.items;
          r.thread <= items && |r.thread| == Min(MAX_TWEETS, |items|)
          && r.linkedin == Field(v, "linkedin").value.s
  {
    match JsonBlock(text)
    case None => FALLBACK
    case Some(block) =>
      match parse(block)
      case None => FALLBACK
      case Some(v) =>
        if !WellShaped(v) then FALLBACK
        else
          var items := Field(v, "thread").value.items;
          AiContent(items[..Min(MAX_TWEETS, |items|)], Field(v, "linkedin").value.s)
  }

  /** The stub text holds no `{`, so normalising it always yields the fallback. */
  lemma StubYieldsFallback(parse: string -> Option<Json>)
    ensures ParseAIJson(STUB_RESPONSE, parse) == FALLBACK
  {
    StubReply.LinesBraceFree();
    JoinAvoids(StubReply.LINES, "\n", '{');
    assert forall j :: 0 <= j < |STUB_RESPONSE| ==> STUB_RESPONSE[j] != '{';
  }

  // ---------------------------------------------------------------------------
  // The success payload

  datatype Options = Options(threadType: ThreadType, tone: Tone, industry: Industry)

  datatype Source = Source(title: string, siteName: Option<string>, url: string)

  /** `x` holds one entry per tweet; a JSON `undefined` entry is written as null. */
  datatype Counts = Counts(x: seq<Json>, linkedin: nat)

  datatype Meta = Meta(options: Options, counts: Counts, model: string)

  datatype Payload = Payload(thread: seq<Json>, linkedin: string, source: Source, meta: Meta)

  /** What the HTML reader finds on the page; the reader itself is not modelled. */
  datatype PageFacts = PageFacts(title: string, siteName: Option<string>, description: Option<string>, text: string)

  datatype Extracted = Extracted(title: string, siteName: Option<string>, url: string,
                                 description: Option<string>, text: Option<string>)

  /** `extractFromHtml`: the page's facts, under the requested url. */
  function ExtractFromHtml(url: string, facts: PageFacts): (r: Extracted)
    ensures r.url == url && r.title == facts.title && r.siteName == facts.siteName
  {
    Extracted(facts.title, facts.siteName, url, facts.description, Some(facts.text))
  }

  const EXCERPT_LENGTH: nat := 1200

  /** `(ex.text ?? '').slice(0, 1200)`, the page excerpt put into the prompt. */
  function Excerpt(text: Option<string>): (r: string)
    ensures r <= text.GetOr("") && |r| == Min(EXCERPT_LENGTH, |text.GetOr("")|)
  {
    var t := text.GetOr("");
    if |t| <= EXCERPT_LENGTH then t else t[..EXCERPT_LENGTH]
  }

  /**
   * `t.length` for a thread element the model returned: the length of a
   * string or an array, the `length` member of an object (undefined when it
   * has none), undefined for numbers and booleans, and a TypeError for null.
   */
  function LengthOf(t: Json): Option<Json> {
    match t
    case JNull => None
    case JStr(s) => Some(JNum(|s|))
    case JArr(items) => Some(JNum(|items|))
    case JObj(m) => Some(if "length" in m then m["length"] else JNull)
    case _ => Some(JNull)
  }

  /** `thread.map((t) => t.length)`: fails exactly when some element is null. */
  function TweetLengths(thread: seq<Json>): (r: Result<seq<Json>, Thrown>)
    ensures r.Success? ==> |r.value| == |thread|
    ensures r.Success? ==> forall i :: 0 <= i < |thread| ==> LengthOf(thread[i]) == Some(r.value[i])
    ensures r.Failure? <==> exists i :: 0 <= i < |thread| && thread[i] == JNull
  {
    if |thread| == 0 then Success([])
    else match LengthOf(thread[0])
      case None => Failure(EngineError)
      case Some(n) =>
        match TweetLengths(thread[1..])
        case Failure(e) =>
          ghost var i :| 0 <= i < |thread[1..]| && thread[1..][i] == JNull;
          assert thread[i + 1] == JNull;
          Failure(e)
        case Success(rest) =>
          assert forall i :: 1 <= i < |thread| ==> thread[i] == thread[1..][i - 1];
          Success([n] + rest)
  }

  /** The page fetch, as an outcome: the html, a failed status, or a network error. */
  datatype FetchOutcome = Fetched(html: string) | FetchHttpFailure(status: nat) | FetchUnreachable

  /**
   * Everything outside the route that a request consults: the environment,
   * the url parser, the page fetch and what the reader finds in the page,
   * the provider's answer and `JSON.parse`.
   */
  datatype Upstream = Upstream(
    env: map<string, string>,
    isUrl: string -> bool,
    fetched: FetchOutcome,
    page: PageFacts,
    llm: LlmOutcome,
    parse: string -> Option<Json>)

  /** The model name the payload reports: `cfg?.model || 'Unknown'`. */
  function ModelName(cfg: Option<ProviderCfg>): string {
    if cfg.Some? && cfg.value.model != "" then cfg.value.model else "Unknown"
  }

  /** The uncached part of `POST`: fetch, extract, call the model, normalise, build the payload. */
  function Generate(body: GenerateBody, up: Upstream): Result<Payload, Thrown> {
    match up.fetched
    case FetchHttpFailure(status) => Failure(Raised("Fetch failed: " + NatToString(status)))
    case FetchUnreachable => Failure(EngineError)
    case Fetched(_) =>
      var extracted := ExtractFromHtml(body.url, up.page);
      var cfg := GetProviderCfg(up.env);
      match CallLLM(cfg, up.llm)
      case Failure(e) => Failure(e)
      case Success(ai) =>
        var content := ParseAIJson(ai, up.parse);
        match TweetLengths(content.thread)
        case Failure(e) => Failure(e)
        case Success(xs) =>
          Success(Payload(
            content.thread, content.linkedin,
            Source(extracted.title, extracted.siteName, extracted.url),
            Meta(Options(body.threadType, body.tone, body.industry),
                 Counts(xs, |content.linkedin|), ModelName(cfg))))
  }

  /**
   * A payload reports the length of every tweet and of the LinkedIn post,
   * the requested url and options, and at most five tweets.
   */
  lemma PayloadConsistent(body: GenerateBody, up: Upstream)
    requires Generate(body, up).Success?
    ensures var p := Generate(body, up).value;
      && |p.meta.counts.x| == |p.thread| <= MAX_TWEETS
      && (forall i :: 0 <= i < |p.thread| && p.thread[i].JStr? ==> p.meta.counts.x[i] == JNum(|p.thread[i].s|))
      && p.meta.counts.linkedin == |p.linkedin|
      && p.source.url == body.url
      && p.meta.options == Options(body.threadType, body.tone, body.industry)
      && p.meta.model != ""
  {
  }

  /** Without a provider key the payload carries the fallback content, whatever the provider would say. */
  lemma StubPayload(body: GenerateBody, up: Upstream)
    requires up.fetched.Fetched? && !HasKey(GetProviderCfg(up.env))
    ensures Generate(body, up).Success?
    ensures Generate(body, up).value.thread == FALLBACK.thread
    ensures Generate(body, up).value.linkedin == FALLBACK.linkedin
  {
    StubYieldsFallback(up.parse);
  }

  // ---------------------------------------------------------------------------
  // Rate limiting

  const RL_WINDOW: int := 10 * 60 * 1000
  const RL_LIMIT: int := 20

  datatype RlState = RlState(count: int, windowStart: int)

  datatype RateDecision = Allowed | Denied(resetIn: int)

  datatype RlStep = RlStep(decision: RateDecision, bucket: map<string, RlState>)

  /** `checkRateLimit` on the bucket map: a fixed window of `RL_WINDOW` milliseconds per IP. */
  function RateLimitStep(bucket: map<string, RlState>, ip: string, now: int): RlStep {
    if ip !in bucket then RlStep(Allowed, bucket[ip := RlState(1, now)])
    else
      var state := bucket[ip];
      if now - state.windowStart > RL_WINDOW then RlStep(Allowed, bucket[ip := RlState(1, now)])
      else if state.count >= RL_LIMIT then RlStep(Denied(RL_WINDOW - (now - state.windowStart)), bucket)
      else RlStep(Allowed, bucket[ip := RlState(state.count + 1, state.windowStart)])
  }

  /** Every entry has counted between one and `RL_LIMIT` requests. */
  predicate BucketValid(bucket: map<string, RlState>) {
    forall ip :: ip in bucket ==> 1 <= bucket[ip].count <= RL_LIMIT
  }

  /** The bound on every entry is kept, and only the requesting IP's entry can change. */
  lemma RateLimitPreserves(bucket: map<string, RlState>, ip: string, now: int)
    requires BucketValid(bucket)
    ensures var st := RateLimitStep(bucket, ip, now);
      && BucketValid(st.bucket)
      && ip in st.bucket
      && (forall other :: other != ip ==> (other in st.bucket <==> other in bucket))
      && (forall other :: other != ip && other in bucket ==> st.bucket[other] == bucket[other])
  {
  }

  /** A first request, or one after the window has strictly passed, opens a new window and is allowed. */
  lemma RateLimitNewWindow(bucket: map<string, RlState>, ip: string, now: int)
    requires ip !in bucket || now - bucket[ip].windowStart > RL_WINDOW
    ensures RateLimitStep(bucket, ip, now) == RlStep(Allowed, bucket[ip := RlState(1, now)])
  {
  }

  /**
   * Inside the window (which includes exactly `RL_WINDOW` elapsed) a full
   * entry denies and is left unchanged, with `resetIn` in `[0, RL_WINDOW]`
   * when the window did not start in the future; otherwise the count goes up by one.
   */
  lemma RateLimitWithinWindow(bucket: map<string, RlState>, ip: string, now: int)
    requires ip in bucket && now - bucket[ip].windowStart <= RL_WINDOW
    ensures var state := bucket[ip];
      var st := RateLimitStep(bucket, ip, now);
      && (state.count >= RL_LIMIT ==>
            && st.bucket == bucket && st.decision.Denied?
            && st.decision.resetIn >= 0
            && (state.windowStart <= now ==> st.decision.resetIn <= RL_WINDOW))
      && (state.count < RL_LIMIT ==>
            && st.decision == Allowed
            && st.bucket == bucket[ip := RlState(state.count + 1, state.windowStart)])
  {
  }

  /** A denial always reports a non-negative wait. */
  lemma DeniedResetNonNegative(bucket: map<string, RlState>, ip: string, now: int)
    ensures RateLimitStep(bucket, ip, now).decision.Denied? ==> RateLimitStep(bucket, ip, now).decision.resetIn >= 0
  {
  }

  datatype RunResult = RunResult(decisions: seq<RateDecision>, bucket: map<string, RlState>)

  /** Requests from one IP at the given times, one after another. */
  function RunRequests(bucket: map<string, RlState>, ip: string, times: seq<int>): (r: RunResult)
    ensures |r.decisions| == |times|
    decreases |times|
  {
    if |times| == 0 then RunResult([], bucket)
    else
      var st := RateLimitStep(bucket, ip, times[0]);
      var rest := RunRequests(st.bucket, ip, times[1..]);
      RunResult([st.decision] + rest.decisions, rest.bucket)
  }

  /** From an entry at count `k` of a window, the next requests in that window are allowed while the count is below the limit. */
  lemma {:induction false} RunWithinWindow(bucket: map<string, RlState>, ip: string, start: int, k: int, times: seq<int>)
    requires ip in bucket && bucket[ip] == RlState(k, start) && 1 <= k <= RL_LIMIT
    requires forall i :: 0 <= i < |times| ==> times[i] - start <= RL_WINDOW
    ensures forall i :: 0 <= i < |times| ==> (RunRequests(bucket, ip, times).decisions[i] == Allowed <==> k + i < RL_LIMIT)
    decreases |times|
  {
    if |times| > 0 {
      var st := RateLimitStep(bucket, ip, times[0]);
      var k' := if k < RL_LIMIT then k + 1 else k;
      assert st.bucket[ip] == RlState(k', start);
      RunWithinWindow(st.bucket, ip, start, k', times[1..]);
      var r := RunRequests(bucket, ip, times);
      var rest := RunRequests(st.bucket, ip, times[1..]);
      assert r.decisions == [st.decision] + rest.decisions;
      forall i | 0 <= i < |times|
        ensures r.decisions[i] == Allowed <==> k + i < RL_LIMIT
      {
        if i > 0 {
          assert r.decisions[i] == rest.decisions[i - 1];
          assert rest.decisions[i - 1] == Allowed <==> k' + (i - 1) < RL_LIMIT;
        }
      }
    }
  }

  /**
   * Within one window opened by a first request, exactly the first
   * `RL_LIMIT` requests of an IP are allowed, so the 21st is denied.
   */
  lemma WindowAdmitsLimit(bucket: map<string, RlState>, ip: string, times: seq<int>)
    requires ip !in bucket && |times| > 0
    requires forall i :: 0 <= i < |times| ==> times[i] - times[0] <= RL_WINDOW
    ensures forall i :: 0 <= i < |times| ==> (RunRequests(bucket, ip, times).decisions[i] == Allowed <==> i < RL_LIMIT)
  {
    var st := RateLimitStep(bucket, ip, times[0]);
    forall i | 0 <= i < |times[1..]| ensures times[1..][i] - times[0] <= RL_WINDOW {
      assert times[1..][i] == times[i + 1];
    }
    RunWithinWindow(st.bucket, ip, times[0], 1, times[1..]);
    var r := RunRequests(bucket, ip, times);
    var rest := RunRequests(st.bucket, ip, times[1..]);
    assert r.decisions == [st.decision] + rest.decisions;
    forall i | 0 <= i < |times|
      ensures r.decisions[i] == Allowed <==> i < RL_LIMIT
    {
      if i > 0 {
        assert r.decisions[i] == rest.decisions[i - 1];
        assert rest.decisions[i - 1] == Allowed <==> 1 + (i - 1) < RL_LIMIT;
      }
    }
  }

  /** `Math.ceil(resetIn / 1000)`, the seconds the 429 answer reports. */
  function RetryAfterSeconds(resetIn: int): (r: int)
    ensures 1000 * (r - 1) < resetIn <= 1000 * r
  {
    (resetIn + 999) / 1000
  }

  // ---------------------------------------------------------------------------
  // Client address

  /** The request data `getClientIp` reads: the `x-forwarded-for` header and the platform's `ip`. */
  datatype RequestMeta = RequestMeta(forwardedFor: Option<string>, ip: Option<string>)

  /** `s.split(',')[0]`: the text before the first comma, or all of it. */
  function FirstEntry(s: string): (r: string)
    ensures r <= s && ',' !in r
    ensures |r| < |s| ==> s[|r|] == ','
  {
    var r := Split(s, ',')[0];
    match IndexOfChar(s, ',')
    case None => assert r == s; r
    case Some(i) => assert r == s[..i]; r
  }

  /** `getClientIp`: the first forwarded entry, trimmed, else the platform's address, else `unknown`. */
  function GetClientIp(meta: RequestMeta): (r: string)
    ensures r != ""
    ensures meta.forwardedFor.Some? && Trim(FirstEntry(meta.forwardedFor.value)) != ""
      ==> r == Trim(FirstEntry(meta.forwardedFor.value))
    ensures (meta.forwardedFor.None? || Trim(FirstEntry(meta.forwardedFor.value)) == "")
      ==> r == (if meta.ip.Some? && meta.ip.value != "" then meta.ip.value else "unknown")
  {
    var forwarded := if meta.forwardedFor.Some? then Trim(FirstEntry(meta.forwardedFor.value)) else "";
    if forwarded != "" then forwarded
    else if meta.ip.Some? && meta.ip.value != "" then meta.ip.value
    else "unknown"
  }

  /** A header listing several proxies yields the first one, trimmed. */
  lemma ClientIpFirstHop(first: string, rest: string, ip: Option<string>)
    requires ',' !in first && Trim(first) != ""
    ensures GetClientIp(RequestMeta(Some(first + "," + rest), ip)) == Trim(first)
  {
    assert Avoids(first, ',');
    SplitAtFirst(first, ',', rest);
    assert first + "," + rest == first + [','] + rest;
  }

  // ---------------------------------------------------------------------------
  // The result cache

  const ONE_HOUR: int := 60 * 60 * 1000

  /** The cache key: the JSON of url and options, taken as an injective encoding of the four values. */
  datatype CacheKey = CacheKey(url: string, threadType: ThreadType, tone: Tone, industry: Industry)

  function KeyOf(body: GenerateBody): CacheKey {
    CacheKey(body.url, body.threadType, body.tone, body.industry)
  }

  /** Two requests that differ only in their credentials share a cache entry, and different options do not. */
  lemma KeyIgnoresCredentials(a: GenerateBody, b: GenerateBody)
    ensures KeyOf(a) == KeyOf(b)
      <==> a.url == b.url && a.threadType == b.threadType && a.tone == b.tone && a.industry == b.industry
  {
  }

  datatype CacheEntry = CacheEntry(at: int, value: Payload)

  /** A stored entry is served while strictly less than an hour old. */
  predicate Fresh(entry: CacheEntry, now: int) {
    now - entry.at < ONE_HOUR
  }

  datatype GenerateResponse =
    | RateLimited(retryAfterSeconds: int)
    | InvalidJsonBody
    | InvalidRequest(issues: seq<Issue>)
    | Generated(payload: Payload, cached: bool)
    | ServerError(thrown: Thrown)

  datatype Outcome = Outcome(response: GenerateResponse, cache: map<CacheKey, CacheEntry>)

  /**
   * `POST` after the rate limiter let the request through. `body` is the
   * parsed JSON body, or None when it was not JSON.
   */
  function Respond(cache: map<CacheKey, CacheEntry>, now: int, body: Option<Json>, up: Upstream): Outcome {
    if body.None? then Outcome(InvalidJsonBody, cache)
    else
      match ValidateGenerateBody(body.value, up.isUrl)
      case Failure(issues) => Outcome(InvalidRequest(issues), cache)
      case Success(data) =>
        var key := KeyOf(data);
        if key in cache && Fresh(cache[key], now) then Outcome(Generated(cache[key].value, true), cache)
        else
          match Generate(data, up)
          case Failure(e) => Outcome(ServerError(e), cache)
          case Success(p) => Outcome(Generated(p, false), cache[key := CacheEntry(now, p)])
  }

  /** A fresh entry is served, marked as cached, without consulting anything outside the route. */
  lemma CacheHit(cache: map<CacheKey, CacheEntry>, now: int, body: Json, up: Upstream, up': Upstream)
    requires up'.isUrl == up.isUrl
    requires ValidateGenerateBody(body, up.isUrl).Success?
    requires var key := KeyOf(ValidateGenerateBody(body, up.isUrl).value); key in cache && Fresh(cache[key], now)
    ensures var key := KeyOf(ValidateGenerateBody(body, up.isUrl).value);
      && Respond(cache, now, Some(body), up) == Outcome(Generated(cache[key].value, true), cache)
      && Respond(cache, now, Some(body), up') == Respond(cache, now, Some(body), up)
  {
  }

  /** An entry exactly an hour old is not served: the request is generated afresh. */
  lemma CacheExpiresAtOneHour(cache: map<CacheKey, CacheEntry>, now: int, body: Json, up: Upstream)
    requires ValidateGenerateBody(body, up.isUrl).Success?
    requires var key := KeyOf(ValidateGenerateBody(body, up.isUrl).value); key in cache && now - cache[key].at == ONE_HOUR
    ensures var data := ValidateGenerateBody(body, up.isUrl).value;
      Respond(cache, now, Some(body), up).response
        == (match Generate(data, up) case Failure(e) => ServerError(e) case Success(p) => Generated(p, false))
  {
  }

  /** A miss that generates a payload stores it under the request's key, stamped with the current time. */
  lemma MissStores(cache: map<CacheKey, CacheEntry>, now: int, body: Json, up: Upstream)
    requires ValidateGenerateBody(body, up.isUrl).Success?
    requires var data := ValidateGenerateBody(body, up.isUrl).value;
      var key := KeyOf(data);
      !(key in cache && Fresh(cache[key], now)) && Generate(data, up).Success?
    ensures var data := ValidateGenerateBody(body, up.isUrl).value;
      var p := Generate(data, up).value;
      Respond(cache, now, Some(body), up) == Outcome(Generated(p, false), cache[KeyOf(data) := CacheEntry(now, p)])
  {
  }

  /**
   * After a request generated a payload, a request for the same url and
   * options within the hour is answered with that payload, marked as
   * cached, whatever its credentials or the world outside now say.
   */
  lemma WriteThenRead(cache: map<CacheKey, CacheEntry>, now: int, later: int,
                      body: Json, body': Json, up: Upstream, up': Upstream)
    requires up'.isUrl == up.isUrl
    requires now <= later < now + ONE_HOUR
    requires ValidateGenerateBody(body, up.isUrl).Success? && ValidateGenerateBody(body', up.isUrl).Success?
    requires KeyOf(ValidateGenerateBody(body', up.isUrl).value) == KeyOf(ValidateGenerateBody(body, up.isUrl).value)
    requires Respond(cache, now, Some(body), up).response.Generated?
    requires !Respond(cache, now, Some(body), up).response.cached
    ensures var first := Respond(cache, now, Some(body), up);
      Respond(first.cache, later, Some(body'), up').response == Generated(first.response.payload, true)
  {
    var data := ValidateGenerateBody(body, up.isUrl).value;
    var key := KeyOf(data);
    var first := Respond(cache, now, Some(body), up);
    assert key in first.cache && first.cache[key].value == first.response.payload;
  }

  /** A body that is not JSON or fails the schema is answered without touching the cache. */
  lemma RejectedLeavesCache(cache: map<CacheKey, CacheEntry>, now: int, body: Option<Json>, up: Upstream)
    requires body.None? || ValidateGenerateBody(body.value, up.isUrl).Failure?
    ensures Respond(cache, now, body, up).cache == cache
    ensures Respond(cache, now, body, up).response.InvalidJsonBody? <==> body.None?
    ensures body.Some? ==>
      Respond(cache, now, body, up).response == InvalidRequest(ValidateGenerateBody(body.value, up.isUrl).error)
  {
  }

  // ---------------------------------------------------------------------------
  // The route's module-level state

  /** The two module-level maps of the route: the per-IP rate buckets and the result cache. */
  class RouteState {
    var rlBucket: map<string, RlState>
    var cache: map<CacheKey, CacheEntry>

    predicate Valid()
      reads this
    {
      BucketValid(rlBucket)
    }

    constructor ()
      ensures Valid() && rlBucket == map[] && cache == map[]
    {
      rlBucket := map[];
      cache := map[];
    }

    /** `checkRateLimit`, updating the requesting IP's entry in place. */
    method CheckRateLimit(ip: string, now: int) returns (d: RateDecision)
      requires Valid()
      modifies this
      ensures Valid()
      ensures RlStep(d, rlBucket) == RateLimitStep(old(rlBucket), ip, now)
      ensures cache == old(cache)
    {
      RateLimitPreserves(rlBucket, ip, now);
      if ip !in rlBucket {
        rlBucket := rlBucket[ip := RlState(1, now)];
        return Allowed;
      }
      var state := rlBucket[ip];
      if now - state.windowStart > RL_WINDOW {
        rlBucket := rlBucket[ip := RlState(1, now)];
        return Allowed;
      }
      if state.count >= RL_LIMIT {
        var resetIn := RL_WINDOW - (now - state.windowStart);
        return Denied(resetIn);
      }
      rlBucket := rlBucket[ip := state.(count := state.count + 1)];
      return Allowed;
    }

    /**
     * `POST`: the rate limiter first, then validation, the cache lookup,
     * generation and the cache store. Both clock reads of the route take
     * the value `now`.
     */
    method Post(meta: RequestMeta, now: int, body: Option<Json>, up: Upstream) returns (response: GenerateResponse)
      requires Valid()
      modifies this
      ensures Valid()
      ensures var st := RateLimitStep(old(rlBucket), GetClientIp(meta), now);
        && rlBucket == st.bucket
        && (st.decision.Denied? ==> response == RateLimited(RetryAfterSeconds(st.decision.resetIn))
                                    && cache == old(cache))
        && (st.decision.Allowed? ==> Outcome(response, cache) == Respond(old(cache), now, body, up))
    {
      var ip := GetClientIp(meta);
      var rl := CheckRateLimit(ip, now);
      if rl.Denied? {
        return RateLimited(RetryAfterSeconds(rl.resetIn));
      }
      if body.None? {
        return InvalidJsonBody;
      }
      var parsed := ValidateGenerateBody(body.value, up.isUrl);
      if parsed.Failure? {
        return InvalidRequest(parsed.error);
      }
      var key := KeyOf(parsed.value);
      if key in cache && Fresh(cache[key], now) {
        return Generated(cache[key].value, true);
      }
      var generated := Generate(parsed.value, up);
      if generated.Failure? {
        return ServerError(generated.error);
      }
      cache := cache[key := CacheEntry(now, generated.value)];
      return Generated(generated.value, false);
    }
  }

  /**
   * Two identical requests to a fresh route within the hour: the second is
   * answered from the cache with the first one's payload.
   */
  method RepeatedRequestIsCached(meta: RequestMeta, now: int, later: int, body: Json, up: Upstream, up': Upstream)
    returns (first: GenerateResponse, second: GenerateResponse)
    requires up'.isUrl == up.isUrl
    requires now <= later < now + ONE_HOUR
    ensures first.Generated? ==> second == Generated(first.payload, true)
  {
    var route := new RouteState();
    first := route.Post(meta, now, Some(body), up);
    if first.Generated? {
      assert first.cached == false;
      ghost var key := KeyOf(ValidateGenerateBody(body, up.isUrl).value);
      assert key in route.cache && route.cache[key] == CacheEntry(now, first.payload);
      assert route.rlBucket[GetClientIp(meta)].count == 1;
    }
    second := route.Post(meta, later, Some(body), up');
  }
}

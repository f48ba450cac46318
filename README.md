# ThreadCraft core, modelled in Dafny

ThreadCraft is a Next.js application with two jobs:

- It turns an article url into an X (Twitter) thread and a LinkedIn post.
- It turns a research paper (a PDF url, an arXiv url or an uploaded PDF) into a structured analysis.

This project models the parts of it that decide what happens to a request:

- **The generate endpoint** (`GenerateRoute`, with the fixed stub reply in `StubReply`):
  - provider selection from the environment;
  - the model call and its stub fallback;
  - normalising the model's reply into at most five tweets and a LinkedIn post;
  - the per-IP fixed-window rate limiter (20 requests per 10 minutes);
  - the client address;
  - the one-hour result cache keyed by url and options;
  - the `POST` handler, as a class holding the two module-level maps.
- **The request schema** (`Validators`): three enumerations with defaults, a url of at most 2048 characters, two optional credential strings.
- **The research analysis endpoint** (`AnalyzeRoute`):
  - the arXiv url test;
  - the multipart and JSON request checks, in order;
  - the model call, with its one retry after removing Markdown code fences;
  - the merge of the model's answer over the default response shape.
- **The url input** (`SmartUrlInput`): the recent-url list (load, update, save), the source badge, and paste handling.
- **The research page** (`ResearchPage`):
  - the url test (http(s), then PDF-looking or arXiv);
  - what pressing Analyze sends;
  - the error message shown for a failed request;
  - the Markdown export, as a method that builds the line list step by step.
- **The home page** (`HomePage`):
  - when Generate is enabled;
  - the JSON body it posts;
  - the failure message;
  - the per-tweet and LinkedIn length bands, the copied text and the model label.
- **The middleware** (`Middleware`): the path matcher, the content-type guard on API POSTs and the two security headers.

Shared modules:

- `Wrappers`: `Option`, `Result` and `Thrown`, an exception carrying either a message or an engine error.
- `Strings`: the JavaScript string operations, on `seq<char>`.
- `JsonValue`: JSON values and the `?.`, `??`, spread and truthiness operators.

Everything outside the code is a parameter:

- the environment;
- the clock, as one `now` per request;
- `new URL` (as `isUrl`/`parses`/`protocol`) and `JSON.parse` (as `parse`);
- the page fetch and what cheerio finds in the page (`PageFacts`);
- the provider's HTTP answer;
- the form and body parsers;
- `localStorage`, as the stored values.

## Model

| member | source | states |
|---|---|---|
| Validators.EnumRoundTrip | src/lib/validators.ts:3-16 | each enumeration accepts exactly its listed names, and parsing inverts naming in both directions |
| Validators.ValidateGenerateBody | src/lib/validators.ts:18-25 | a rejection carries at least one issue; an accepted body is an object whose `url` is the result's url, which parses and is at most 2048 long |
| Validators.UrlIssuesFirst | src/lib/validators.ts:19 | an object's issues start with the url's: one type issue for a missing or non-string url; for a string, an invalid-url issue when it does not parse and a too-big issue over 2048 characters, in that order when both fail |
| Validators.ValidateAcceptsIff | src/lib/validators.ts:18-25 | the schema accepts a body exactly when every field is admissible: url a parsable string ≤ 2048, enumerations absent or a listed name, credentials absent or strings (null refused) |
| Validators.ValidateDefaults | src/lib/validators.ts:20-24 | absent options become regular/professional/general, present ones are carried over, and each credential is present in the result iff it was in the body |
| StubReply.LinesBraceFree | src/app/api/generate/route.ts:57-75 | no line of the stub reply contains `{` |
| GenerateRoute.GetProviderCfg | src/app/api/generate/route.ts:26-50 | `getProviderCfg`; its contract is stated by `GenerateRoute.ProviderPrecedence` |
| GenerateRoute.ProviderPrecedence | src/app/api/generate/route.ts:26-50 | an explicit provider wins; otherwise an OpenRouter key beats an OpenAI key; no configuration exactly when neither key nor selector is set; a configuration carries its provider's key and a non-empty model |
| GenerateRoute.CallLLM | src/app/api/generate/route.ts:53-130 | without a key, the stub text; with a key, non-empty content is the result, an empty reply raises "<provider> returned empty content", an HTTP failure raises "<provider> error: status text", and success comes only from non-empty content |
| GenerateRoute.BraceSpan | src/app/api/generate/route.ts:210 | the greedy match spans from the first `{` to the last `}` after it: it contains every other match, and there is none when no such pair exists |
| GenerateRoute.JsonBlock | src/app/api/generate/route.ts:210 | a block is found iff some `{…}` match exists, and it starts with `{` and ends with `}` |
| GenerateRoute.ParseAIJson | src/app/api/generate/route.ts:208-242 | at most five tweets; no block, an unparsable block or a wrong shape gives the fixed fallback; otherwise a prefix of `thread` of length min(5, n) and the block's `linkedin` |
| GenerateRoute.StubYieldsFallback | src/app/api/generate/route.ts:55-75 | normalising the stub text always yields the fallback content, whatever `JSON.parse` does |
| GenerateRoute.Excerpt | src/app/api/generate/route.ts:187 | the excerpt is a prefix of the page text of length min(1200, length) |
| GenerateRoute.TweetLengths | src/app/api/generate/route.ts:330-343 | `thread.map(t => t.length)` throws exactly when some element is null; otherwise one length per element |
| GenerateRoute.Generate | src/app/api/generate/route.ts:323-343 | the uncached part of `POST`; stated by `GenerateRoute.PayloadConsistent` and `GenerateRoute.StubPayload` |
| GenerateRoute.PayloadConsistent | src/app/api/generate/route.ts:323-343 | a payload has one count per tweet (each string tweet's length), the LinkedIn post's length, the requested url and options, at most five tweets and a non-empty model name |
| GenerateRoute.StubPayload | src/app/api/generate/route.ts:55-75 | with a fetched page and no provider key, generation succeeds with the fallback thread and post |
| GenerateRoute.RateLimitStep | src/app/api/generate/route.ts:267-285 | `checkRateLimit` on the bucket map; stated by `RateLimitPreserves`, `RateLimitNewWindow`, `RateLimitWithinWindow` and `WindowAdmitsLimit` |
| GenerateRoute.RateLimitPreserves | src/app/api/generate/route.ts:267-285 | every bucket entry keeps a count between 1 and 20, and only the requesting IP's entry can change |
| GenerateRoute.RateLimitNewWindow | src/app/api/generate/route.ts:270-278 | a first request, or one after the window has strictly passed, is allowed and opens a new window at count 1 |
| GenerateRoute.RateLimitWithinWindow | src/app/api/generate/route.ts:279-284 | inside the window a full entry denies and is unchanged, with a wait in [0, window]; otherwise the count goes up by one |
| GenerateRoute.DeniedResetNonNegative | src/app/api/generate/route.ts:279-282 | a denial never reports a negative wait |
| GenerateRoute.RunRequests | src/app/api/generate/route.ts:267-285 | one decision per request in a sequence of requests from one IP |
| GenerateRoute.RunWithinWindow | src/app/api/generate/route.ts:279-284 | from count k, the i-th further request in the window is allowed iff k + i < 20 |
| GenerateRoute.WindowAdmitsLimit | src/app/api/generate/route.ts:255-285 | from a new IP, within one window exactly the first 20 requests are allowed |
| GenerateRoute.RetryAfterSeconds | src/app/api/generate/route.ts:293 | the reported seconds are the ceiling of the wait in milliseconds divided by 1000 |
| GenerateRoute.FirstEntry | src/app/api/generate/route.ts:261 | the first comma-separated entry is a comma-free prefix ending at the first comma or at the end |
| GenerateRoute.GetClientIp | src/app/api/generate/route.ts:259-265 | the trimmed first forwarded entry if non-empty, else the platform address if non-empty, else "unknown"; never empty |
| GenerateRoute.ClientIpFirstHop | src/app/api/generate/route.ts:261 | a header listing several proxies yields the first one, trimmed |
| GenerateRoute.KeyIgnoresCredentials | src/app/api/generate/route.ts:317 | two requests share a cache key iff their url and three options agree, whatever their credentials |
| GenerateRoute.Respond | src/app/api/generate/route.ts:299-347 | `POST` after the rate limiter; stated by `CacheHit`, `CacheExpiresAtOneHour`, `MissStores`, `WriteThenRead` and `RejectedLeavesCache` |
| GenerateRoute.CacheHit | src/app/api/generate/route.ts:317-321 | a fresh entry is returned marked as cached, without consulting the environment, the fetch or the provider |
| GenerateRoute.CacheExpiresAtOneHour | src/app/api/generate/route.ts:315-321 | with the hour of line 249, an entry exactly one hour old is not served; the request is generated afresh |
| GenerateRoute.MissStores | src/app/api/generate/route.ts:323-347 | a miss that generates a payload stores it under the request's key, stamped with the current time |
| GenerateRoute.WriteThenRead | src/app/api/generate/route.ts:317-347 | after a generated answer, any request with the same url and options within the hour gets that payload marked as cached |
| GenerateRoute.RejectedLeavesCache | src/app/api/generate/route.ts:299-311 | a non-JSON body gives the JSON error and a schema failure gives its issues, and neither touches the cache |
| GenerateRoute.RouteState.constructor | src/app/api/generate/route.ts:248-255 | a route starts with an empty rate bucket and an empty cache |
| GenerateRoute.RouteState.CheckRateLimit | src/app/api/generate/route.ts:267-285 | updates the bucket in place as the rate-limit step says, keeps the count bound and leaves the cache alone |
| GenerateRoute.RouteState.Post | src/app/api/generate/route.ts:287-356 | rate limiting first: a denial answers 429 with the rounded-up seconds and leaves the cache; otherwise the answer and the new cache are those of validation, lookup, generation and store |
| GenerateRoute.RepeatedRequestIsCached | src/app/api/generate/route.ts:287-347 | on a fresh route, a second identical request within the hour gets the first one's payload, marked as cached |
| AnalyzeRoute.IsArxivUrl | src/app/api/research/analyze/route.ts:8-10 | `isArxivUrl`; stated by `AnalyzeRoute.ArxivUrlIff` |
| AnalyzeRoute.ArxivUrlIff | src/app/api/research/analyze/route.ts:8-10 | the arXiv test ignores ASCII case and holds iff "arxiv.org/abs/" or "arxiv.org/pdf/" occurs in the lower-cased url |
| AnalyzeRoute.StripFences | src/app/api/research/analyze/route.ts:69 | the fence removal; stated by `StripRemovesFences`, `StripWithoutFence`, `StripJsonFenced` and `StripPlainFenced` |
| AnalyzeRoute.StripRemovesFences | src/app/api/research/analyze/route.ts:69 | after the global replacement no "```" remains, even where removals bring backticks together |
| AnalyzeRoute.StripWithoutFence | src/app/api/research/analyze/route.ts:69 | a text without a fence is left unchanged |
| AnalyzeRoute.StripClosingFence | src/app/api/research/analyze/route.ts:69 | a fence-free text that does not end in a backtick, followed by "```", loses only that closing fence |
| AnalyzeRoute.StripJsonFenced | src/app/api/research/analyze/route.ts:69 | a body wrapped as "```json" … "```" is unwrapped to exactly the body |
| AnalyzeRoute.StripPlainFenced | src/app/api/research/analyze/route.ts:69 | a body wrapped in plain fences is unwrapped too, unless the body itself starts with "json" |
| AnalyzeRoute.CallOpenRouter | src/app/api/research/analyze/route.ts:25-72 | an HTTP failure raises "OpenRouter error: status statusText - text"; missing or empty content raises "No content from OpenRouter"; content that parses gives that value; otherwise the stripped, trimmed content's parse if it succeeds; two failed parses throw; success only ever comes from one of the two parses |
| AnalyzeRoute.FencedReplyRecovered | src/app/api/research/analyze/route.ts:66-71 | a reply fenced as "```json" is recovered by the retry |
| AnalyzeRoute.CheckUpload | src/app/api/research/analyze/route.ts:124-147 | the multipart checks; stated by `AnalyzeRoute.UploadChecksInOrder` |
| AnalyzeRoute.UploadChecksInOrder | src/app/api/research/analyze/route.ts:124-143 | no file or an empty file, then missing credentials, then a non-PDF, then more than 20 MiB; accepted iff a PDF of size in (0, 20 MiB] with both credentials |
| AnalyzeRoute.CheckJsonBody | src/app/api/research/analyze/route.ts:149-167 | the JSON-body checks; stated by `AnalyzeRoute.JsonChecksInOrder` |
| AnalyzeRoute.JsonChecksInOrder | src/app/api/research/analyze/route.ts:149-166 | missing credentials are reported before a missing url; accepted iff both credentials and a truthy url; the link is the url |
| AnalyzeRoute.CheckRequest | src/app/api/research/analyze/route.ts:121-167 | the content-type dispatch; stated by `AnalyzeRoute.RejectedBeforeModel` and `ResearchPage.JsonRequestChecksBody` |
| AnalyzeRoute.RejectedBeforeModel | src/app/api/research/analyze/route.ts:115-167 | a request refused by the checks gets that refusal, whatever the provider would answer |
| AnalyzeRoute.Analyze | src/app/api/research/analyze/route.ts:115-210 | the route's `POST`; stated by `AcceptedRequestAnalysed`, `RejectedBeforeModel`, `JsonLinkIsUrl` and `UploadEmptyUrlFallsBack` |
| AnalyzeRoute.AcceptedRequestAnalysed | src/app/api/research/analyze/route.ts:169-209 | an accepted request gets the model's answer merged over the shape, or a 500 carrying what the call threw; a reply whose content parses directly is analysed as that value |
| AnalyzeRoute.MergeShape | src/app/api/research/analyze/route.ts:176-204 | the merge over the shape; stated by `MergeHasShape`, `MergeTopLevel`, `MergeLink` and `MergeConforming` |
| AnalyzeRoute.MergeHasShape | src/app/api/research/analyze/route.ts:176-204 | the response has every shape key and every metadata key, whatever the model returned |
| AnalyzeRoute.MergeTopLevel | src/app/api/research/analyze/route.ts:196-198 | outside `metadata`, the model's value wins unchecked where present; a shape key the answer lacks gets the default, for arrays (spread by index) and strings alike |
| AnalyzeRoute.MergeLink | src/app/api/research/analyze/route.ts:196-204 | the link is the request's link if any, else the model's non-null link, else "" |
| AnalyzeRoute.MergeConforming | src/app/api/research/analyze/route.ts:196-204 | a conforming answer comes back unchanged except for its link |
| AnalyzeRoute.JsonLinkIsUrl | src/app/api/research/analyze/route.ts:149-202 | for a JSON request, the answer's link is the submitted url |
| AnalyzeRoute.UploadEmptyUrlFallsBack | src/app/api/research/analyze/route.ts:130-202 | an upload without a url takes the model's link, or "" |
| SmartUrlInput.Filter | src/components/SmartUrlInput.tsx:52 | filtering keeps exactly the elements other than the value |
| SmartUrlInput.FilterCount | src/components/SmartUrlInput.tsx:52 | filtering removes exactly the copies of the value |
| SmartUrlInput.UpdateRecent | src/components/SmartUrlInput.tsx:52 | the recent-list update; stated by `UpdateRecentShape` and `UpdateRecentIdempotent` |
| SmartUrlInput.UpdateRecentShape | src/components/SmartUrlInput.tsx:52 | the new list has the value first and exactly once, at most five entries, and after it the other urls in their old order |
| SmartUrlInput.UpdateRecentIdempotent | src/components/SmartUrlInput.tsx:52 | entering the same url twice has the effect of entering it once |
| SmartUrlInput.SaveRecent | src/components/SmartUrlInput.tsx:50-56 | the list changes iff the value is non-empty and valid, and then to the update |
| SmartUrlInput.LoadRecent | src/components/SmartUrlInput.tsx:38-47 | an absent or empty stored value keeps the list; a stored array loads its prefix of `min(3, length)` entries; a stored string loads its prefix of `min(3, length)` characters; text that does not parse, or a value that is neither an array nor a string (no `slice`, so the call throws and is caught), keeps the list |
| SmartUrlInput.FindSource | src/components/SmartUrlInput.tsx:97 | the first source whose pattern occurs in the url, or none when no pattern occurs |
| SmartUrlInput.GetSourceInfo | src/components/SmartUrlInput.tsx:96-99 | a listed source exactly when some pattern occurs, the first such; otherwise the generic article badge |
| SmartUrlInput.LooksLikeUrl | src/components/SmartUrlInput.tsx:63 | the paste regex; stated by `SmartUrlInput.HandlePaste` |
| SmartUrlInput.HandlePaste | src/components/SmartUrlInput.tsx:59-65 | a paste is taken over iff it looks like an http(s) url, and the field gets its trimmed text |
| SmartUrlInput.PastedValueKeepsScheme | src/components/SmartUrlInput.tsx:63-65 | the trimmed value keeps the pasted url's scheme |
| ResearchPage.LooksPdfIff | src/app/research/page.tsx:69 | the PDF test holds iff ".pdf" occurs in the lower-cased url followed by "?" or the end |
| ResearchPage.LooksPdfExamples | src/app/research/page.tsx:69 | "x.PDF?dl=1" and "x.pdf" look like PDFs; "x.pdf#frag" does not |
| ResearchPage.IsValidUrl | src/app/research/page.tsx:64-75 | `isValidUrl`; stated by `ResearchPage.IsValidUrlIff` |
| ResearchPage.IsValidUrlIff | src/app/research/page.tsx:64-75 | a url passes iff it is filled in, has an http(s) protocol, and its lower-cased text has ".pdf" before "?" or the end, or names an arXiv abstract or PDF page |
| ResearchPage.OnAnalyze | src/app/research/page.tsx:93-132 | `onAnalyze` up to its request; stated by `OnAnalyzeChecksInOrder` and `EnabledButtonSends` |
| ResearchPage.OnAnalyzeChecksInOrder | src/app/research/page.tsx:93-132 | missing credentials first, then an invalid url on the url tab or no file on the upload tab; otherwise a JSON post or a form post |
| ResearchPage.EnabledButtonSends | src/app/research/page.tsx:97-132 | when the button is enabled (its condition at line 271), pressing it shows an error iff a credential is missing |
| ResearchPage.UrlSubmissionAccepted | src/app/research/page.tsx:113-117 | a url submission passes both middleware guards and the endpoint's JSON checks, with its url as the link |
| ResearchPage.JsonRequestChecksBody | src/app/api/research/analyze/route.ts:124-167 | a JSON request is checked as a JSON body |
| ResearchPage.JsonBodyAccepted | src/app/research/page.tsx:116 | a body with a url and both credentials non-empty is accepted, with the url as its link |
| ResearchPage.UploadForm | src/app/research/page.tsx:124-131 | the uploaded form; stated by `ResearchPage.UploadSubmission` |
| ResearchPage.UploadSubmission | src/app/research/page.tsx:124-132 | an upload is refused by the middleware as written and let through by the intended guard; the endpoint accepts it iff a PDF of size in (0, 20 MiB]; the link is the url, or none for an empty url |
| ResearchPage.FailureMessage | src/app/research/page.tsx:135-145 | the shown message is never empty: the body's string `error` if truthy, else "Request failed (status)" |
| ResearchPage.RefusedUploadMessage | src/app/research/page.tsx:135-138 | a middleware refusal is shown as its "Content-Type must be application/json" message |
| ResearchPage.PushBullets | src/app/research/page.tsx:167-177 | the loop appends exactly the bullet lines of the items |
| ResearchPage.ExportMarkdown | src/app/research/page.tsx:151-181 | the exported text is the specified line list joined with newlines |
| ResearchPage.MarkdownLines | src/app/research/page.tsx:151-180 | the export's lines; stated by `MarkdownLayout`, `MarkdownBullets` and `MarkdownLinesOneLine` |
| ResearchPage.MarkdownLayout | src/app/research/page.tsx:153-180 | 24 fixed lines plus one per bullet, each heading and field line at its fixed index |
| ResearchPage.MarkdownBullets | src/app/research/page.tsx:167-177 | each list section's items appear in order as "- " lines directly after its heading |
| ResearchPage.MarkdownLinesOneLine | src/app/research/page.tsx:153-180 | when no field holds a newline, no line does |
| ResearchPage.ExportedLinesRecoverable | src/app/research/page.tsx:181 | when no field holds a newline, splitting the exported text on newlines gives back the lines |
| HomePage.ButtonAndHint | src/app/page.tsx:37-49 | with the hint of line 154 and the button of line 240: an empty url disables Generate without a hint; a hinted url disables it; not loading, it is disabled exactly for these two |
| HomePage.RequestBodyAsWritten | src/app/page.tsx:72-80 | the body as posted; stated by `AsWrittenRejectsMissingCredential` and `AsWrittenAgreesWhenStored` |
| HomePage.AsWrittenRejectsMissingCredential | src/app/page.tsx:72-80 | with a key or a model not stored, the body as written fails the schema with a type issue on that credential, and the route answers invalid request |
| HomePage.AsWrittenAgreesWhenStored | src/app/page.tsx:72-80 | with both credentials stored, the written body equals the intended one |
| HomePage.RequestBody | src/app/page.tsx:72-80 | the corrected body; stated by `HomePage.RequestBodyValidates` |
| HomePage.RequestBodyValidates | src/app/page.tsx:72-80 | the intended body is accepted iff the url parses and is at most 2048 long, and then reads back as the form's choices and the stored credentials |
| HomePage.FailureMessage | src/app/page.tsx:82-85 | the error text is the response text, or "Request failed" when that is empty |
| HomePage.TweetBandOf | src/app/page.tsx:308-311 | a tweet's colour; stated by `HomePage.TweetBands` |
| HomePage.TweetBands | src/app/page.tsx:308-311 | red iff over 280, amber iff 260 to 280, green iff under 260; a longer tweet never has a better band |
| HomePage.LinkedinBandOf | src/app/page.tsx:379-384 | the post's colour; stated by `HomePage.LinkedinBands` |
| HomePage.LinkedinBands | src/app/page.tsx:379-384 | optimal iff 1300 to 1700, too long iff over 1700, too short iff under 1300 |
| HomePage.CopyText | src/app/page.tsx:304 | the copied text; stated by `HomePage.CopyTextLength` |
| HomePage.CopyTextLength | src/app/page.tsx:304 | the copied text is the tweets plus two characters between each neighbouring pair |
| HomePage.ModelLabelDropsFirstAnthropic | src/app/page.tsx:430 | the first "anthropic/", at any position, is cut out of the name; with no "openai/" left, that is the label |
| HomePage.ModelLabelDropsFirstOpenai | src/app/page.tsx:430 | in a name without "anthropic/", the first "openai/", at any position, is cut out |
| HomePage.ModelLabelKeeps | src/app/page.tsx:430 | a name without either vendor prefix is shown unchanged |
| HomePage.ModelLabelDropsVendor | src/app/page.tsx:430 | "anthropic/x" and "openai/x" are shown as x |
| Middleware.Matched | src/middleware.ts:25-27 | the path matcher; stated by `Middleware.ApiPathsMatched` and `Middleware.Handle` |
| Middleware.ApiPathsMatched | src/middleware.ts:25-27 | the matcher never excludes an API path |
| Middleware.MultipartHeaderIsMultipart | src/middleware.ts:11 | a browser's FormData content type names the multipart type |
| Middleware.MultipartHeaderNotJson | src/middleware.ts:11 | a multipart content type mentions "application/json" only if its boundary does |
| Middleware.RejectsAsWritten | src/middleware.ts:9-13 | the guard as written; stated by `MultipartUploadRefused` and `RejectsNarrowsAsWritten` |
| Middleware.MultipartUploadRefused | src/middleware.ts:9-13 | a multipart POST to an API path is refused by the guard as written and passes the intended guard |
| Middleware.JsonTypeNotMultipart | src/middleware.ts:11 | the JSON type does not mention the multipart type |
| Middleware.JsonRequestPasses | src/middleware.ts:10-11 | a JSON content type, with any parameters, passes both guards |
| Middleware.MissingContentTypeRefused | src/middleware.ts:10-13 | a guarded request without a content type is refused |
| Middleware.Rejects | src/middleware.ts:9-13 | the corrected guard; stated by `RejectsNarrowsAsWritten` and `Middleware.Handle` |
| Middleware.RejectsNarrowsAsWritten | src/middleware.ts:9-13 | the intended guard refuses a subset: exactly the non-JSON multipart requests are let through in addition |
| Middleware.ResponseHeaders.constructor | src/middleware.ts:16 | a new header set is empty |
| Middleware.ResponseHeaders.Set | src/middleware.ts:19-20 | setting replaces the value under the lower-cased name and changes nothing else |
| Middleware.Handle | src/middleware.ts:7-27 | excluded paths are not handled; a refusal is 415 with its message, exactly for matched requests the guard rejects; every other response carries exactly the two security headers, and a multipart request on a matched path is let through |
| Middleware.SecurityHeaders | src/middleware.ts:16-20 | the two `set` calls on a fresh response leave exactly "x-content-type-options: nosniff" and "referrer-policy: strict-origin-when-cross-origin", the names lower-cased |
| Strings.Find | src/middleware.ts:11 | the first index at which the pattern occurs, or none when it occurs nowhere |
| Strings.ContainsIff | src/middleware.ts:11 | `includes` holds iff the pattern occurs at some index |
| Strings.Trim | src/components/SmartUrlInput.tsx:65 | the result is the input between a run of leading and a run of trailing whitespace, and neither starts nor ends with whitespace |
| Strings.TrimIdempotent | src/components/SmartUrlInput.tsx:65 | trimming twice is trimming once |
| Strings.LowerAsciiNoCapitals | src/app/research/page.tsx:69-70 | lower-casing leaves no ASCII capital: each becomes its small letter and every other character is kept |
| Strings.LowerAsciiIdempotent | src/app/research/page.tsx:69-70 | lower-casing twice is lower-casing once |
| Strings.SplitJoin | src/app/research/page.tsx:181 | splitting a newline join gives back parts that hold no newline |
| Strings.JoinSplit | src/app/research/page.tsx:181 | joining a split gives back the text |
| Strings.JoinLength | src/app/page.tsx:304 | a join adds one separator between each neighbouring pair |
| Strings.ReplaceFirstAt | src/app/page.tsx:430 | a string replacement replaces the first occurrence of the pattern, wherever it lies, and keeps the text around it |
| Strings.ReplaceLeading | src/app/page.tsx:430 | a string starting with the pattern has exactly that occurrence replaced |
| Strings.NatToString | src/app/api/generate/route.ts:98 | a number is rendered as a non-empty string of decimal digits |
| Strings.DecimalValueOfNatToString | src/app/api/generate/route.ts:98 | the rendering reads back as the number |

## Left out

- Network calls: the page fetch, both providers' HTTP requests and the analysis endpoint's upload encoding appear only as outcomes given to the model; base64 encoding of the PDF is not modelled.
- The HTML reader (cheerio) is not modelled. `GenerateRoute.ExtractFromHtml` takes what it finds on the page as a `PageFacts` parameter.
- Prompt texts (`buildPrompt`, `buildUrlPrompt`, `buildUploadPrompt`) are not modelled beyond the 1200-character excerpt, because they only feed the model.
- `JSON.parse`, `JSON.stringify`, `new URL`, `Date.now`, the form parser and `localStorage` are parameters. The cache key takes the JSON of url and options as an injective encoding of those four values.
- GenerateRoute.RouteState.Post: both clock reads of a request take the same `now`. Concurrent requests, and the maps being dropped between serverless invocations, are not modelled.
- Floating-point widths of the length bars, React state, announcements to screen readers, the success toast and the file download are presentation only and not modelled.
- String lengths count Dafny characters (code points); JavaScript counts UTF-16 code units, so tweets with characters outside the Basic Multilingual Plane have different lengths.
- `toLowerCase` and the `/i` flag are modelled on ASCII letters only.
- The research page's JSON export (`onExportJSON`) is not modelled; it only serialises the result.
- ResearchPage.ExportMarkdown: takes the analysis with string and string-list fields; a model answer with other JSON types in those fields (which the endpoint passes through) is not rendered.
- ResearchPage.FailureMessage: a truthy `error` value that is not a string is not modelled; the model reads a non-string `error` as absent.
- AnalyzeRoute.CallOpenRouter: content that is a non-string truthy value is taken as absent rather than converted with `String(...)`.
- GenerateRoute.CallLLM: reply content that is a non-string truthy value is taken as absent rather than returned as that value (src/app/api/generate/route.ts:101-102, 127-128).
- SmartUrlInput.SaveRecent: after a stored JSON string was loaded (`SmartUrlInput.LoadRecent` gives `SetRecentText`), the list is a string and the next save throws at `recentUrls.filter` (src/components/SmartUrlInput.tsx:52); `SaveRecent` takes the list as a sequence and does not model that throw.
- `fetchArrayBuffer` and `bufferFromArrayBuffer` in the analysis endpoint are never called, so they are not modelled. `isArxivUrl` is never called by its route either; it is modelled because the research page uses the same test.
- An unparsable model answer gets no default analysis: `callOpenRouter` throws and the route answers 500 (src/app/api/research/analyze/route.ts:69-70, 207-209); `AnalyzeRoute.AcceptedRequestAnalysed` states it.
- The home page's `err.message ?? 'Unexpected error'` is not modelled separately from `HomePage.FailureMessage`, because every error it catches carries a message.
- Middleware.Handle: models the intended guard; the guard as written is `Middleware.RejectsAsWritten`, and the difference is stated by `Middleware.RejectsNarrowsAsWritten`.

## Findings

| source | as written | input that shows it | evidently intended | confidence | as-written member | corrected member |
|---|---|---|---|---|---|---|
| src/middleware.ts:9-13 | every POST to an `/api/` path whose content type does not mention "application/json" is refused with 415 | the research page's upload: POST /api/research/analyze with `multipart/form-data; boundary=X` (src/app/research/page.tsx:124-132), which the analysis endpoint accepts at src/app/api/research/analyze/route.ts:124 | multipart uploads to the analysis endpoint pass the guard | high, not executed | Middleware.MultipartUploadRefused | Middleware.Handle |
| src/app/page.tsx:72-80 | a credential missing from `localStorage` is sent as `null` | a visitor with no stored key: body `{..., "openrouterApiKey": null}`, which the schema's `z.string().optional()` (src/lib/validators.ts:23) rejects with 400 | a missing credential is left out of the body, so the route falls back to its own configuration | high, not executed | HomePage.AsWrittenRejectsMissingCredential | HomePage.RequestBodyValidates |

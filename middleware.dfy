/**
 * The request middleware: it runs on every path except Next.js's static
 * assets and the favicon, refuses a POST to an API path whose content type
 * is not acceptable with status 415, and adds two security headers to every
 * response it lets through.
 */
module Middleware {
  import opened Wrappers
  import opened Strings

  const JSON_TYPE: string := "application/json"
  const MULTIPART_TYPE: string := "multipart/form-data"
  const UNSUPPORTED_MEDIA_TYPE: nat := 415
  const UNSUPPORTED_MESSAGE: string := "Content-Type must be application/json"

  /** The parts of a request the middleware reads. */
  datatype Request = Request(verb: string, pathname: string, contentType: Option<string>)

  /** `req.headers.get('content-type') || ''`. */
  function ContentTypeOf(req: Request): string {
    req.contentType.GetOr("")
  }

  /** The request reaches the content-type guard: a POST whose path starts with "/api/". */
  predicate Guarded(req: Request) {
    "/api/" <= req.pathname && req.verb == "POST"
  }

  /** The guard as written: only a content type mentioning "application/json" passes. */
  predicate RejectsAsWritten(req: Request) {
    Guarded(req) && !Contains(ContentTypeOf(req), JSON_TYPE)
  }

  /** The guard as intended: multipart uploads, which an API route accepts, pass as well. */
  predicate Rejects(req: Request) {
    Guarded(req) && !Contains(ContentTypeOf(req), JSON_TYPE) && !Contains(ContentTypeOf(req), MULTIPART_TYPE)
  }

  // ---------------------------------------------------------------------------
  // The matcher

  /** `favicon.ico` as a pattern, where the dot stands for any character but a line terminator. */
  predicate FaviconAt(s: string) {
    && |s| >= 11 && s[..7] == "favicon" && s[8..11] == "ico"
    && s[7] != '\n' && s[7] != '\r' && s[7] != '\U{2028}' && s[7] != '\U{2029}'
  }

  /** `/((?!_next/static|_next/image|favicon.ico).*)`: every path but the excluded prefixes. */
  predicate Matched(pathname: string) {
    && |pathname| >= 1 && pathname[0] == '/'
    && !("_next/static" <= pathname[1..])
    && !("_next/image" <= pathname[1..])
    && !FaviconAt(pathname[1..])
  }

  /** API paths are never excluded, so the guard always runs on them. */
  lemma ApiPathsMatched(pathname: string)
    requires "/api/" <= pathname
    ensures Matched(pathname)
  {
    assert pathname[1] == 'a';
    assert pathname[1..][0] == 'a';
  }

  // ---------------------------------------------------------------------------
  // The content-type guard on a multipart upload

  /** The content type a browser sends with a `FormData` body. */
  function MultipartHeader(boundary: string): string {
    MULTIPART_TYPE + "; boundary=" + boundary
  }

  const MULTIPART_PREFIX: string := MULTIPART_TYPE + "; boundary="

  lemma NoCInMultipartPrefix() ensures 'c' !in MULTIPART_PREFIX {}

  lemma NoEqualsInJsonType() ensures '=' !in JSON_TYPE {}

  /** A multipart header names the multipart type, at its very start. */
  lemma MultipartHeaderIsMultipart(boundary: string)
    ensures Contains(MultipartHeader(boundary), MULTIPART_TYPE)
  {
    var ct := MultipartHeader(boundary);
    assert ct[..|MULTIPART_TYPE|] == MULTIPART_TYPE;
  }

  /**
   * A multipart header mentions "application/json" only when its boundary
   * does: an occurrence cannot lie inside the fixed prefix (which has no
   * 'c') nor straddle its end (the prefix ends with '=', which the type
   * does not contain).
   */
  lemma MultipartHeaderNotJson(boundary: string)
    requires !Contains(boundary, JSON_TYPE)
    ensures !Contains(MultipartHeader(boundary), JSON_TYPE)
  {
    var ct := MultipartHeader(boundary);
    var n := |MULTIPART_PREFIX|;
    assert ct == MULTIPART_PREFIX + boundary;
    ContainsIff(boundary, JSON_TYPE);
    forall j | 0 <= j && j + |JSON_TYPE| <= |ct|
      ensures !OccursAt(ct, JSON_TYPE, j)
    {
      if j >= n {
        assert ct[j..j + |JSON_TYPE|] == boundary[j - n..j - n + |JSON_TYPE|];
        assert !OccursAt(boundary, JSON_TYPE, j - n);
      } else if j + |JSON_TYPE| <= n {
        NoCInMultipartPrefix();
        assert ct[j + 5] == MULTIPART_PREFIX[j + 5];
        assert ct[j..j + |JSON_TYPE|][5] != JSON_TYPE[5];
      } else {
        NoEqualsInJsonType();
        assert ct[n - 1] == '=';
        assert ct[j..j + |JSON_TYPE|][n - 1 - j] != JSON_TYPE[n - 1 - j];
      }
    }
  }

  /**
   * A multipart upload to an API path is refused by the guard as written,
   * whatever its boundary (short of one spelling out "application/json"),
   * and let through by the intended guard.
   */
  lemma MultipartUploadRefused(pathname: string, boundary: string)
    requires "/api/" <= pathname
    requires !Contains(boundary, JSON_TYPE)
    ensures RejectsAsWritten(Request("POST", pathname, Some(MultipartHeader(boundary))))
    ensures !Rejects(Request("POST", pathname, Some(MultipartHeader(boundary))))
  {
    MultipartHeaderNotJson(boundary);
    MultipartHeaderIsMultipart(boundary);
  }

  /** The JSON type does not mention the multipart type, which is longer. */
  lemma JsonTypeNotMultipart()
    ensures !Contains(JSON_TYPE, MULTIPART_TYPE)
  {
    assert |MULTIPART_TYPE| > |JSON_TYPE|;
    var r := Find(JSON_TYPE, MULTIPART_TYPE);
    assert r.Some? ==> OccursAt(JSON_TYPE, MULTIPART_TYPE, r.value);
  }

  /**
   * The test is on a substring: a JSON type with parameters, such as
   * "application/json; charset=utf-8", passes both guards.
   */
  lemma JsonRequestPasses(pathname: string, verb: string, params: string)
    ensures !RejectsAsWritten(Request(verb, pathname, Some(JSON_TYPE + params)))
    ensures !Rejects(Request(verb, pathname, Some(JSON_TYPE + params)))
  {
    assert (JSON_TYPE + params)[..|JSON_TYPE|] == JSON_TYPE;
  }

  /** A guarded request without a content type counts as "" and is refused by both guards. */
  lemma MissingContentTypeRefused(pathname: string)
    requires "/api/" <= pathname
    ensures RejectsAsWritten(Request("POST", pathname, None))
    ensures Rejects(Request("POST", pathname, None))
  {
  }

  /** The intended guard refuses only what the written one refuses. */
  lemma RejectsNarrowsAsWritten(req: Request)
    ensures Rejects(req) ==> RejectsAsWritten(req)
    ensures (RejectsAsWritten(req) && !Rejects(req))
        <==> (Guarded(req) && !Contains(ContentTypeOf(req), JSON_TYPE) && Contains(ContentTypeOf(req), MULTIPART_TYPE))
  {
  }

  // ---------------------------------------------------------------------------
  // Responses

  /** Header names are case-insensitive: `Headers` keeps them lower-cased. */
  class ResponseHeaders {
    var entries: map<string, string>

    constructor ()
      ensures entries == map[]
    {
      entries := map[];
    }

    /** `headers.set(name, value)`: replaces any value under the same name. */
    method Set(name: string, value: string)
      modifies this
      ensures entries == old(entries)[LowerAscii(name) := value]
    {
      entries := entries[LowerAscii(name) := value];
    }
  }

  const SECURITY_HEADERS: map<string, string> := map[
    "x-content-type-options" := "nosniff",
    "referrer-policy" := "strict-origin-when-cross-origin"
  ]

  datatype Response =
    | NotMatched
    | Refused(status: nat, error: string)
    | Passed(headers: map<string, string>)

  /**
   * The middleware on one request, with the intended guard: an excluded
   * path is not seen at all; a refused request gets 415 and its message;
   * every other response carries exactly the two security headers. A
   * multipart upload, which an API route accepts, is let through.
   */
  method Handle(req: Request) returns (r: Response)
    ensures !Matched(req.pathname) <==> r.NotMatched?
    ensures r.Refused? <==> Matched(req.pathname) && Rejects(req)
    ensures r.Refused? ==> r == Refused(UNSUPPORTED_MEDIA_TYPE, UNSUPPORTED_MESSAGE)
    ensures r.Passed? ==> r.headers == SECURITY_HEADERS
    ensures Matched(req.pathname) && Contains(ContentTypeOf(req), MULTIPART_TYPE) ==> r.Passed?
  {
    if !Matched(req.pathname) {
      return NotMatched;
    }
    if Rejects(req) {
      return Refused(UNSUPPORTED_MEDIA_TYPE, UNSUPPORTED_MESSAGE);
    }
    var headers := SecurityHeaders();
    return Passed(headers);
  }

  /** The two `headers.set` calls on a fresh response. */
  method SecurityHeaders() returns (entries: map<string, string>)
    ensures entries == SECURITY_HEADERS
  {
    var headers := new ResponseHeaders();
    headers.Set("X-Content-Type-Options", "nosniff");
    headers.Set("Referrer-Policy", "strict-origin-when-cross-origin");
    ContentTypeOptionsName();
    ReferrerPolicyName();
    return headers.entries;
  }

  lemma ContentTypeOptionsName()
    ensures LowerAscii("X-Content-Type-Options") == "x-content-type-options"
  {
  }

  lemma ReferrerPolicyName()
    ensures LowerAscii("Referrer-Policy") == "referrer-policy"
  {
  }
}

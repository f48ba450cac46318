/**
 * The url field of the home page: the list of recently used urls (loaded
 * from browser storage, updated whenever a valid url is entered), the
 * recognised article sources, and the paste handler that takes over when
 * the pasted text is a url. Storage, React state and the DOM are not
 * modelled; each handler is a function from what it reads to what it sets.
 */
module SmartUrlInput {
  import opened Wrappers
  import opened Strings
  import opened JsonValue

  // ---------------------------------------------------------------------------
  // Recent urls

  const MAX_RECENT: nat := 5
  const MAX_LOADED: nat := 3

  /** `s.filter(x => x !== v)`. */
  function Filter<T(==, !new)>(s: seq<T>, v: T): (r: seq<T>)
    ensures |r| <= |s|
    ensures forall x :: x in r <==> x in s && x != v
  {
    if |s| == 0 then []
    else (if s[0] != v then [s[0]] else []) + Filter(s[1..], v)
  }

  /** Filtering out a value that is not there changes nothing. */
  lemma {:induction false} FilterAbsent<T(!new)>(s: seq<T>, v: T)
    requires v !in s
    ensures Filter(s, v) == s
  {
    if |s| > 0 {
      FilterAbsent(s[1..], v);
      assert s == [s[0]] + s[1..];
    }
  }

  /** Keeping the elements other than `v` of a list that starts with `v`. */
  lemma FilterSkipsHead<T(!new)>(v: T, s: seq<T>)
    ensures Filter([v] + s, v) == Filter(s, v)
  {
    assert ([v] + s)[1..] == s;
  }

  function Min(a: int, b: int): int {
    if a <= b then a else b
  }

  /** `[value, ...recent.filter(u => u !== value)].slice(0, 5)`. */
  function UpdateRecent<T(==, !new)>(recent: seq<T>, value: T): seq<T> {
    var all := [value] + Filter(recent, value);
    all[..Min(MAX_RECENT, |all|)]
  }

  /**
   * The update puts `value` first and exactly once, keeps at most five
   * entries, and the rest are the other urls, in their old order, from the front.
   */
  lemma UpdateRecentShape<T(!new)>(recent: seq<T>, value: T)
    ensures var r := UpdateRecent(recent, value);
      && |r| >= 1 && r[0] == value
      && multiset(r)[value] == 1
      && |r| <= MAX_RECENT
      && r[1..] <= Filter(recent, value)
      && |r| == Min(MAX_RECENT, |recent| - multiset(recent)[value] + 1)
  {
    var f := Filter(recent, value);
    var r := UpdateRecent(recent, value);
    assert r == [value] + f[..|r| - 1];
    assert value !in f;
    assert forall x :: x in f[..|r| - 1] ==> x in f;
    assert value !in f[..|r| - 1];
    assert multiset(r) == multiset{value} + multiset(f[..|r| - 1]);
    FilterCount(recent, value);
  }

  /** Filtering removes exactly the copies of `v`. */
  lemma {:induction false} FilterCount<T(!new)>(s: seq<T>, v: T)
    ensures |Filter(s, v)| == |s| - multiset(s)[v]
  {
    if |s| > 0 {
      FilterCount(s[1..], v);
      assert s == [s[0]] + s[1..];
      assert multiset(s) == multiset{s[0]} + multiset(s[1..]);
    }
  }

  /** Entering the same url twice has the effect of entering it once. */
  lemma UpdateRecentIdempotent<T(!new)>(recent: seq<T>, value: T)
    ensures UpdateRecent(UpdateRecent(recent, value), value) == UpdateRecent(recent, value)
  {
    var f := Filter(recent, value);
    var once := UpdateRecent(recent, value);
    var tail := once[1..];
    assert once == [value] + tail;
    assert tail <= f;
    assert value !in f;
    assert forall x :: x in tail ==> x in f;
    assert value !in tail;
    FilterSkipsHead(value, tail);
    FilterAbsent(tail, value);
  }

  /** `if (value && isValid)`: the new list, or None when the list is left as it is. */
  function SaveRecent(recent: seq<Json>, value: string, isValid: bool): (r: Option<seq<Json>>)
    ensures r.Some? <==> value != "" && isValid
    ensures r.Some? ==> r.value == UpdateRecent(recent, JStr(value))
  {
    if value != "" && isValid then Some(UpdateRecent(recent, JStr(value))) else None
  }

  /** What loading from storage sets the list to. */
  datatype RecentLoad =
    | KeepRecent
    | SetRecentList(items: seq<Json>)
    | SetRecentText(text: string)

  /**
   * Loading: an absent or empty stored value, text that does not parse, or a
   * value without a `slice` method (which throws, and is caught) keeps the
   * list; an array keeps its first three entries; a string is sliced too.
   */
  function LoadRecent(stored: Option<string>, parse: string -> Option<Json>): (r: RecentLoad)
    ensures r.SetRecentList? ==> |r.items| <= MAX_LOADED
    ensures (stored.None? || stored.value == "") ==> r == KeepRecent
    ensures stored.Some? && stored.value != "" && parse(stored.value).Some? && parse(stored.value).value.JArr?
      ==> r.SetRecentList? && r.items <= parse(stored.value).value.items
          && |r.items| == Min(MAX_LOADED, |parse(stored.value).value.items|)
    ensures stored.Some? && stored.value != "" && parse(stored.value).Some? && parse(stored.value).value.JStr?
      ==> r.SetRecentText? && r.text <= parse(stored.value).value.s
          && |r.text| == Min(MAX_LOADED, |parse(stored.value).value.s|)
    ensures stored.Some? && stored.value != ""
            && (parse(stored.value).None? || !(parse(stored.value).value.JArr? || parse(stored.value).value.JStr?))
      ==> r == KeepRecent
  {
    if stored.None? || stored.value == "" then KeepRecent
    else
      match parse(stored.value)
      case None => KeepRecent
      case Some(JArr(items)) => SetRecentList(items[..Min(MAX_LOADED, |items|)])
      case Some(JStr(s)) => SetRecentText(s[..Min(MAX_LOADED, |s|)])
      case Some(_) => KeepRecent
  }

  // ---------------------------------------------------------------------------
  // Article sources

  datatype SourceInfo = SourceInfo(name: string, pattern: string, icon: string)

  const POPULAR_SOURCES: seq<SourceInfo> := [
    SourceInfo("Medium", "medium.com", "\U{1F4DD}"),
    SourceInfo("Dev.to", "dev.to", "\U{1F468}\U{200D}\U{1F4BB}"),
    SourceInfo("TechCrunch", "techcrunch.com", "\U{1F680}"),
    SourceInfo("Harvard Business Review", "hbr.org", "\U{1F4CA}"),
    SourceInfo("Substack", "substack.com", "\U{1F4F0}"),
    SourceInfo("GitHub Blog", "github.blog", "\U{1F419}")
  ]

  /** The name and icon shown for a url no listed source matches. */
  const ARTICLE: SourceInfo := SourceInfo("Article", "", "\U{1F4C4}")

  /** `sources.find(s => url.includes(s.pattern))`. */
  function FindSource(sources: seq<SourceInfo>, url: string): (r: Option<nat>)
    ensures r.Some? ==> r.value < |sources| && Contains(url, sources[r.value].pattern)
    ensures r.Some? ==> forall j :: 0 <= j < r.value ==> !Contains(url, sources[j].pattern)
    ensures r.None? ==> forall j :: 0 <= j < |sources| ==> !Contains(url, sources[j].pattern)
  {
    if |sources| == 0 then None
    else if Contains(url, sources[0].pattern) then Some(0)
    else
      match FindSource(sources[1..], url)
      case None => None
      case Some(i) => Some(i + 1)
  }

  /** `getSourceInfo`: the first listed source whose pattern occurs in the url, else the generic article. */
  function GetSourceInfo(url: string): (r: SourceInfo)
    ensures r in POPULAR_SOURCES || r == ARTICLE
    ensures r == ARTICLE <==> forall j :: 0 <= j < |POPULAR_SOURCES| ==> !Contains(url, POPULAR_SOURCES[j].pattern)
    ensures r != ARTICLE ==>
      exists j :: 0 <= j < |POPULAR_SOURCES| && r == POPULAR_SOURCES[j] && Contains(url, r.pattern)
                  && (forall k :: 0 <= k < j ==> !Contains(url, POPULAR_SOURCES[k].pattern))
  {
    match FindSource(POPULAR_SOURCES, url)
    case None => ARTICLE
    case Some(i) => POPULAR_SOURCES[i]
  }

  // ---------------------------------------------------------------------------
  // Paste

  /** The characters `.` does not match in a regular expression. */
  predicate IsLineTerminator(c: char) {
    c == '\n' || c == '\r' || c == '\U{2028}' || c == '\U{2029}'
  }

  /** `/^https?:\/\/.+/`: a scheme prefix followed by at least one character other than a line terminator. */
  predicate LooksLikeUrl(t: string) {
    || ("https://" <= t && |t| > 8 && !IsLineTerminator(t[8]))
    || ("http://" <= t && |t| > 7 && !IsLineTerminator(t[7]))
  }

  /** `handlePaste`: the trimmed text when it looks like a url (the default paste is then prevented). */
  function HandlePaste(pasted: string): (r: Option<string>)
    ensures r.Some? <==> LooksLikeUrl(pasted)
    ensures r.Some? ==> r.value == Trim(pasted)
  {
    if LooksLikeUrl(pasted) then Some(Trim(pasted)) else None
  }

  /** The value a paste sets still starts with the scheme of the pasted url. */
  lemma PastedValueKeepsScheme(pasted: string)
    requires LooksLikeUrl(pasted)
    ensures var v := HandlePaste(pasted).value;
      ("https://" <= pasted ==> "https://" <= v) && ("http://" <= pasted ==> "http://" <= v)
  {
    var n := if "https://" <= pasted then 8 else 7;
    assert pasted[..n] == (if n == 8 then "https://" else "http://");
    assert pasted[0] == 'h' && pasted[n - 1] == '/';
    TrimKeepsPrefix(pasted, n);
  }
}

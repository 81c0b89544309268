// URL and text helpers shared by the pipeline stages (mana_common/shared.py).
// Network calls (HTTP redirects, feed discovery), regular-expression search
// and fuzzy substring search are parameters of the functions that use them.
module Shared {
  import opened Wrappers
  import opened PyStrings

  const COMPANY_LEN_LIMIT_FOR_EXACT_MATCH: nat := 10
  const MIN_LENGTH_FOR_HTML_AND_PDF_PARAGRAPHS: nat := 50
  const TRUNCATE_TEXT_LENGTH_FOR_HTML_AND_PDF_PARAGRAPHS: nat := 50000

  /** Python `s[0:n]`. */
  function Take<T>(s: seq<T>, n: nat): (r: seq<T>)
    ensures |r| == if |s| <= n then |s| else n
    ensures r == s[..|r|]
  {
    if |s| <= n then s else s[..n]
  }

  /** Python `any(ext in url for ext in exts)`. */
  predicate AnyOccurs(url: string, exts: seq<string>)
  {
    exists k :: 0 <= k < |exts| && Contains(url, exts[k])
  }

  function CountChar(s: string, c: char): nat
  {
    if s == [] then 0 else (if s[0] == c then 1 else 0) + CountChar(s[1..], c)
  }

  /* ---- get_base_url ---- */

  /** How many '/'-pieces `get_base_url` keeps. */
  function BasePieces(url: string, domains: seq<string>): nat
  {
    if AnyOccurs(url, domains) then 4 else 3
  }

  /**
   * The site part of a URL: its first three '/'-pieces ("https:", "", host),
   * or four when one of `domains` occurs in it. A missing URL raises inside the
   * `try` and comes back unchanged, i.e. as None.
   */
  function GetBaseUrl(url: Option<string>, domains: seq<string>): (r: Option<string>)
    ensures url.None? <==> r.None?
  {
    match url
    case None => None
    case Some(u) => Some(Join(Take(Split(u, "/"), BasePieces(u, domains)), "/"))
  }

  /** `r` is `s` cut just before its k-th occurrence of `c`, or all of `s` when there are fewer. */
  ghost predicate CutBefore(s: string, c: char, k: nat, r: string)
  {
    StartsWith(s, r)
    && (r == s || s[|r|] == c)
    && CountChar(r, c) == if CountChar(s, c) < k - 1 then CountChar(s, c) else k - 1
  }

  /**
   * Keeping the first k pieces of a split on a character is cutting the string
   * just before its k-th occurrence of that character, or keeping all of it.
   */
  lemma {:induction false} JoinTakeSplit(s: string, c: char, k: nat)
    requires k >= 1
    ensures CutBefore(s, c, k, Join(Take(Split(s, [c]), k), [c]))
    decreases |s|
  {
    var f := FindFirst(s, [c]);
    if f.None? {
      CutWithoutSeparator(s, c, k);
    } else if k == 1 {
      CutAtFirst(s, c, f.value);
    } else {
      var i := f.value;
      assert OccursAt(s, [c], i);
      JoinTakeSplit(s[i + 1..], c, k - 1);
      CutAtLater(s, c, k, i);
    }
  }

  /** `JoinTakeSplit` when the character does not occur. */
  lemma CutWithoutSeparator(s: string, c: char, k: nat)
    requires k >= 1 && FindFirst(s, [c]).None?
    ensures CutBefore(s, c, k, Join(Take(Split(s, [c]), k), [c]))
  {
    assert Split(s, [c]) == [s];
    NoOccurrenceNoChar(s, c);
    assert s[..|s|] == s;
  }

  /** `JoinTakeSplit` for one piece: the text before the first occurrence. */
  lemma CutAtFirst(s: string, c: char, i: nat)
    requires FindFirst(s, [c]) == Some(i)
    ensures CutBefore(s, c, 1, Join(Take(Split(s, [c]), 1), [c]))
  {
    SplitStep(s, [c], i);
    PrefixBeforeFirstHasNoChar(s, c, i);
    assert Take(Split(s, [c]), 1) == [s[..i]];
  }

  /** `JoinTakeSplit` for more pieces, from the property of the rest after the first occurrence. */
  lemma CutAtLater(s: string, c: char, k: nat, i: nat)
    requires k >= 2 && FindFirst(s, [c]) == Some(i) && i < |s|
    requires CutBefore(s[i + 1..], c, k - 1, Join(Take(Split(s[i + 1..], [c]), k - 1), [c]))
    ensures CutBefore(s, c, k, Join(Take(Split(s, [c]), k), [c]))
  {
    var rr := Join(Take(Split(s[i + 1..], [c]), k - 1), [c]);
    SplitStep(s, [c], i);
    PrefixBeforeFirstHasNoChar(s, c, i);
    CountSplitAt(s, c, i);
    JoinTakeSplitStep(s, c, k, i);
    CutExtends(s, c, k, i, rr);
  }

  /** One unfolding of `JoinTakeSplit`'s left-hand side at the first separator. */
  lemma JoinTakeSplitStep(s: string, c: char, k: nat, i: nat)
    requires k >= 2 && FindFirst(s, [c]) == Some(i)
    ensures i < |s|
    ensures Join(Take(Split(s, [c]), k), [c]) == s[..i] + [c] + Join(Take(Split(s[i + 1..], [c]), k - 1), [c])
  {
    SplitStep(s, [c], i);
    var tail := Split(s[i + 1..], [c]);
    TakeCons(s[..i], tail, k);
    JoinCons(s[..i], Take(tail, k - 1), [c]);
  }

  lemma TakeCons<T>(x: T, t: seq<T>, k: nat)
    requires k >= 1
    ensures Take([x] + t, k) == [x] + Take(t, k - 1)
  {
    if |t| + 1 > k {
      assert ([x] + t)[..k] == [x] + t[..k - 1];
    }
  }

  /** The cut property carries over from the rest after the first separator to the whole string. */
  lemma CutExtends(s: string, c: char, k: nat, i: nat, rr: string)
    requires k >= 2 && i < |s| && s[i] == c && c !in s[..i]
    requires CountChar(s, c) == 1 + CountChar(s[i + 1..], c)
    requires CutBefore(s[i + 1..], c, k - 1, rr)
    ensures CutBefore(s, c, k, s[..i] + [c] + rr)
  {
    var rest := s[i + 1..];
    var r := s[..i] + [c] + rr;
    assert s == s[..i] + [c] + rest;
    assert r == s[..i + 1 + |rr|];
    NoCharCountZero(s[..i], c);
    CountConcat(s[..i] + [c], rr, c);
    CountConcat(s[..i], [c], c);
    if rr != rest {
      assert s[i + 1 + |rr|] == rest[|rr|];
    }
    CountStep(CountChar(r, c), CountChar(s, c), CountChar(rr, c), CountChar(rest, c), k);
  }

  /** The count clause of `CutBefore` one occurrence further along. */
  lemma CountStep(cr: int, cs: int, crr: int, crest: int, k: int)
    requires cr == 1 + crr && cs == 1 + crest
    requires crr == if crest < k - 2 then crest else k - 2
    ensures cr == if cs < k - 1 then cs else k - 1
  {
  }

  lemma {:induction false} CountConcat(a: string, b: string, c: char)
    ensures CountChar(a + b, c) == CountChar(a, c) + CountChar(b, c)
    decreases |a|
  {
    if a == [] {
      assert a + b == b;
    } else {
      assert (a + b)[0] == a[0];
      assert (a + b)[1..] == a[1..] + b;
      CountConcat(a[1..], b, c);
    }
  }

  lemma {:induction false} NoCharCountZero(s: string, c: char)
    requires c !in s
    ensures CountChar(s, c) == 0
    decreases |s|
  {
    if s != [] { NoCharCountZero(s[1..], c); }
  }

  lemma NoOccurrenceNoChar(s: string, c: char)
    requires FindFirst(s, [c]).None?
    ensures c !in s && CountChar(s, c) == 0
  {
    forall j | 0 <= j < |s| ensures s[j] != c {
      assert !OccursAt(s, [c], j);
      assert s[j..j + 1] == [s[j]];
    }
    NoCharCountZero(s, c);
  }

  lemma PrefixBeforeFirstHasNoChar(s: string, c: char, i: nat)
    requires FindFirst(s, [c]) == Some(i)
    ensures c !in s[..i] && CountChar(s[..i], c) == 0
  {
    forall j | 0 <= j < i ensures s[..i][j] != c {
      assert !OccursAt(s, [c], j);
      assert s[j..j + 1] == [s[j]];
    }
    NoCharCountZero(s[..i], c);
  }

  lemma CountSplitAt(s: string, c: char, i: nat)
    requires FindFirst(s, [c]) == Some(i)
    ensures CountChar(s, c) == 1 + CountChar(s[i + 1..], c)
  {
    SplitStep(s, [c], i);
    PrefixBeforeFirstHasNoChar(s, c, i);
    CountConcat(s[..i], [c] + s[i + 1..], c);
    CountConcat([c], s[i + 1..], c);
    assert s == s[..i] + ([c] + s[i + 1..]);
  }

  /**
   * `get_base_url` cuts the URL just before its third '/' (fourth when a
   * listed domain occurs in it), or keeps it whole when it has fewer.
   */
  lemma GetBaseUrlCutsAtSlash(url: string, domains: seq<string>)
    ensures var r := GetBaseUrl(Some(url), domains).value;
      var k := BasePieces(url, domains);
      StartsWith(url, r)
      && (r == url || url[|r|] == '/')
      && CountChar(r, '/') == if CountChar(url, '/') < k - 1 then CountChar(url, '/') else k - 1
  {
    JoinTakeSplit(url, '/', BasePieces(url, domains));
  }

  /* ---- get_full_url ---- */

  /**
   * `resolved` stands for the outcome of the HEAD request that follows
   * redirects: the final URL, or the short URL itself when the request fails.
   * Only URLs holding one of the shortener extensions are resolved.
   */
  function GetFullUrl(shortUrl: Option<string>, exts: seq<string>, resolved: string): (r: Option<string>)
    ensures shortUrl.None? ==> r.None?
    ensures shortUrl.Some? && !AnyOccurs(shortUrl.value, exts) ==> r == shortUrl
    ensures shortUrl.Some? && AnyOccurs(shortUrl.value, exts) ==> r == Some(resolved)
  {
    match shortUrl
    case None => None
    case Some(u) => if AnyOccurs(u, exts) then Some(resolved) else shortUrl
  }

  /* ---- clean_rss_path ---- */

  /** Make a feed link found in a page absolute, relative to the page's base URL. */
  function CleanRssPath(rss: Option<string>, baseUrl: string): (r: Option<string>)
    ensures rss.None? <==> r.None?
  {
    match rss
    case None => None
    case Some(r0) =>
      var r1 := if StartsWith(r0, "//") then Replace(r0, "//", "http://") else r0;
      var base := if !EndsWith(baseUrl, "/") && !StartsWith(r1, "/") then baseUrl + "/" else baseUrl;
      Some(if !StartsWith(r1, "http") then base + r1 else r1)
  }

  lemma CleanRssPathAbsolute(rss: string, baseUrl: string)
    requires StartsWith(rss, "http")
    ensures CleanRssPath(Some(rss), baseUrl) == Some(rss)
  {
    assert rss[0] == 'h';
    assert !StartsWith(rss, "//");
  }

  /** A protocol-relative link gets every "//" replaced by "http://" and no base. */
  lemma CleanRssPathProtocolRelative(rss: string, baseUrl: string)
    requires StartsWith(rss, "//")
    ensures CleanRssPath(Some(rss), baseUrl) == Some(Replace(rss, "//", "http://"))
    ensures StartsWith(CleanRssPath(Some(rss), baseUrl).value, "http://")
  {
    assert FindFirst(rss, "//") == Some(0);
    SplitStep(rss, "//", 0);
    var tail := Split(rss[2..], "//");
    JoinCons("", tail, "http://");
    var out := Replace(rss, "//", "http://");
    assert out == "" + "http://" + Join(tail, "http://");
    assert StartsWith(out, "http://");
    assert out[..4] == "http";
  }

  /** A relative link is prefixed by the base URL, with a '/' only if neither side has one. */
  lemma CleanRssPathRelative(rss: string, baseUrl: string)
    requires !StartsWith(rss, "http") && !StartsWith(rss, "//")
    ensures CleanRssPath(Some(rss), baseUrl) ==
      Some(baseUrl + (if !EndsWith(baseUrl, "/") && !StartsWith(rss, "/") then "/" else "") + rss)
  {
    if !EndsWith(baseUrl, "/") && !StartsWith(rss, "/") {
      assert baseUrl + "/" + rss == (baseUrl + "/") + rss;
    } else {
      assert baseUrl + "" + rss == baseUrl + rss;
    }
  }

  /* ---- build_tweet_url ---- */

  const TWEET_URL_PREFIX: string := "https://twitter.com/"
  const TWEET_URL_STATUS: string := "/status/"

  /** Note the argument order of the source: the id first, then the screen name. */
  function BuildTweetUrl(tweetIdStr: string, screenName: string): (r: string)
    ensures StartsWith(r, TWEET_URL_PREFIX)
    ensures EndsWith(r, tweetIdStr)
  {
    TWEET_URL_PREFIX + screenName + TWEET_URL_STATUS + tweetIdStr
  }

  /** Reads a tweet URL back into (screen name, id); the partner of `BuildTweetUrl`. */
  function ParseTweetUrl(url: string): (r: Option<(string, string)>)
  {
    if !StartsWith(url, TWEET_URL_PREFIX) then None
    else
      var rest := url[|TWEET_URL_PREFIX|..];
      match FindFirst(rest, TWEET_URL_STATUS)
      case None => None
      case Some(i) => Some((rest[..i], rest[i + |TWEET_URL_STATUS|..]))
  }

  /** Twitter screen names hold no '/', so the URL reads back to what built it. */
  lemma TweetUrlRoundTrip(tweetIdStr: string, screenName: string)
    requires '/' !in screenName
    ensures ParseTweetUrl(BuildTweetUrl(tweetIdStr, screenName)) == Some((screenName, tweetIdStr))
  {
    var url := BuildTweetUrl(tweetIdStr, screenName);
    var rest := url[|TWEET_URL_PREFIX|..];
    assert rest == screenName + TWEET_URL_STATUS + tweetIdStr;
    var n := |screenName|;
    assert OccursAt(rest, TWEET_URL_STATUS, n) by {
      assert rest[n..n + |TWEET_URL_STATUS|] == TWEET_URL_STATUS;
    }
    forall j: nat | j < n ensures !OccursAt(rest, TWEET_URL_STATUS, j) {
      assert rest[j] == screenName[j];
    }
    assert FindFirst(rest, TWEET_URL_STATUS) == Some(n);
    assert rest[..n] == screenName;
    assert rest[n + |TWEET_URL_STATUS|..] == tweetIdStr;
  }

  /* ---- find_url_in_text, trim step ---- */

  predicate IsTrimChar(c: char)
  {
    c == '.' || c == ',' || c == ')'
  }

  /** One URL after the trim step: a trailing '.', ',' or ')' is dropped. */
  function TrimmedUrl(url: string): string
  {
    if url != [] && IsTrimChar(url[|url| - 1]) then url[..|url| - 1] else url
  }

  /** The trim step drops at most one character, and only a trailing '.', ',' or ')'. */
  lemma TrimmedUrlDropsAtMostOne(url: string)
    ensures StartsWith(url, TrimmedUrl(url))
    ensures |url| - 1 <= |TrimmedUrl(url)| <= |url|
    ensures |TrimmedUrl(url)| < |url| <==> (url != [] && IsTrimChar(url[|url| - 1]))
  {
  }

  /** A URL ending in ".)" loses only the ')' - a single pass removes one character. */
  lemma TrimmedUrlSinglePass()
    ensures TrimmedUrl("http://a.b/x.)") == "http://a.b/x."
  {
  }

  /**
   * The loop over the matches found by the URL pattern (`found`, the result of
   * the regular expression, is an input), rewriting each entry by index.
   */
  method TrimUrlMatches(found: seq<string>) returns (urls: seq<string>)
    ensures |urls| == |found|
    ensures forall i :: 0 <= i < |found| ==> urls[i] == TrimmedUrl(found[i])
  {
    urls := found;
    var i := 0;
    while i < |urls|
      invariant 0 <= i <= |urls| == |found|
      invariant forall j :: 0 <= j < i ==> urls[j] == TrimmedUrl(found[j])
      invariant forall j :: i <= j < |urls| ==> urls[j] == found[j]
    {
      var url := urls[i];
      if EndsWith(url, ".") || EndsWith(url, ",") || EndsWith(url, ")") {
        urls := urls[i := url[..|url| - 1]];
      }
      i := i + 1;
    }
  }

  /* ---- clean_text_before_evaluation ---- */

  /**
   * The first index j >= 1 with t[j] == close such that no newline lies
   * strictly between 0 and j: where the lazy `.*?` of the tag pattern stops.
   */
  function LazyClose(t: string, close: char): (r: Option<nat>)
    requires |t| >= 1
    ensures r.Some? ==> 1 <= r.value < |t| && t[r.value] == close
    decreases |t|
  {
    if |t| == 1 then None
    else if t[1] == close then Some(1)
    else if t[1] == '\n' then None
    else
      match LazyClose(t[1..], close)
      case None => None
      case Some(j) => Some(j + 1)
  }

  /**
   * `re.sub('<.*?>|&.*?;', '', text)`: scanning left to right, a '<' up to the
   * nearest '>' on the same line is removed, likewise a '&' up to the nearest
   * ';'; any other character is kept.
   */
  function RemoveHtmlTags(s: string): (r: string)
    ensures forall c :: c in r ==> c in s
    decreases |s|
  {
    if s == [] then []
    else if s[0] == '<' && LazyClose(s, '>').Some? then
      var j := LazyClose(s, '>').value;
      var r := RemoveHtmlTags(s[j + 1..]);
      assert forall c :: c in s[j + 1..] ==> c in s;
      r
    else if s[0] == '&' && LazyClose(s, ';').Some? then
      var j := LazyClose(s, ';').value;
      var r := RemoveHtmlTags(s[j + 1..]);
      assert forall c :: c in s[j + 1..] ==> c in s;
      r
    else
      var r := RemoveHtmlTags(s[1..]);
      assert forall c :: c in s[1..] ==> c in s;
      [s[0]] + r
  }

  lemma RemoveHtmlTagsExample()
    ensures RemoveHtmlTags("a<b>c") == "ac"
  {
    assert LazyClose("<b>c", '>') == Some(2);
    assert "a<b>c"[1..] == "<b>c";
    assert "<b>c"[3..] == "c";
  }

  /** The lazy match that starts at `o` stops at the first `close` after it. */
  lemma {:induction false} LazyCloseFirst(o: char, m: string, close: char, q: string)
    requires forall k :: 0 <= k < |m| ==> m[k] != close && m[k] != '\n'
    ensures LazyClose([o] + m + [close] + q, close) == Some(|m| + 1)
    decreases |m|
  {
    var t := [o] + m + [close] + q;
    if m == [] {
      assert t[1] == close;
    } else {
      assert t[1] == m[0];
      assert t[1..] == [m[0]] + m[1..] + [close] + q;
      LazyCloseFirst(m[0], m[1..], close, q);
    }
  }

  /** A text with no '<' and no '&' is left as it is. */
  lemma {:induction false} RemoveHtmlTagsPlain(s: string)
    requires forall k :: 0 <= k < |s| ==> s[k] != '<' && s[k] != '&'
    ensures RemoveHtmlTags(s) == s
    decreases |s|
  {
    if s != [] {
      RemoveHtmlTagsPlain(s[1..]);
    }
  }

  /**
   * After a prefix with no '<' and no '&', a '<' up to the first '>' (or a
   * '&' up to the first ';') on the same line is cut out, and the scan goes
   * on after it.
   */
  lemma {:induction false} RemoveHtmlTagsSpan(p: string, o: char, m: string, c: char, q: string)
    requires forall k :: 0 <= k < |p| ==> p[k] != '<' && p[k] != '&'
    requires (o == '<' && c == '>') || (o == '&' && c == ';')
    requires forall k :: 0 <= k < |m| ==> m[k] != c && m[k] != '\n'
    ensures RemoveHtmlTags(p + [o] + m + [c] + q) == p + RemoveHtmlTags(q)
    decreases |p|
  {
    var s := p + [o] + m + [c] + q;
    if p == [] {
      assert s == [o] + m + [c] + q;
      LazyCloseFirst(o, m, c, q);
      assert s[|m| + 2..] == q;
    } else {
      assert s[0] == p[0];
      assert s[1..] == p[1..] + [o] + m + [c] + q;
      RemoveHtmlTagsSpan(p[1..], o, m, c, q);
    }
  }

  /** The text handed to the NLU services: no '@', no '#', no markup, newlines as spaces. */
  function CleanTextBeforeEvaluation(text: string): string
  {
    var t1 := Replace(text, "@", "");
    var t2 := Replace(t1, "#", "");
    var t3 := RemoveHtmlTags(t2);
    Replace(t3, "\n", " ")
  }

  lemma CleanTextHasNoMarkers(text: string)
    ensures var r := CleanTextBeforeEvaluation(text);
      '@' !in r && '#' !in r && '\n' !in r
  {
    var t1 := Replace(text, "@", "");
    var t2 := Replace(t1, "#", "");
    var t3 := RemoveHtmlTags(t2);
    var r := Replace(t3, "\n", " ");
    ReplaceRemovesChar(text, '@', "");
    ReplaceRemovesChar(t1, '#', "");
    ReplaceRemovesChar(t3, '\n', " ");
    ReplaceKeepsChars(t1, "#", "");
    ReplaceKeepsChars(t3, "\n", " ");
  }

  /** Every character after a replacement comes from the input or from the replacement. */
  lemma ReplaceKeepsChars(s: string, target: string, repl: string)
    requires target != []
    ensures forall c :: c in Replace(s, target, repl) ==> c in s || c in repl
  {
    forall c | c in Replace(s, target, repl) ensures c in s || c in repl {
      JoinChars(Split(s, target), repl, c);
      if c !in repl {
        var p :| p in Split(s, target) && c in p;
        SplitPiecesAreInfixes(s, target, p, c);
      }
    }
  }

  lemma {:induction false} SplitPiecesAreInfixes(s: string, sep: string, p: string, c: char)
    requires sep != [] && p in Split(s, sep) && c in p
    ensures c in s
    decreases |s|
  {
    match FindFirst(s, sep)
    case None =>
    case Some(i) =>
      SplitStep(s, sep, i);
      if p == s[..i] {
      } else {
        SplitPiecesAreInfixes(s[i + |sep|..], sep, p, c);
      }
  }

  /* ---- find_company_name_matches ---- */

  /** The limits passed to the fuzzy substring search. */
  datatype Tolerance = Tolerance(maxDeletions: nat, maxInsertions: nat, maxSubstitutions: nat, maxLDist: nat)

  /** One hit of the fuzzy search, and the record the function returns for it. */
  datatype NearMatch = NearMatch(start: nat, end: nat, dist: nat, matched: string)

  function ToleranceFor(company: string): Tolerance
  {
    if |company| <= COMPANY_LEN_LIMIT_FOR_EXACT_MATCH then Tolerance(0, 0, 0, 0)
    else Tolerance(1, 1, 0, 1)
  }

  /**
   * `search(company, text, tolerance)` is the fuzzy substring search. Names of
   * up to ten characters must match exactly; longer ones may lose or gain one
   * character, never have one substituted.
   */
  function FindCompanyNameMatches(text: string, company: string,
                                  search: (string, string, Tolerance) -> seq<NearMatch>): (r: Option<seq<NearMatch>>)
    ensures r.None? <==> |search(company, text, ToleranceFor(company))| == 0
    ensures r.Some? ==> r.value == search(company, text, ToleranceFor(company))
  {
    var found := search(company, text, ToleranceFor(company));
    if |found| > 0 then Some(found) else None
  }

  lemma ShortNamesMatchExactly(company: string)
    requires |company| <= 10
    ensures ToleranceFor(company) == Tolerance(0, 0, 0, 0)
  {
  }

  lemma LongNamesAllowOneIndel(company: string)
    requires |company| > 10
    ensures var t := ToleranceFor(company);
      t.maxSubstitutions == 0 && t.maxDeletions == 1 && t.maxInsertions == 1 && t.maxLDist == 1
  {
  }

  /* ---- check_if_url_match_pattern ---- */

  /** `search(pattern, url)` stands for `re.compile(pattern).search(url) is not None`. */
  function CheckIfUrlMatchPattern(url: string, patterns: seq<string>,
                                  search: (string, string) -> bool): (r: bool)
    ensures r <==> exists k :: 0 <= k < |patterns| && search(patterns[k], url)
    decreases |patterns|
  {
    if patterns == [] then false
    else if search(patterns[0], url) then true
    else
      var rest := CheckIfUrlMatchPattern(url, patterns[1..], search);
      assert forall k :: 1 <= k < |patterns| ==> patterns[k] == patterns[1..][k - 1];
      rest
  }
}

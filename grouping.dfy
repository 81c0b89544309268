// Source grouping (source_grouping/main.py): every entity not yet matched is
// compared with the others through its origins. Same Twitter account: the two
// entities are merged; otherwise an exact or fuzzy likeness of screen names
// and urls is recorded as a merge suggestion on both sides.
//
// The comparisons run on views of the entities taken once, before the pass;
// `fuzz.token_set_ratio` is the parameter `ratio`.
module SourceGrouping {
  import opened Wrappers
  import opened PyStrings
  import opened Orm

  const FUZZY_MATCH_SUGGESTED_THRESHOLD: int := 82

  type Score = x: int | 0 <= x <= 100

  /** `fuzz.token_set_ratio`. */
  type Ratio = (string, string) -> Score

  /** `"{}".format(x)` of an optional string. */
  function PyStr(x: Option<string>): string
  {
    match x
    case None => "None"
    case Some(v) => v
  }

  /* ---- urlsplit ---- */

  datatype SplitUrl = SplitUrl(scheme: string, netloc: string, path: string, query: string, fragment: string)

  predicate IsAsciiLetter(c: char)
  {
    'a' <= c <= 'z' || 'A' <= c <= 'Z'
  }

  predicate IsSchemeChar(c: char)
  {
    IsAsciiLetter(c) || '0' <= c <= '9' || c == '+' || c == '-' || c == '.'
  }

  /** The index of the first character of `s` in `cs`, or `|s|`. */
  function FirstOfAny(s: string, cs: set<char>): (r: nat)
    ensures r <= |s|
    ensures forall k :: 0 <= k < r ==> s[k] !in cs
    ensures r < |s| ==> s[r] in cs
    decreases |s|
  {
    if s == [] then 0 else if s[0] in cs then 0 else 1 + FirstOfAny(s[1..], cs)
  }

  /** The scheme as `urlsplit` recognises it: letters first, scheme characters up to ':'. */
  function SchemeLength(url: string): (r: Option<nat>)
    ensures r.Some? ==> 0 < r.value < |url| && url[r.value] == ':'
  {
    var i := FirstOfAny(url, {':'});
    if 0 < i < |url| && IsAsciiLetter(url[0]) && forall k :: 0 <= k < i ==> IsSchemeChar(url[k]) then Some(i) else None
  }

  /**
   * `urllib.parse.urlsplit(url)`: scheme, then a netloc after "//" up to the
   * first '/', '?' or '#', then the fragment and the query are cut off and
   * what remains is the path.
   */
  function UrlSplit(url: string): SplitUrl
  {
    var (scheme, rest) := SplitScheme(url);
    var (netloc, afterNetloc) := SplitNetloc(rest);
    var (path, query, fragment) := SplitPathQueryFragment(afterNetloc);
    SplitUrl(scheme, netloc, path, query, fragment)
  }

  /** The scheme (lower-cased) and what follows its ':'; no scheme leaves the url whole. */
  function SplitScheme(url: string): (string, string)
  {
    var sl := SchemeLength(url);
    if sl.Some? then (Lower(url[..sl.value]), url[sl.value + 1..]) else ("", url)
  }

  /** After "//", the netloc runs up to the first '/', '?' or '#'. */
  function SplitNetloc(rest: string): (string, string)
  {
    if |rest| >= 2 && rest[..2] == "//" then
      var delim := 2 + FirstOfAny(rest[2..], {'/', '?', '#'});
      (rest[2..delim], rest[delim..])
    else ("", rest)
  }

  /** The fragment after the first '#', then the query after the first '?', and the path before. */
  function SplitPathQueryFragment(s: string): (string, string, string)
  {
    var h := FirstOfAny(s, {'#'});
    var fragment := if h < |s| then s[h + 1..] else "";
    var beforeFragment := s[..h];
    var q := FirstOfAny(beforeFragment, {'?'});
    var query := if q < |beforeFragment| then beforeFragment[q + 1..] else "";
    (beforeFragment[..q], query, fragment)
  }

  lemma {:induction false} FirstOfAnyAfter(p: string, s: string, cs: set<char>)
    requires forall k :: 0 <= k < |p| ==> p[k] !in cs
    ensures FirstOfAny(p + s, cs) == |p| + FirstOfAny(s, cs)
    decreases |p|
  {
    if p == [] {
      assert p + s == s;
    } else {
      assert (p + s)[0] == p[0];
      assert (p + s)[1..] == p[1..] + s;
      FirstOfAnyAfter(p[1..], s, cs);
    }
  }

  /** A host with no delimiter in it. */
  predicate PlainHost(h: string)
  {
    forall k :: 0 <= k < |h| ==> h[k] !in {'/', '?', '#', ':'}
  }

  lemma SplitSchemeHttp(rest: string)
    ensures SplitScheme("http:" + rest) == ("http", rest)
  {
    var url := "http:" + rest;
    assert url == "http" + (":" + rest);
    FirstOfAnyAfter("http", ":" + rest, {':'});
    assert SchemeLength(url) == Some(4);
    assert url[..4] == "http" && url[5..] == rest;
    assert Lower("http") == "http";
  }

  lemma SplitNetlocPlain(h: string, tail: string)
    requires PlainHost(h) && (tail == [] || tail[0] == '/')
    ensures SplitNetloc("//" + h + tail) == (h, tail)
  {
    var rest := "//" + h + tail;
    assert rest[..2] == "//";
    assert rest[2..] == h + tail;
    FirstOfAnyAfter(h, tail, {'/', '?', '#'});
    assert rest[2..2 + |h|] == h;
    assert rest[2 + |h|..] == tail;
  }

  lemma UrlSplitHost(h: string, tail: string)
    requires PlainHost(h) && (tail == "" || tail == "/")
    ensures UrlSplit("http://" + h + tail).netloc == h && UrlSplit("http://" + h + tail).path == tail
  {
    assert "http://" + h + tail == "http:" + ("//" + h + tail);
    SplitSchemeHttp("//" + h + tail);
    SplitNetlocPlain(h, tail);
    assert SplitPathQueryFragment(tail).0 == tail;
  }

  /** An explicit root path is kept: "http://h/" has path "/", "http://h" has none. */
  lemma UrlSplitRootPath(h: string)
    requires PlainHost(h)
    ensures UrlSplit("http://" + h).netloc == h && UrlSplit("http://" + h).path == ""
    ensures UrlSplit("http://" + h + "/").netloc == h && UrlSplit("http://" + h + "/").path == "/"
  {
    UrlSplitHost(h, "");
    UrlSplitHost(h, "/");
    assert "http://" + h + "" == "http://" + h;
  }

  /* ---- exact and fuzzy comparison of two values ---- */

  /** `is_auto_match_urls`: same host (case-insensitive), then both paths empty or equal ignoring case. */
  function IsAutoMatchUrls(url1: Option<string>, url2: Option<string>): (r: bool)
    ensures url1.None? || url2.None? ==> !r
    ensures r ==> Lower(UrlSplit(url1.value).netloc) == Lower(UrlSplit(url2.value).netloc)
    ensures r ==> Lower(UrlSplit(url1.value).path) == Lower(UrlSplit(url2.value).path)
  {
    if url1.None? || url2.None? then false
    else
      var s1 := UrlSplit(url1.value);
      var s2 := UrlSplit(url2.value);
      if Lower(s1.netloc) != Lower(s2.netloc) then false
      else if s1.path == "" && s2.path == "" then true
      else Lower(s1.path) == Lower(s2.path)
  }

  /** Every present url matches itself, and the relation is symmetric. */
  lemma AutoMatchUrlsReflexiveSymmetric(u: string, v: Option<string>)
    ensures IsAutoMatchUrls(Some(u), Some(u))
    ensures IsAutoMatchUrls(Some(u), v) == IsAutoMatchUrls(v, Some(u))
  {
  }

  /** No trailing-slash normalisation: a host and the same host with "/" are not an exact match. */
  lemma NoTrailingSlashNormalisation(h: string)
    requires PlainHost(h)
    ensures !IsAutoMatchUrls(Some("http://" + h), Some("http://" + h + "/"))
  {
    UrlSplitRootPath(h);
    assert Lower("") != Lower("/") by { assert |Lower("/")| == 1; }
  }

  /** `is_suggested_match_strings`: case-insensitive ratio at least 82. */
  function IsSuggestedMatchStrings(s1: string, s2: string, ratio: Ratio): bool
  {
    ratio(Lower(s1), Lower(s2)) >= FUZZY_MATCH_SUGGESTED_THRESHOLD
  }

  lemma LowerIdempotent(s: string)
    ensures Lower(Lower(s)) == Lower(s)
  {
  }

  /** The comparison ignores case on both sides. */
  lemma SuggestedStringsIgnoreCase(s1: string, s2: string, ratio: Ratio)
    ensures IsSuggestedMatchStrings(Lower(s1), Lower(s2), ratio) == IsSuggestedMatchStrings(s1, s2, ratio)
  {
    LowerIdempotent(s1);
    LowerIdempotent(s2);
  }

  /**
   * What the fuzzy ratio compares for a component of `urlsplit(None)`: the
   * split is of bytes, its components are `b''`, and the ratio works on
   * their `str`, which is the three characters `b''`.
   */
  const EMPTY_BYTES_STR: string := "b''"

  /**
   * `is_suggested_match_urls`. The None guard tests `url1` twice, so a
   * missing `url2` goes on to `urlsplit(None)`: its path is empty, and its
   * host and path reach the ratio as `EMPTY_BYTES_STR`.
   */
  function IsSuggestedMatchUrls(url1: Option<string>, url2: Option<string>, ratio: Ratio): (r: bool)
    ensures url1.None? ==> !r
    ensures url1.Some? && url2.Some? ==>
      (r <==> ratio(Lower(UrlSplit(url1.value).netloc), Lower(UrlSplit(url2.value).netloc)) >= FUZZY_MATCH_SUGGESTED_THRESHOLD
              && ((UrlSplit(url1.value).path == "" && UrlSplit(url2.value).path == "")
                  || ratio(Lower(UrlSplit(url1.value).path), Lower(UrlSplit(url2.value).path)) >= FUZZY_MATCH_SUGGESTED_THRESHOLD))
    ensures url1.Some? && url2.None? ==>
      (r <==> ratio(Lower(UrlSplit(url1.value).netloc), EMPTY_BYTES_STR) >= FUZZY_MATCH_SUGGESTED_THRESHOLD
              && (UrlSplit(url1.value).path == ""
                  || ratio(Lower(UrlSplit(url1.value).path), EMPTY_BYTES_STR) >= FUZZY_MATCH_SUGGESTED_THRESHOLD))
  {
    if url1.None? then false
    else
      var s1 := UrlSplit(url1.value);
      var s2 := if url2.Some? then UrlSplit(url2.value) else UrlSplit("");
      var netloc2 := if url2.Some? then Lower(s2.netloc) else EMPTY_BYTES_STR;
      var path2 := if url2.Some? then Lower(s2.path) else EMPTY_BYTES_STR;
      if ratio(Lower(s1.netloc), netloc2) < FUZZY_MATCH_SUGGESTED_THRESHOLD then false
      else if s1.path == "" && s2.path == "" then true
      else ratio(Lower(s1.path), path2) >= FUZZY_MATCH_SUGGESTED_THRESHOLD
  }

  /**
   * A missing second url is not rejected by the guard: `http://b` against
   * None matches as soon as the ratio scores the host `b` against `b''` at
   * 82 or more, as token_set_ratio does (both reduce to `b`).
   */
  lemma SuggestedUrlsSecondNoneUnguarded(ratio: Ratio)
    requires ratio("b", EMPTY_BYTES_STR) >= FUZZY_MATCH_SUGGESTED_THRESHOLD
    ensures IsSuggestedMatchUrls(Some("http://b"), None, ratio)
  {
    var u := "http://" + "b";
    assert u == "http://b";
    UrlSplitRootPath("b");
    LowerPlainB();
    assert ratio(Lower(UrlSplit(u).netloc), EMPTY_BYTES_STR) >= FUZZY_MATCH_SUGGESTED_THRESHOLD;
  }

  lemma LowerPlainB()
    ensures Lower("b") == "b"
  {
  }

  /* ---- views of the entities taken before the pass ---- */

  /** The origin dictionaries built by `get_repartition_entities`. */
  datatype OriginView =
    | TwitterView(screenName: string, profileUrl: Option<string>)
    | WebView(expandedUrl: Option<string>, baseUrl: Option<string>)
    | RssView

  datatype EntityView = EntityView(id: EntityId, name: string, isReference: bool, origins: seq<OriginView>)

  function ViewOf(o: Origin): OriginView
  {
    match o.detail
    case TwitterOrigin(sn, _, p) => TwitterView(sn, if p.Some? then p.value.url else None)
    case WebOrigin(_, x, b) => WebView(x, b)
    case RssOrigin(_, _, _) => RssView
  }

  function ViewsOf(os: seq<Origin>): (r: seq<OriginView>)
    ensures |r| == |os| && forall i :: 0 <= i < |os| ==> r[i] == ViewOf(os[i])
  {
    seq(|os|, i requires 0 <= i < |os| => ViewOf(os[i]))
  }

  function EntityViewOf(db: Db, id: EntityId): EntityView
    requires id in db.entities
  {
    EntityView(id, db.entities[id].name, db.entities[id].isReference, ViewsOf(OriginsOf(db.origins, id)))
  }

  /** `get_repartition_entities`: the rows split by `match_done`, in row order. */
  function Repartition(db: Db, rows: seq<EntityId>): (r: (seq<EntityView>, seq<EntityView>))
    ensures |r.0| + |r.1| <= |rows|
  {
    if rows == [] then ([], [])
    else
      var (m, t) := Repartition(db, rows[..|rows| - 1]);
      var id := rows[|rows| - 1];
      if id !in db.entities then (m, t)
      else if db.entities[id].matchDone then (m + [EntityViewOf(db, id)], t)
      else (m, t + [EntityViewOf(db, id)])
  }

  /** Matched views come from matched entities, the others from unmatched ones, and every listed entity is in one of them. */
  lemma {:induction false} RepartitionSpec(db: Db, rows: seq<EntityId>)
    ensures var (m, t) := Repartition(db, rows);
      && (forall v :: v in m ==> v.id in db.entities && db.entities[v.id].matchDone && v == EntityViewOf(db, v.id))
      && (forall v :: v in t ==> v.id in db.entities && !db.entities[v.id].matchDone && v == EntityViewOf(db, v.id))
      && (forall id :: id in rows && id in db.entities ==> EntityViewOf(db, id) in m || EntityViewOf(db, id) in t)
    decreases |rows|
  {
    if rows != [] {
      var init := rows[..|rows| - 1];
      RepartitionSpec(db, init);
      assert rows == init + [rows[|rows| - 1]];
    }
  }

  method GetRepartition(s: Session) returns (matched: seq<EntityView>, toMatch: seq<EntityView>)
    ensures (matched, toMatch) == Repartition(s.State(), s.rows)
  {
    matched, toMatch := [], [];
    for i := 0 to |s.rows|
      invariant (matched, toMatch) == Repartition(s.State(), s.rows[..i])
    {
      var id := s.rows[i];
      assert s.rows[..i + 1][..i] == s.rows[..i];
      if id in s.entities {
        var view := EntityView(id, s.entities[id].name, s.entities[id].isReference, ViewsOf(OriginsOf(s.origins, id)));
        if s.entities[id].matchDone {
          matched := matched + [view];
        } else {
          toMatch := toMatch + [view];
        }
      }
    }
    assert s.rows[..|s.rows|] == s.rows;
  }

  /* ---- is_auto_match and is_suggested_match ---- */

  /** The loop variables `match`, `reason` and `twitter_matched`. */
  datatype Verdict = Verdict(found: bool, reason: Option<string>, twitterMatched: bool)

  const NO_MATCH: Verdict := Verdict(false, None, false)

  /** RSS origins are skipped by both comparisons. */
  predicate Comparable(o1: OriginView, o2: OriginView)
  {
    !o1.RssView? && !o2.RssView?
  }

  /** One comparison of `is_auto_match`; only the Twitter-Twitter branch writes `twitter_matched`. */
  function AutoCompare(v: Verdict, o1: OriginView, o2: OriginView): Verdict
  {
    if !Comparable(o1, o2) then v
    else if o1.TwitterView? && o2.TwitterView? then
      Verdict(o1.screenName == o2.screenName, Some("Same Twitter screen name: " + o1.screenName), o1.screenName == o2.screenName)
    else if o1.WebView? && o2.WebView? then
      Verdict(IsAutoMatchUrls(o1.expandedUrl, o2.expandedUrl), Some("Same Web origin: " + PyStr(o1.expandedUrl)), v.twitterMatched)
    else
      var (t, w) := if o1.TwitterView? then (o1, o2) else (o2, o1);
      Verdict(IsAutoMatchUrls(t.profileUrl, w.expandedUrl),
              Some("Same Twitter profile URL & Web origin: " + PyStr(t.profileUrl)), v.twitterMatched)
  }

  /** One comparison of `is_suggested_match`, on base urls. */
  function SuggestCompare(v: Verdict, o1: OriginView, o2: OriginView, ratio: Ratio): Verdict
  {
    if !Comparable(o1, o2) then v
    else if o1.TwitterView? && o2.TwitterView? then
      v.(found := IsSuggestedMatchStrings(o1.screenName, o2.screenName, ratio),
         reason := Some("Similar Twitter screen names: " + o1.screenName + " ~ " + o2.screenName))
    else if o1.WebView? && o2.WebView? then
      v.(found := IsSuggestedMatchUrls(o1.baseUrl, o2.baseUrl, ratio),
         reason := Some("Similar Web origins: " + PyStr(o1.baseUrl) + " ~ " + PyStr(o2.baseUrl)))
    else
      var (t, w) := if o1.TwitterView? then (o1, o2) else (o2, o1);
      v.(found := IsSuggestedMatchUrls(t.profileUrl, w.baseUrl, ratio),
         reason := Some("Similar Twitter profile URL & Web origin: " + PyStr(t.profileUrl) + " ~ " + PyStr(w.baseUrl)))
  }

  type Comparison = (Verdict, OriginView, OriginView) -> Verdict

  /** The inner loop: each comparable pair is compared; a match leaves the inner loop only. */
  function InnerScan(cmp: Comparison, v: Verdict, o1: OriginView, os2: seq<OriginView>): Verdict
    decreases |os2|
  {
    if os2 == [] then v
    else if !Comparable(o1, os2[0]) then InnerScan(cmp, v, o1, os2[1..])
    else
      var v1 := cmp(v, o1, os2[0]);
      if v1.found then v1 else InnerScan(cmp, v1, o1, os2[1..])
  }

  /** The outer loop carries the verdict of the previous inner loop into the next one. */
  function OuterScan(cmp: Comparison, v: Verdict, os1: seq<OriginView>, os2: seq<OriginView>): Verdict
    decreases |os1|
  {
    if os1 == [] then v else OuterScan(cmp, InnerScan(cmp, v, os1[0], os2), os1[1..], os2)
  }

  function AutoMatch(e1: EntityView, e2: EntityView): Verdict
  {
    OuterScan(AutoCompare, NO_MATCH, e1.origins, e2.origins)
  }

  function SuggestedMatch(e1: EntityView, e2: EntityView, ratio: Ratio): Verdict
  {
    OuterScan((v, a, b) => SuggestCompare(v, a, b, ratio), NO_MATCH, e1.origins, e2.origins)
  }

  /** The nested loops of `is_auto_match` and `is_suggested_match`. */
  method ScanOrigins(cmp: Comparison, os1: seq<OriginView>, os2: seq<OriginView>) returns (v: Verdict)
    ensures v == OuterScan(cmp, NO_MATCH, os1, os2)
  {
    v := NO_MATCH;
    for i := 0 to |os1|
      invariant OuterScan(cmp, v, os1[i..], os2) == OuterScan(cmp, NO_MATCH, os1, os2)
    {
      assert os1[i..][1..] == os1[i + 1..];
      ghost var start := v;
      var j := 0;
      while j < |os2|
        invariant 0 <= j <= |os2|
        invariant InnerScan(cmp, v, os1[i], os2[j..]) == InnerScan(cmp, start, os1[i], os2)
      {
        assert os2[j..][1..] == os2[j + 1..];
        if !Comparable(os1[i], os2[j]) {
          j := j + 1;
          continue;
        }
        v := cmp(v, os1[i], os2[j]);
        if v.found {
          break;
        }
        j := j + 1;
      }
    }
  }

  method IsAutoMatch(e1: EntityView, e2: EntityView) returns (v: Verdict)
    ensures v == AutoMatch(e1, e2)
  {
    v := ScanOrigins(AutoCompare, e1.origins, e2.origins);
  }

  method IsSuggestedMatch(e1: EntityView, e2: EntityView, ratio: Ratio) returns (v: Verdict)
    ensures v == SuggestedMatch(e1, e2, ratio)
  {
    v := ScanOrigins((v, a, b) => SuggestCompare(v, a, b, ratio), e1.origins, e2.origins);
  }

  /** A comparison that decides `match` and `reason` from the two origins alone. */
  ghost predicate Overwrites(cmp: Comparison)
  {
    forall v, v', a, b :: Comparable(a, b) ==> cmp(v, a, b).found == cmp(v', a, b).found && cmp(v, a, b).reason == cmp(v', a, b).reason
  }

  lemma AutoCompareOverwrites()
    ensures Overwrites(AutoCompare)
  {
  }

  lemma SuggestCompareOverwrites(ratio: Ratio)
    ensures Overwrites((v, a, b) => SuggestCompare(v, a, b, ratio))
  {
  }

  /** An inner loop that compares anything decides `match` and `reason` regardless of what came before. */
  lemma {:induction false} InnerScanForgets(cmp: Comparison, v: Verdict, v': Verdict, o1: OriginView, os2: seq<OriginView>)
    requires Overwrites(cmp)
    requires exists k :: 0 <= k < |os2| && Comparable(o1, os2[k])
    ensures InnerScan(cmp, v, o1, os2).found == InnerScan(cmp, v', o1, os2).found
    ensures InnerScan(cmp, v, o1, os2).reason == InnerScan(cmp, v', o1, os2).reason
    decreases |os2|
  {
    var k :| 0 <= k < |os2| && Comparable(o1, os2[k]);
    if !Comparable(o1, os2[0]) {
      assert Comparable(o1, os2[1..][k - 1]);
      InnerScanForgets(cmp, v, v', o1, os2[1..]);
    } else {
      var a, b := cmp(v, o1, os2[0]), cmp(v', o1, os2[0]);
      assert a.found == b.found && a.reason == b.reason;
      if !a.found && exists k :: 0 <= k < |os2[1..]| && Comparable(o1, os2[1..][k]) {
        InnerScanForgets(cmp, a, b, o1, os2[1..]);
      } else if !a.found {
        InnerScanNothingComparable(cmp, a, o1, os2[1..]);
        InnerScanNothingComparable(cmp, b, o1, os2[1..]);
      }
    }
  }

  lemma {:induction false} InnerScanNothingComparable(cmp: Comparison, v: Verdict, o1: OriginView, os2: seq<OriginView>)
    requires forall k :: 0 <= k < |os2| ==> !Comparable(o1, os2[k])
    ensures InnerScan(cmp, v, o1, os2) == v
    decreases |os2|
  {
    if os2 != [] {
      assert forall k :: 0 <= k < |os2[1..]| ==> os2[1..][k] == os2[k + 1];
      InnerScanNothingComparable(cmp, v, o1, os2[1..]);
    }
  }

  lemma {:induction false} OuterScanSnoc(cmp: Comparison, v: Verdict, os1: seq<OriginView>, o: OriginView, os2: seq<OriginView>)
    ensures OuterScan(cmp, v, os1 + [o], os2) == InnerScan(cmp, OuterScan(cmp, v, os1, os2), o, os2)
    decreases |os1|
  {
    if os1 == [] {
      assert [o][1..] == [];
    } else {
      assert (os1 + [o])[1..] == os1[1..] + [o];
      OuterScanSnoc(cmp, InnerScan(cmp, v, os1[0], os2), os1[1..], o, os2);
    }
  }

  /**
   * The `break` leaves the inner loop only: when the last origin of the first
   * entity is compared with anything, the outcome is that of its own inner
   * loop, whatever the earlier origins found.
   */
  lemma LastOriginDecides(cmp: Comparison, os1: seq<OriginView>, last: OriginView, os2: seq<OriginView>)
    requires Overwrites(cmp)
    requires exists k :: 0 <= k < |os2| && Comparable(last, os2[k])
    ensures OuterScan(cmp, NO_MATCH, os1 + [last], os2).found == InnerScan(cmp, NO_MATCH, last, os2).found
    ensures OuterScan(cmp, NO_MATCH, os1 + [last], os2).reason == InnerScan(cmp, NO_MATCH, last, os2).reason
  {
    OuterScanSnoc(cmp, NO_MATCH, os1, last, os2);
    InnerScanForgets(cmp, OuterScan(cmp, NO_MATCH, os1, os2), NO_MATCH, last, os2);
  }

  /** Same first account, different second account: the match found first is overwritten. */
  lemma InnerOnlyBreakLosesMatch()
    ensures var e1 := EntityView(1, "a", false, [TwitterView("a", None), TwitterView("b", None)]);
      var e2 := EntityView(2, "a", false, [TwitterView("a", None)]);
      && AutoCompare(NO_MATCH, e1.origins[0], e2.origins[0]).found
      && AutoMatch(e1, e2) == Verdict(false, Some("Same Twitter screen name: b"), false)
  {
    var e1 := EntityView(1, "a", false, [TwitterView("a", None), TwitterView("b", None)]);
    var e2 := EntityView(2, "a", false, [TwitterView("a", None)]);
    var a, b := TwitterView("a", None), TwitterView("b", None);
    var v1 := Verdict(true, Some("Same Twitter screen name: a"), true);
    var v2 := Verdict(false, Some("Same Twitter screen name: b"), false);
    assert "Same Twitter screen name: " + "a" == "Same Twitter screen name: a";
    assert "Same Twitter screen name: " + "b" == "Same Twitter screen name: b";
    assert AutoCompare(NO_MATCH, a, a) == v1;
    assert InnerScan(AutoCompare, NO_MATCH, a, [a]) == v1;
    assert AutoCompare(v1, b, a) == v2;
    assert InnerScan(AutoCompare, v2, b, []) == v2;
    assert [a][1..] == [];
    assert InnerScan(AutoCompare, v1, b, [a]) == v2;
    assert e1.origins[1..] == [b];
    assert [b][1..] == [];
    assert OuterScan(AutoCompare, v2, [], [a]) == v2;
    assert OuterScan(AutoCompare, v1, [b], [a]) == v2;
  }

  /** When no pair is comparable (RSS on one side), nothing is matched. */
  lemma {:induction false} RssOnlyNeverMatches(cmp: Comparison, os1: seq<OriginView>, os2: seq<OriginView>)
    requires forall i :: 0 <= i < |os1| ==> os1[i].RssView?
    ensures OuterScan(cmp, NO_MATCH, os1, os2) == NO_MATCH
    decreases |os1|
  {
    if os1 != [] {
      InnerScanNothingComparable(cmp, NO_MATCH, os1[0], os2);
      assert forall i :: 0 <= i < |os1[1..]| ==> os1[1..][i] == os1[i + 1];
      RssOnlyNeverMatches(cmp, os1[1..], os2);
    }
  }

  /** `twitter_matched` can only come from two Twitter origins with the same screen name. */
  predicate SameTwitterAccount(os1: seq<OriginView>, os2: seq<OriginView>)
  {
    exists i, j :: 0 <= i < |os1| && 0 <= j < |os2| && os1[i].TwitterView? && os2[j].TwitterView?
                   && os1[i].screenName == os2[j].screenName
  }

  lemma {:induction false} InnerTwitterMatched(v: Verdict, o1: OriginView, os2: seq<OriginView>)
    ensures InnerScan(AutoCompare, v, o1, os2).twitterMatched ==>
      v.twitterMatched || exists j :: 0 <= j < |os2| && o1.TwitterView? && os2[j].TwitterView? && o1.screenName == os2[j].screenName
    decreases |os2|
  {
    if os2 != [] {
      var v1 := AutoCompare(v, o1, os2[0]);
      InnerTwitterMatched(v1, o1, os2[1..]);
      InnerTwitterMatched(v, o1, os2[1..]);
      if InnerScan(AutoCompare, v, o1, os2).twitterMatched && !v.twitterMatched {
        if Comparable(o1, os2[0]) && v1.twitterMatched {
          assert o1.TwitterView? && os2[0].TwitterView? && o1.screenName == os2[0].screenName;
        } else {
          var j :| 0 <= j < |os2[1..]| && o1.TwitterView? && os2[1..][j].TwitterView? && o1.screenName == os2[1..][j].screenName;
          assert os2[j + 1] == os2[1..][j];
        }
      }
    }
  }

  lemma {:induction false} OuterTwitterMatched(v: Verdict, os1: seq<OriginView>, os2: seq<OriginView>)
    ensures OuterScan(AutoCompare, v, os1, os2).twitterMatched ==> v.twitterMatched || SameTwitterAccount(os1, os2)
    decreases |os1|
  {
    if os1 != [] {
      var v1 := InnerScan(AutoCompare, v, os1[0], os2);
      OuterTwitterMatched(v1, os1[1..], os2);
      InnerTwitterMatched(v, os1[0], os2);
      if OuterScan(AutoCompare, v, os1, os2).twitterMatched && !v.twitterMatched {
        if v1.twitterMatched {
          var j :| 0 <= j < |os2| && os1[0].TwitterView? && os2[j].TwitterView? && os1[0].screenName == os2[j].screenName;
          assert SameTwitterAccount(os1, os2) by { assert os1[0].screenName == os2[j].screenName; }
        } else {
          var i, j :| 0 <= i < |os1[1..]| && 0 <= j < |os2| && os1[1..][i].TwitterView? && os2[j].TwitterView?
                      && os1[1..][i].screenName == os2[j].screenName;
          assert os1[i + 1] == os1[1..][i];
        }
      }
    }
  }

  lemma AutoTwitterMatchedNeedsSameAccount(e1: EntityView, e2: EntityView)
    ensures AutoMatch(e1, e2).twitterMatched ==> SameTwitterAccount(e1.origins, e2.origins)
  {
    OuterTwitterMatched(NO_MATCH, e1.origins, e2.origins);
  }

  /* ---- try_to_match ---- */

  /** A merge or suggestion to be made: `(e1, e2, reason)`. */
  datatype PendingMerge = PendingMerge(e1: EntityId, e2: EntityId, reason: string)

  /** The two result lists of `match_entity` and the ids whose dictionary carries `auto_matched`. */
  datatype Proposals = Proposals(autos: seq<PendingMerge>, suggestions: seq<PendingMerge>, marked: set<EntityId>)

  /** `try_to_match(e1, e2)`. */
  function TryToMatch(p: Proposals, e1: EntityView, e2: EntityView, ratio: Ratio): Proposals
  {
    if e1.isReference && e2.isReference then p
    else if e1.id in p.marked || e2.id in p.marked then p
    else
      var am := AutoMatch(e1, e2);
      if am.found then
        if am.twitterMatched then
          p.(marked := p.marked + {e1.id, e2.id}, autos := p.autos + [PendingMerge(e1.id, e2.id, PyStr(am.reason))])
        else
          p.(suggestions := p.suggestions + [PendingMerge(e1.id, e2.id, PyStr(am.reason))])
      else
        var sm := SuggestedMatch(e1, e2, ratio);
        if sm.found then p.(suggestions := p.suggestions + [PendingMerge(e1.id, e2.id, PyStr(sm.reason))]) else p
  }

  /** What `try_to_match` records, case by case. */
  lemma TryToMatchRules(p: Proposals, e1: EntityView, e2: EntityView, ratio: Ratio)
    ensures var r := TryToMatch(p, e1, e2, ratio);
      var am := AutoMatch(e1, e2);
      && ((e1.isReference && e2.isReference) || e1.id in p.marked || e2.id in p.marked ==> r == p)
      && p.marked <= r.marked
      && (|r.autos| == |p.autos| + 1 <==>
            !(e1.isReference && e2.isReference) && e1.id !in p.marked && e2.id !in p.marked && am.found && am.twitterMatched)
      && (|r.autos| == |p.autos| + 1 ==> r.autos[|p.autos|] == PendingMerge(e1.id, e2.id, PyStr(am.reason)) && e1.id in r.marked && e2.id in r.marked)
      && (|r.autos| != |p.autos| + 1 ==> r.autos == p.autos && r.marked == p.marked)
      && (|r.autos| == |p.autos| + 1 ==> r.autos[..|p.autos|] == p.autos && r.suggestions == p.suggestions)
      && (am.found && !am.twitterMatched && r != p ==> r.suggestions == p.suggestions + [PendingMerge(e1.id, e2.id, PyStr(am.reason))])
  {
  }

  /** Fold of `try_to_match` over the partners, in order. */
  function TryAll(p: Proposals, e: EntityView, partners: seq<EntityView>, ratio: Ratio): Proposals
  {
    if partners == [] then p
    else TryToMatch(TryAll(p, e, partners[..|partners| - 1], ratio), e, partners[|partners| - 1], ratio)
  }

  /** Each id occurs in at most one auto merge, and only once it carries `auto_matched`. */
  predicate AutosDisjoint(autos: seq<PendingMerge>, marked: set<EntityId>)
  {
    && (forall i :: 0 <= i < |autos| ==> autos[i].e1 in marked && autos[i].e2 in marked)
    && (forall i, j :: 0 <= i < j < |autos| ==>
          autos[i].e1 != autos[j].e1 && autos[i].e1 != autos[j].e2
          && autos[i].e2 != autos[j].e1 && autos[i].e2 != autos[j].e2)
  }

  lemma TryToMatchKeepsAutosDisjoint(p: Proposals, e1: EntityView, e2: EntityView, ratio: Ratio, previous: seq<PendingMerge>)
    requires AutosDisjoint(previous + p.autos, p.marked)
    ensures var r := TryToMatch(p, e1, e2, ratio); AutosDisjoint(previous + r.autos, r.marked)
  {
    TryToMatchRules(p, e1, e2, ratio);
    var r := TryToMatch(p, e1, e2, ratio);
    if |r.autos| == |p.autos| + 1 {
      assert previous + r.autos == (previous + p.autos) + [r.autos[|p.autos|]];
    }
  }

  lemma {:induction false} TryAllKeepsAutosDisjoint(p: Proposals, e: EntityView, partners: seq<EntityView>, ratio: Ratio, previous: seq<PendingMerge>)
    requires AutosDisjoint(previous + p.autos, p.marked)
    ensures var r := TryAll(p, e, partners, ratio);
      AutosDisjoint(previous + r.autos, r.marked) && p.marked <= r.marked
    decreases |partners|
  {
    if partners != [] {
      var init := partners[..|partners| - 1];
      TryAllKeepsAutosDisjoint(p, e, init, ratio, previous);
      var q := TryAll(p, e, init, ratio);
      TryToMatchKeepsAutosDisjoint(q, e, partners[|partners| - 1], ratio, previous);
      TryToMatchRules(q, e, partners[|partners| - 1], ratio);
    }
  }

  /* ---- suggested_merge_entities ---- */

  predicate HasSuggestionFor(ss: seq<Suggestion>, id: EntityId)
  {
    exists k :: 0 <= k < |ss| && ss[k].id == id
  }

  /** Add `{id, reason}` to the entity's suggestions unless one with that id is there. */
  function AddSuggestion(e: Entity, id: EntityId, reason: string): (r: Entity)
    ensures r == e.(suggestedMerges := r.suggestedMerges) && r.suggestedMerges.Some?
    ensures HasSuggestionFor(r.suggestedMerges.value, id)
  {
    var ss := e.suggestedMerges.GetOr([]);
    var r := if HasSuggestionFor(ss, id) then ss else ss + [Suggestion(id, reason)];
    assert r[|r| - 1].id == id || HasSuggestionFor(ss, id);
    e.(suggestedMerges := Some(r))
  }

  /** A new id is appended at the end of the list, which None starts empty. */
  lemma AddSuggestionAppends(e: Entity, id: EntityId, reason: string)
    requires !HasSuggestionFor(e.suggestedMerges.GetOr([]), id)
    ensures AddSuggestion(e, id, reason).suggestedMerges == Some(e.suggestedMerges.GetOr([]) + [Suggestion(id, reason)])
  {
  }

  /** `suggested_merge_entities(e1, e2, reason)`. */
  function SuggestedMergeSpec(db: Db, e1: EntityId, e2: EntityId, reason: string): (r: Db)
    ensures r == db.(entities := r.entities) && r.entities.Keys == db.entities.Keys
  {
    if e1 !in db.entities || e2 !in db.entities then db
    else if db.entities[e1].isReference && db.entities[e2].isReference then db
    else
      var db1 := db.(entities := db.entities[e1 := AddSuggestion(db.entities[e1], e2, reason)]);
      db1.(entities := db1.entities[e2 := AddSuggestion(db1.entities[e2], e1, reason)])
  }

  /** Each side ends up holding one suggestion for the other, and an existing one is not repeated. */
  lemma SuggestedMergeRules(db: Db, e1: EntityId, e2: EntityId, reason: string)
    requires e1 in db.entities && e2 in db.entities && e1 != e2
    requires !(db.entities[e1].isReference && db.entities[e2].isReference)
    ensures var r := SuggestedMergeSpec(db, e1, e2, reason);
      var old1 := db.entities[e1].suggestedMerges.GetOr([]);
      var new1 := r.entities[e1].suggestedMerges.value;
      && r.entities[e1].suggestedMerges.Some? && r.entities[e2].suggestedMerges.Some?
      && HasSuggestionFor(new1, e2) && HasSuggestionFor(r.entities[e2].suggestedMerges.value, e1)
      && (HasSuggestionFor(old1, e2) ==> new1 == old1)
      && (!HasSuggestionFor(old1, e2) ==> new1 == old1 + [Suggestion(e2, reason)])
      && (forall x :: x in db.entities && x != e1 && x != e2 ==> r.entities[x] == db.entities[x])
  {
  }

  /** Repeating a suggestion changes nothing. */
  lemma SuggestedMergeIdempotent(db: Db, e1: EntityId, e2: EntityId, reason: string, reason2: string)
    ensures var r := SuggestedMergeSpec(db, e1, e2, reason);
      SuggestedMergeSpec(r, e1, e2, reason2) == r
  {
    var r := SuggestedMergeSpec(db, e1, e2, reason);
    if e1 in db.entities && e2 in db.entities && !(db.entities[e1].isReference && db.entities[e2].isReference) {
      var r2 := SuggestedMergeSpec(r, e1, e2, reason2);
      assert r2.entities == r.entities;
    }
  }

  /** Append `{id, reason}` to the entity's list unless an entry with that id is there. */
  method AppendSuggestion(e: Entity, id: EntityId, reason: string) returns (r: Entity)
    ensures r == AddSuggestion(e, id, reason)
  {
    var list := if e.suggestedMerges.None? then [] else e.suggestedMerges.value;
    var k := 0;
    while k < |list| && list[k].id != id
      invariant 0 <= k <= |list|
      invariant forall j :: 0 <= j < k ==> list[j].id != id
    {
      k := k + 1;
    }
    if k == |list| {
      list := list + [Suggestion(id, reason)];
    }
    r := e.(suggestedMerges := Some(list));
  }

  method SuggestedMergeEntities(s: Session, e1: EntityId, e2: EntityId, reason: string)
    modifies s
    ensures s.State() == SuggestedMergeSpec(old(s.State()), e1, e2, reason)
  {
    if e1 !in s.entities || e2 !in s.entities {
      return;
    }
    if s.entities[e1].isReference && s.entities[e2].isReference {
      return;
    }
    var entity1 := AppendSuggestion(s.entities[e1], e2, reason);
    s.entities := s.entities[e1 := entity1];
    var entity2 := AppendSuggestion(s.entities[e2], e1, reason);
    s.entities := s.entities[e2 := entity2];
  }

  /* ---- match_entity ---- */

  function ApplyAutos(db: Db, cfg: Config, autos: seq<PendingMerge>): (r: Db)
    requires KeysMatch(db.entities)
    ensures KeysMatch(r.entities)
  {
    if autos == [] then db
    else
      var a := autos[|autos| - 1];
      MergeSpec(ApplyAutos(db, cfg, autos[..|autos| - 1]), cfg, a.e1, a.e2, a.reason).db
  }

  function ApplySuggestions(db: Db, suggestions: seq<PendingMerge>): (r: Db)
    ensures r == db.(entities := r.entities) && r.entities.Keys == db.entities.Keys
  {
    if suggestions == [] then db
    else
      var x := suggestions[|suggestions| - 1];
      SuggestedMergeSpec(ApplySuggestions(db, suggestions[..|suggestions| - 1]), x.e1, x.e2, x.reason)
  }

  /** The bulk `UPDATE ... SET match_done = true`, which touches nothing when the entity is gone. */
  function SetMatchDone(db: Db, id: EntityId): (r: Db)
    ensures r == db.(entities := r.entities) && r.entities.Keys == db.entities.Keys
    ensures id in db.entities ==> r.entities[id] == db.entities[id].(matchDone := true)
    ensures forall x :: x in r.entities ==> r.entities[x].suggestedMerges == db.entities[x].suggestedMerges
  {
    if id in db.entities then db.(entities := db.entities[id := db.entities[id].(matchDone := true)]) else db
  }

  lemma SuggestionsKeepKeysMatch(db: Db, suggestions: seq<PendingMerge>)
    requires KeysMatch(db.entities)
    ensures KeysMatch(ApplySuggestions(db, suggestions).entities)
    decreases |suggestions|
  {
    if suggestions != [] {
      SuggestionsKeepKeysMatch(db, suggestions[..|suggestions| - 1]);
    }
  }

  /**
   * The kept side of every auto merge that goes through: `merge_entities`
   * assigns its `suggested_merges`, so the session tracks that column.
   */
  function AutoKept(db: Db, cfg: Config, autos: seq<PendingMerge>): set<EntityId>
    requires KeysMatch(db.entities)
    decreases |autos|
  {
    if autos == [] then {}
    else
      var a := autos[|autos| - 1];
      var before := ApplyAutos(db, cfg, autos[..|autos| - 1]);
      AutoKept(db, cfg, autos[..|autos| - 1]) +
        if MergeRefusal(before, a.e1, a.e2).None? then {KeptId(before, a.e1, a.e2)} else {}
  }

  /**
   * An append the commit loses: `suggested_merges` is a plain `ARRAY(JSON)`
   * column, so appending to the list an entity was loaded with is not seen
   * by the session unless the transaction assigned the column, as
   * `merge_entities` does for the kept entity. A list that was None is
   * replaced by a new one, which the session does see.
   */
  predicate AppendLost(loaded: map<EntityId, Entity>, kept: set<EntityId>, x: EntityId)
  {
    x in loaded && loaded[x].suggestedMerges.Some? && x !in kept
  }

  /** The entity `x` as the commit stores it: the loaded list when the append is lost. */
  function CommittedEntity(loaded: map<EntityId, Entity>, kept: set<EntityId>, x: EntityId, e: Entity): (r: Entity)
    ensures r == e.(suggestedMerges := r.suggestedMerges)
  {
    if AppendLost(loaded, kept, x) then e.(suggestedMerges := loaded[x].suggestedMerges) else e
  }

  /** The commit at the end of `match_entity`: every change is stored except the appends it loses. */
  function Committed(loaded: map<EntityId, Entity>, mem: Db, kept: set<EntityId>): (r: Db)
    ensures r == mem.(entities := r.entities) && r.entities.Keys == mem.entities.Keys
    ensures forall x :: x in r.entities ==> r.entities[x] == mem.entities[x].(suggestedMerges := r.entities[x].suggestedMerges)
  {
    mem.(entities := map x | x in mem.entities :: CommittedEntity(loaded, kept, x, mem.entities[x]))
  }

  /**
   * The store as `match_entity` would leave it if every suggestion were
   * stored: all auto merges, then all suggestions, then `match_done`.
   * This is the session's content just before the commit.
   */
  function ApplyMatchIntended(db: Db, cfg: Config, id: EntityId, p: Proposals): (r: Db)
    requires KeysMatch(db.entities)
    ensures KeysMatch(r.entities)
  {
    var db1 := ApplyAutos(db, cfg, p.autos);
    var db2 := ApplySuggestions(db1, p.suggestions);
    SuggestionsKeepKeysMatch(db1, p.suggestions);
    SetMatchDone(db2, id)
  }

  /** The store after one `match_entity`: the session's content, then the commit. */
  function ApplyMatch(db: Db, cfg: Config, id: EntityId, p: Proposals): (r: Db)
    requires KeysMatch(db.entities)
    ensures KeysMatch(r.entities)
  {
    Committed(db.entities, ApplyMatchIntended(db, cfg, id, p), AutoKept(db, cfg, p.autos))
  }

  /**
   * What the commit stores: every field but `suggested_merges` as the
   * session holds it; the session's list for an entity loaded without one
   * or kept by a merge; and the loaded list for any other entity.
   */
  lemma CommittedSuggestions(db: Db, cfg: Config, id: EntityId, p: Proposals, x: EntityId)
    requires KeysMatch(db.entities)
    ensures var r := ApplyMatch(db, cfg, id, p);
      var ri := ApplyMatchIntended(db, cfg, id, p);
      && r == ri.(entities := r.entities) && r.entities.Keys == ri.entities.Keys
      && (x in r.entities ==> r.entities[x].(suggestedMerges := ri.entities[x].suggestedMerges) == ri.entities[x])
      && (x in r.entities && (x !in db.entities || db.entities[x].suggestedMerges.None? || x in AutoKept(db, cfg, p.autos)) ==>
            r.entities[x] == ri.entities[x])
      && (x in r.entities && x in db.entities && db.entities[x].suggestedMerges.Some? && x !in AutoKept(db, cfg, p.autos) ==>
            r.entities[x].suggestedMerges == db.entities[x].suggestedMerges)
  {
  }

  /** With no list stored before the call, every suggestion is stored. */
  lemma NoStoredListsNothingLost(db: Db, cfg: Config, id: EntityId, p: Proposals)
    requires KeysMatch(db.entities)
    requires forall x :: x in db.entities ==> db.entities[x].suggestedMerges.None?
    ensures ApplyMatch(db, cfg, id, p) == ApplyMatchIntended(db, cfg, id, p)
  {
    var r := ApplyMatch(db, cfg, id, p);
    var ri := ApplyMatchIntended(db, cfg, id, p);
    assert r.entities == ri.entities;
  }

  /** A call with one suggestion and no auto merge: the suggestion in the session, then `match_done`, and no merge-kept entity. */
  lemma SingleSuggestionMatch(db: Db, cfg: Config, id: EntityId, a: EntityId, c: EntityId, reason: string)
    requires KeysMatch(db.entities)
    ensures var p := Proposals([], [PendingMerge(a, c, reason)], {});
      && ApplyMatchIntended(db, cfg, id, p) == SetMatchDone(SuggestedMergeSpec(db, a, c, reason), id)
      && AutoKept(db, cfg, p.autos) == {}
  {
    var p := Proposals([], [PendingMerge(a, c, reason)], {});
    assert p.suggestions[..0] == [];
    assert ApplyAutos(db, cfg, p.autos) == db;
    assert ApplySuggestions(db, p.suggestions[..0]) == db;
    assert ApplySuggestions(db, p.suggestions) == SuggestedMergeSpec(db, a, c, reason);
  }

  /**
   * The lost suggestion: `a` was stored with the list `l`, `c` with none,
   * and the call suggests `(a, c)`. The commit stores `a` unchanged and `c`
   * with `{a}`; as intended `a` would also hold `{c}`.
   */
  lemma SuggestionLostAsWritten(db: Db, cfg: Config, id: EntityId, a: EntityId, c: EntityId, reason: string, l: seq<Suggestion>)
    requires KeysMatch(db.entities) && a in db.entities && c in db.entities && a != c
    requires !(db.entities[a].isReference && db.entities[c].isReference)
    requires db.entities[a].suggestedMerges == Some(l) && !HasSuggestionFor(l, c)
    requires db.entities[c].suggestedMerges.None?
    ensures var p := Proposals([], [PendingMerge(a, c, reason)], {});
      && ApplyMatch(db, cfg, id, p).entities[a].suggestedMerges == Some(l)
      && ApplyMatch(db, cfg, id, p).entities[c].suggestedMerges == Some([Suggestion(a, reason)])
      && ApplyMatchIntended(db, cfg, id, p).entities[a].suggestedMerges == Some(l + [Suggestion(c, reason)])
  {
    var p := Proposals([], [PendingMerge(a, c, reason)], {});
    SingleSuggestionMatch(db, cfg, id, a, c, reason);
    var ea := AddSuggestion(db.entities[a], c, reason);
    var ec := AddSuggestion(db.entities[c], a, reason);
    AddSuggestionAppends(db.entities[a], c, reason);
    assert !HasSuggestionFor([], a);
    AddSuggestionAppends(db.entities[c], a, reason);
    assert [] + [Suggestion(a, reason)] == [Suggestion(a, reason)];
    var mem := SuggestedMergeSpec(db, a, c, reason);
    assert mem.entities == db.entities[a := ea][c := ec];
    CommittedSuggestions(db, cfg, id, p, a);
    CommittedSuggestions(db, cfg, id, p, c);
  }

  /** As intended, a suggestion with no auto merge before it leaves both sides holding it. */
  lemma IntendedMatchStoresSuggestion(db: Db, cfg: Config, id: EntityId, a: EntityId, c: EntityId, reason: string)
    requires KeysMatch(db.entities) && a in db.entities && c in db.entities && a != c
    requires !(db.entities[a].isReference && db.entities[c].isReference)
    ensures var r := ApplyMatchIntended(db, cfg, id, Proposals([], [PendingMerge(a, c, reason)], {}));
      && r.entities[a].suggestedMerges.Some? && HasSuggestionFor(r.entities[a].suggestedMerges.value, c)
      && r.entities[c].suggestedMerges.Some? && HasSuggestionFor(r.entities[c].suggestedMerges.value, a)
  {
    SingleSuggestionMatch(db, cfg, id, a, c, reason);
    SuggestedMergeRules(db, a, c, reason);
    var mem := SuggestedMergeSpec(db, a, c, reason);
    assert SetMatchDone(mem, id).entities[a].suggestedMerges == mem.entities[a].suggestedMerges;
    assert SetMatchDone(mem, id).entities[c].suggestedMerges == mem.entities[c].suggestedMerges;
  }

  /** The proposals of one `match_entity`: the matched views first, then the unmatched ones. */
  function MatchProposals(e: EntityView, matched: seq<EntityView>, toMatch: seq<EntityView>, marked: set<EntityId>, ratio: Ratio): Proposals
  {
    TryAll(Proposals([], [], marked), e, matched + toMatch, ratio)
  }

  method MatchEntity(s: Session, cfg: Config, ratio: Ratio, entity: EntityView,
                     matched: seq<EntityView>, toMatch: seq<EntityView>, marked: set<EntityId>)
    returns (markedAfter: set<EntityId>)
    requires KeysMatch(s.entities)
    modifies s
    ensures var p := MatchProposals(entity, matched, toMatch, marked, ratio);
      markedAfter == p.marked && s.State() == ApplyMatch(old(s.State()), cfg, entity.id, p)
  {
    var loaded := s.entities;
    var p := CollectProposals(entity, matched + toMatch, marked, ratio);
    var kept := ApplyAutoMerges(s, cfg, p.autos);
    ghost var db1 := s.State();
    ApplySuggestedMerges(s, p.suggestions);
    SuggestionsKeepKeysMatch(db1, p.suggestions);
    MarkMatchDone(s, entity.id);
    Commit(s, loaded, kept);
    markedAfter := p.marked;
  }

  /** `get_session().commit()` in the `finally` of `match_entity`. */
  method Commit(s: Session, loaded: map<EntityId, Entity>, kept: set<EntityId>)
    modifies s
    ensures s.State() == Committed(loaded, old(s.State()), kept)
  {
    s.entities := map x | x in s.entities :: CommittedEntity(loaded, kept, x, s.entities[x]);
  }

  /** The bulk `UPDATE ... SET match_done = true` on one entity. */
  method MarkMatchDone(s: Session, id: EntityId)
    modifies s
    ensures s.State() == SetMatchDone(old(s.State()), id)
  {
    if id in s.entities {
      s.entities := s.entities[id := s.entities[id].(matchDone := true)];
    }
  }

  /** The `try_to_match` loop of `match_entity`, which only collects proposals. */
  method CollectProposals(entity: EntityView, partners: seq<EntityView>, marked: set<EntityId>, ratio: Ratio)
    returns (p: Proposals)
    ensures p == TryAll(Proposals([], [], marked), entity, partners, ratio)
  {
    p := Proposals([], [], marked);
    for i := 0 to |partners|
      invariant p == TryAll(Proposals([], [], marked), entity, partners[..i], ratio)
    {
      assert partners[..i + 1][..i] == partners[..i];
      p := TryToMatch(p, entity, partners[i], ratio);
    }
    assert partners[..|partners|] == partners;
  }

  /** One more auto merge: the store is its merge, and its kept entity joins the set when it goes through. */
  lemma AutosSnoc(db: Db, cfg: Config, autos: seq<PendingMerge>, i: nat)
    requires KeysMatch(db.entities) && i < |autos|
    ensures var before := ApplyAutos(db, cfg, autos[..i]);
      var m := MergeSpec(before, cfg, autos[i].e1, autos[i].e2, autos[i].reason);
      && ApplyAutos(db, cfg, autos[..i + 1]) == m.db
      && AutoKept(db, cfg, autos[..i + 1]) == AutoKept(db, cfg, autos[..i]) +
           if m.ok then {KeptId(before, autos[i].e1, autos[i].e2)} else {}
  {
    assert autos[..i + 1][..i] == autos[..i];
    var before := ApplyAutos(db, cfg, autos[..i]);
    MergeRefusedWritesNothing(before, cfg, autos[i].e1, autos[i].e2, autos[i].reason);
  }

  /**
   * The auto merges of `match_entity`, in the order they were proposed,
   * with the entities whose `suggested_merges` they assign.
   */
  method ApplyAutoMerges(s: Session, cfg: Config, autos: seq<PendingMerge>) returns (kept: set<EntityId>)
    requires KeysMatch(s.entities)
    modifies s
    ensures KeysMatch(s.entities)
    ensures s.State() == ApplyAutos(old(s.State()), cfg, autos)
    ensures kept == AutoKept(old(s.State()), cfg, autos)
  {
    ghost var db0 := s.State();
    kept := {};
    for i := 0 to |autos|
      invariant KeysMatch(s.entities)
      invariant s.State() == ApplyAutos(db0, cfg, autos[..i])
      invariant kept == AutoKept(db0, cfg, autos[..i])
    {
      AutosSnoc(db0, cfg, autos, i);
      var before := s.State();
      var ok, _ := s.MergeEntities(cfg, autos[i].e1, autos[i].e2, autos[i].reason);
      if ok {
        kept := kept + {KeptId(before, autos[i].e1, autos[i].e2)};
      }
    }
    assert autos[..|autos|] == autos;
  }

  /** The suggested merges of `match_entity`, in the order they were proposed. */
  method ApplySuggestedMerges(s: Session, suggestions: seq<PendingMerge>)
    modifies s
    ensures s.State() == ApplySuggestions(old(s.State()), suggestions)
  {
    ghost var db0 := s.State();
    for i := 0 to |suggestions|
      invariant s.State() == ApplySuggestions(db0, suggestions[..i])
    {
      assert suggestions[..i + 1][..i] == suggestions[..i];
      SuggestedMergeEntities(s, suggestions[i].e1, suggestions[i].e2, suggestions[i].reason);
    }
    assert suggestions[..|suggestions|] == suggestions;
  }

  /* ---- the pass ---- */

  /** `main`: pop the last unmatched view, match it against the matched views and the remaining ones. */
  function PassSpec(db: Db, cfg: Config, ratio: Ratio, matched: seq<EntityView>, toMatch: seq<EntityView>, marked: set<EntityId>): (r: Db)
    requires KeysMatch(db.entities)
    ensures KeysMatch(r.entities)
    decreases |toMatch|
  {
    if toMatch == [] then db
    else
      var e := toMatch[|toMatch| - 1];
      var rest := toMatch[..|toMatch| - 1];
      var p := MatchProposals(e, matched, rest, marked, ratio);
      PassSpec(ApplyMatch(db, cfg, e.id, p), cfg, ratio, matched, rest, p.marked)
  }

  /** One grouping run over the whole store. */
  function GroupingSpec(db: Db, cfg: Config, ratio: Ratio): (r: Db)
    requires KeysMatch(db.entities)
    ensures KeysMatch(r.entities)
  {
    var (matched, toMatch) := Repartition(db, db.rows);
    PassSpec(db, cfg, ratio, matched, toMatch, {})
  }

  method RunGrouping(s: Session, cfg: Config, ratio: Ratio)
    requires KeysMatch(s.entities)
    modifies s
    ensures s.State() == GroupingSpec(old(s.State()), cfg, ratio)
  {
    ghost var db0 := s.State();
    var matched, toMatch := GetRepartition(s);
    var marked: set<EntityId> := {};
    while |toMatch| > 0
      invariant KeysMatch(s.entities)
      invariant PassSpec(s.State(), cfg, ratio, matched, toMatch, marked) == GroupingSpec(db0, cfg, ratio)
      decreases |toMatch|
    {
      var entity := toMatch[|toMatch| - 1];
      toMatch := toMatch[..|toMatch| - 1];
      marked := MatchEntity(s, cfg, ratio, entity, matched, toMatch, marked);
    }
  }

  /* ---- which pairs the pass compares ---- */

  /** The `try_to_match` calls of a pass, as (popped id, partner id), in call order. */
  function PassPairs(matched: seq<EntityView>, toMatch: seq<EntityView>): seq<(EntityId, EntityId)>
    decreases |toMatch|
  {
    if toMatch == [] then []
    else
      var e := toMatch[|toMatch| - 1];
      var rest := toMatch[..|toMatch| - 1];
      PairsWith(e.id, matched + rest) + PassPairs(matched, rest)
  }

  function PairsWith(id: EntityId, partners: seq<EntityView>): (r: seq<(EntityId, EntityId)>)
    ensures |r| == |partners| && forall k :: 0 <= k < |partners| ==> r[k] == (id, partners[k].id)
  {
    seq(|partners|, k requires 0 <= k < |partners| => (id, partners[k].id))
  }

  /** The proposals of the pass come from exactly these calls: `PassPairs` lists the calls the pass makes. */
  predicate DistinctIds(vs: seq<EntityView>)
  {
    forall i, j :: 0 <= i < j < |vs| ==> vs[i].id != vs[j].id
  }

  /** `p` pairs the `j`-th unmatched view with a view that comes before it in `matched + toMatch`. */
  ghost predicate PairedBefore(matched: seq<EntityView>, toMatch: seq<EntityView>, p: (EntityId, EntityId))
  {
    exists j, k :: 0 <= j < |toMatch| && 0 <= k < |matched| + j
      && p.0 == toMatch[j].id && p.1 == (matched + toMatch)[k].id
  }

  /** Every call pairs a popped view with a matched view or with an unmatched one listed before it. */
  lemma {:induction false} PassPairsSound(matched: seq<EntityView>, toMatch: seq<EntityView>)
    ensures forall p :: p in PassPairs(matched, toMatch) ==> PairedBefore(matched, toMatch, p)
    decreases |toMatch|
  {
    if toMatch != [] {
      var n := |toMatch| - 1;
      var rest := toMatch[..n];
      PassPairsSound(matched, rest);
      var head := PairsWith(toMatch[n].id, matched + rest);
      forall p | p in PassPairs(matched, toMatch) ensures PairedBefore(matched, toMatch, p) {
        if p in head {
          var k :| 0 <= k < |head| && head[k] == p;
          assert (matched + rest)[k] == (matched + toMatch)[k];
        } else {
          assert PairedBefore(matched, rest, p);
          var j, k :| 0 <= j < |rest| && 0 <= k < |matched| + j
            && p.0 == rest[j].id && p.1 == (matched + rest)[k].id;
          assert (matched + rest)[k] == (matched + toMatch)[k];
          assert rest[j] == toMatch[j];
        }
      }
    }
  }

  /** With distinct ids, each such pairing is made exactly once. */
  lemma {:induction false} PassPairsCount(matched: seq<EntityView>, toMatch: seq<EntityView>)
    requires DistinctIds(matched + toMatch)
    ensures forall j, k :: 0 <= j < |toMatch| && 0 <= k < |matched| + j ==>
      multiset(PassPairs(matched, toMatch))[(toMatch[j].id, (matched + toMatch)[k].id)] == 1
    decreases |toMatch|
  {
    if toMatch != [] {
      var n := |toMatch| - 1;
      var e := toMatch[n];
      var rest := toMatch[..n];
      assert matched + toMatch == (matched + rest) + [e];
      assert DistinctIds(matched + rest) by {
        forall i, j | 0 <= i < j < |matched + rest| ensures (matched + rest)[i].id != (matched + rest)[j].id {
          assert (matched + rest)[i] == (matched + toMatch)[i];
          assert (matched + rest)[j] == (matched + toMatch)[j];
        }
      }
      PassPairsCount(matched, rest);
      var head := PairsWith(e.id, matched + rest);
      var tail := PassPairs(matched, rest);
      assert PassPairs(matched, toMatch) == head + tail;
      assert forall k :: 0 <= k < |rest| ==> rest[k].id != e.id by {
        forall k | 0 <= k < |rest| ensures rest[k].id != e.id {
          assert (matched + toMatch)[|matched| + k] == rest[k];
          assert (matched + toMatch)[|matched| + n] == e;
        }
      }
      PassPairsFirst(matched, rest, e.id);
      forall j, k | 0 <= j < |toMatch| && 0 <= k < |matched| + j
        ensures multiset(head + tail)[(toMatch[j].id, (matched + toMatch)[k].id)] == 1
      {
        assert (matched + toMatch)[k] == (matched + rest)[k];
        if j == n {
          PairsWithCount(e.id, matched + rest, k);
        } else {
          assert toMatch[j] == rest[j];
          assert toMatch[j].id != e.id;
          assert (toMatch[j].id, (matched + toMatch)[k].id) !in head;
        }
      }
    }
  }

  /** Two unmatched entities are compared once, the later one in the list being popped first. */
  lemma UnmatchedPairsComparedOnce(matched: seq<EntityView>, toMatch: seq<EntityView>, i: nat, j: nat)
    requires DistinctIds(matched + toMatch) && i < j < |toMatch|
    ensures multiset(PassPairs(matched, toMatch))[(toMatch[j].id, toMatch[i].id)] == 1
    ensures (toMatch[i].id, toMatch[j].id) !in PassPairs(matched, toMatch)
  {
    var all := matched + toMatch;
    PassPairsSound(matched, toMatch);
    PassPairsCount(matched, toMatch);
    assert all[|matched| + i] == toMatch[i];
    assert all[|matched| + j] == toMatch[j];
    assert !PairedBefore(matched, toMatch, (toMatch[i].id, toMatch[j].id)) by {
      forall j', k | 0 <= j' < |toMatch| && 0 <= k < |matched| + j'
        ensures !(toMatch[i].id == toMatch[j'].id && toMatch[j].id == all[k].id)
      {
        assert all[|matched| + j'] == toMatch[j'];
      }
    }
  }

  /** An unmatched entity is compared once with each matched one. */
  lemma UnmatchedMeetsMatchedOnce(matched: seq<EntityView>, toMatch: seq<EntityView>, i: nat, j: nat)
    requires DistinctIds(matched + toMatch) && i < |matched| && j < |toMatch|
    ensures multiset(PassPairs(matched, toMatch))[(toMatch[j].id, matched[i].id)] == 1
  {
    PassPairsCount(matched, toMatch);
    assert (matched + toMatch)[i] == matched[i];
  }

  /** Two matched entities are never compared with each other. */
  lemma MatchedNeverCompared(matched: seq<EntityView>, toMatch: seq<EntityView>, i: nat, j: nat)
    requires DistinctIds(matched + toMatch) && i < |matched| && j < |matched|
    ensures (matched[i].id, matched[j].id) !in PassPairs(matched, toMatch)
  {
    var all := matched + toMatch;
    PassPairsSound(matched, toMatch);
    assert all[i] == matched[i];
    assert !PairedBefore(matched, toMatch, (matched[i].id, matched[j].id)) by {
      forall j' | 0 <= j' < |toMatch| ensures matched[i].id != toMatch[j'].id {
        assert all[|matched| + j'] == toMatch[j'];
      }
    }
  }

  /** The popped id never appears first in a pair of the rest of the pass. */
  lemma PassPairsFirst(matched: seq<EntityView>, rest: seq<EntityView>, id: EntityId)
    requires forall k :: 0 <= k < |rest| ==> rest[k].id != id
    ensures forall x :: multiset(PassPairs(matched, rest))[(id, x)] == 0
    decreases |rest|
  {
    if rest != [] {
      var n := |rest| - 1;
      PassPairsFirst(matched, rest[..n], id);
      assert rest[n].id != id;
    }
  }

  /** With distinct partners, each partner is paired once. */
  lemma PairsWithCount(id: EntityId, partners: seq<EntityView>, k: nat)
    requires k < |partners| && DistinctIds(partners)
    ensures multiset(PairsWith(id, partners))[(id, partners[k].id)] == 1
    decreases |partners|
  {
    var ps := PairsWith(id, partners);
    var n := |partners| - 1;
    assert partners == partners[..n] + [partners[n]];
    assert ps == PairsWith(id, partners[..n]) + [(id, partners[n].id)];
    assert DistinctIds(partners[..n]);
    if k < n {
      PairsWithCount(id, partners[..n], k);
    } else {
      assert forall j :: 0 <= j < n ==> partners[..n][j].id != partners[k].id;
    }
  }

  /* ---- one auto merge per entity per pass ---- */

  /** All auto merges a pass proposes, in order; proposals depend only on the views and the marks. */
  function PassAutos(matched: seq<EntityView>, toMatch: seq<EntityView>, marked: set<EntityId>, ratio: Ratio): (seq<PendingMerge>, set<EntityId>)
    decreases |toMatch|
  {
    if toMatch == [] then ([], marked)
    else
      var e := toMatch[|toMatch| - 1];
      var rest := toMatch[..|toMatch| - 1];
      var p := MatchProposals(e, matched, rest, marked, ratio);
      var (later, finalMarks) := PassAutos(matched, rest, p.marked, ratio);
      (p.autos + later, finalMarks)
  }

  /** Over a whole pass, no entity takes part in two auto merges. */
  lemma {:induction false} EachEntityInOneAutoMergePerPass(matched: seq<EntityView>, toMatch: seq<EntityView>,
                                                          marked: set<EntityId>, ratio: Ratio, previous: seq<PendingMerge>)
    requires AutosDisjoint(previous, marked)
    ensures AutosDisjoint(previous + PassAutos(matched, toMatch, marked, ratio).0, PassAutos(matched, toMatch, marked, ratio).1)
    decreases |toMatch|
  {
    if toMatch == [] {
      assert previous + [] == previous;
    } else {
      var e := toMatch[|toMatch| - 1];
      var rest := toMatch[..|toMatch| - 1];
      var p := MatchProposals(e, matched, rest, marked, ratio);
      assert previous + [] == previous;
      TryAllKeepsAutosDisjoint(Proposals([], [], marked), e, matched + rest, ratio, previous);
      EachEntityInOneAutoMergePerPass(matched, rest, p.marked, ratio, previous + p.autos);
      var later := PassAutos(matched, rest, p.marked, ratio).0;
      assert previous + (p.autos + later) == (previous + p.autos) + later;
    }
  }
}

// Source acquisition (source_acquisition/main.py): the timelines of the
// reference entities are read, and every link or mention in a tweet that is
// not a reply becomes an origin. Web sites, Twitter accounts and RSS feeds are
// looked up by their key (base URL or screen name): an unknown one is created
// with one occurrence and a new entity, a known one gets one occurrence more.
// Each cited origin is linked to the citing group, and the timeline cursor of
// the reference moves to the highest tweet id read.
module SourceAcquisition {
  import opened Wrappers
  import Shared
  import opened Orm

  /* ---- what the Twitter API and the web return ---- */

  /** One entry of a tweet's `urls`: the link as written and the link Twitter expanded it to. */
  datatype TweetUrl = TweetUrl(url: Option<string>, expandedUrl: string)

  /** A status of a user timeline; `userMentions` holds the screen names mentioned. */
  datatype Status = Status(id: int, fullText: string, inReplyToStatusId: Option<int>,
                           urls: seq<TweetUrl>, userMentions: seq<string>)

  /** What `GetUser` returns (`url`, `description`, `location`), or the Twitter error it raises. */
  datatype UserLookup =
    | UserFound(url: Option<string>, description: Option<string>, location: Option<string>)
    | UserError(message: string)

  /**
   * The network and regex services, as parameters: the target a HEAD request
   * is redirected to, `re.search(pattern, url) is not None`, `find_rss_feed`,
   * `GetUser`, and `GetUserTimeline(screen_name, since_id, count)` (None when
   * it raises a Twitter error).
   */
  datatype Services = Services(
    resolve: string -> string,
    search: (string, string) -> bool,
    findFeed: string -> Option<string>,
    getUser: string -> UserLookup,
    timeline: (string, Option<int>, nat) -> Option<seq<Status>>)

  /** `get_full_url` with the configured shortener extensions. */
  function Expand(url: Option<string>, cfg: Config, sv: Services): Option<string>
  {
    Shared.GetFullUrl(url, cfg.urlExtensionsToCheckForTrueUrl, if url.Some? then sv.resolve(url.value) else "")
  }

  /* ---- origins by key ---- */

  /** The column each origin table is queried by. */
  datatype Key = ScreenName(name: string) | WebBase(base: Option<string>) | RssBase(rssBase: Option<string>)

  function KeyOf(o: Origin): Key
  {
    match o.detail
    case TwitterOrigin(n, _, _) => ScreenName(n)
    case WebOrigin(_, _, b) => WebBase(b)
    case RssOrigin(b, _, _) => RssBase(b)
  }

  /** `query(...).filter(<key column> == ...).first()`: the position of the first origin with the key. */
  function Lookup(os: seq<Origin>, k: Key): (r: Option<nat>)
    ensures r.Some? ==> r.value < |os| && KeyOf(os[r.value]) == k
    ensures r.Some? ==> forall j :: 0 <= j < r.value ==> KeyOf(os[j]) != k
    ensures r.None? <==> forall j :: 0 <= j < |os| ==> KeyOf(os[j]) != k
  {
    if os == [] then None
    else if KeyOf(os[0]) == k then Some(0)
    else
      match Lookup(os[1..], k)
      case None => None
      case Some(i) => Some(i + 1)
  }

  /** No two origins share a key: screen names are unique, and there is one web and one RSS origin per base URL. */
  predicate Unique(os: seq<Origin>)
  {
    forall i, j :: 0 <= i < j < |os| ==> KeyOf(os[i]) != KeyOf(os[j])
  }

  /** `b` is `a` with more origins after it and, on the old ones, only higher occurrence counts. */
  ghost predicate Extends(a: seq<Origin>, b: seq<Origin>)
  {
    && |a| <= |b|
    && forall j :: 0 <= j < |a| ==>
         b[j] == a[j].(occurrences := b[j].occurrences) && b[j].occurrences >= a[j].occurrences
  }

  /** `b` is `a` with more origins after it, and the old ones keep their key. */
  ghost predicate KeysKept(a: seq<Origin>, b: seq<Origin>)
  {
    |a| <= |b| && forall j :: 0 <= j < |a| ==> KeyOf(b[j]) == KeyOf(a[j])
  }

  lemma ExtendsTrans(a: seq<Origin>, b: seq<Origin>, c: seq<Origin>)
    requires Extends(a, b) && Extends(b, c)
    ensures Extends(a, c)
  {
    forall j | 0 <= j < |a|
      ensures c[j] == a[j].(occurrences := c[j].occurrences) && c[j].occurrences >= a[j].occurrences
    {
      assert b[j] == a[j].(occurrences := b[j].occurrences);
    }
  }

  lemma ExtendsKeepsKeys(a: seq<Origin>, b: seq<Origin>)
    requires Extends(a, b)
    ensures KeysKept(a, b)
  {
    forall j | 0 <= j < |a| ensures KeyOf(b[j]) == KeyOf(a[j]) {
      assert b[j].detail == a[j].detail;
    }
  }

  lemma KeysKeptTrans(a: seq<Origin>, b: seq<Origin>, c: seq<Origin>)
    requires KeysKept(a, b) && KeysKept(b, c)
    ensures KeysKept(a, c)
  {
  }

  /** A keyed origin whose key is not yet present can be added without a duplicate. */
  lemma UniqueAppend(os: seq<Origin>, o: Origin)
    requires Unique(os) && Lookup(os, KeyOf(o)).None?
    ensures Unique(os + [o])
  {
    var t := os + [o];
    forall i, j | 0 <= i < j < |t| ensures KeyOf(t[i]) != KeyOf(t[j]) {
      if j == |os| {
        assert KeyOf(os[i]) != KeyOf(o);
      } else {
        assert t[i] == os[i] && t[j] == os[j];
      }
    }
  }

  /** Changing an origin in a way that keeps its key keeps the keys unique. */
  lemma UniqueUpdate(os: seq<Origin>, i: nat, o: Origin)
    requires Unique(os) && i < |os| && KeyOf(o) == KeyOf(os[i])
    ensures Unique(os[i := o])
  {
    var t := os[i := o];
    assert forall j :: 0 <= j < |t| ==> KeyOf(t[j]) == KeyOf(os[j]);
  }

  /* ---- the upserts ---- */

  /** `occurrences += 1` on the origin at position `i` (a count left at None is 0 here, so both branches agree). */
  function Bumped(db: Db, i: nat): (r: Db)
    requires i < |db.origins|
    ensures Extends(db.origins, r.origins) && |r.origins| == |db.origins|
    ensures r.origins[i].occurrences == db.origins[i].occurrences + 1
    ensures Unique(db.origins) ==> Unique(r.origins)
  {
    var o := db.origins[i];
    var o1 := o.(occurrences := o.occurrences + 1);
    UniqueIfUnique(db.origins, i, o1);
    db.(origins := db.origins[i := o1])
  }

  lemma UniqueIfUnique(os: seq<Origin>, i: nat, o: Origin)
    requires i < |os| && KeyOf(o) == KeyOf(os[i])
    ensures Unique(os) ==> Unique(os[i := o])
  {
    if Unique(os) { UniqueUpdate(os, i, o); }
  }

  /** A new origin with one occurrence, owned by a new non-reference entity called `name`. */
  function Created(db: Db, name: string, detail: OriginDetail): Db
  {
    var eid := db.nextId;
    var o := Origin(db.nextId + 1, Some(eid), 1, None, true, detail);
    db.(entities := db.entities[eid := NewEntity(eid, name, false)], rows := db.rows + [eid],
        origins := db.origins + [o], nextId := db.nextId + 2)
  }

  /** `save_origin_content_relation`. */
  function Related(db: Db, content: ContentId, origin: OriginId): Db
  {
    db.(contentOrigins := db.contentOrigins + [ContentOrigin(content, origin)])
  }

  /**
   * `retrieve_and_associate_twitter_profile`: on success the profile (its url
   * expanded) is attached and the location overwritten, even by None; on a
   * Twitter error the origin is left as it was.
   */
  function Associated(d: OriginDetail, cfg: Config, sv: Services): (r: OriginDetail)
    requires d.TwitterOrigin?
    ensures r.TwitterOrigin? && r.screenName == d.screenName
  {
    match sv.getUser(d.screenName)
    case UserError(_) => d
    case UserFound(url, description, location) =>
      d.(profile := Some(TwitterProfile(Expand(url, cfg, sv), description)), location := location)
  }

  /** The store after an upsert, and the origin it returns (None for an ignored URL). */
  datatype Upsert = Upsert(db: Db, origin: Option<OriginId>)

  /** `add_twitter_origin(content, user)`. */
  function AddTwitterOriginSpec(db: Db, cfg: Config, sv: Services, content: ContentId, screenName: string): (r: Upsert)
    ensures r.origin.Some?
    ensures Extends(db.origins, r.db.origins)
    ensures Unique(db.origins) ==> Unique(r.db.origins)
    ensures r.db.edges == db.edges && r.db.contents == db.contents
  {
    match Lookup(db.origins, ScreenName(screenName))
    case Some(i) =>
      Upsert(Related(Bumped(db, i), content, db.origins[i].id), Some(db.origins[i].id))
    case None =>
      var d := Associated(TwitterOrigin(screenName, None, None), cfg, sv);
      var db1 := Created(db, screenName, d);
      UniqueIfAppended(db.origins, db1.origins[|db.origins|]);
      Upsert(Related(db1, content, db.nextId + 1), Some(db.nextId + 1))
  }

  lemma UniqueIfAppended(os: seq<Origin>, o: Origin)
    requires Lookup(os, KeyOf(o)).None?
    ensures Unique(os) ==> Unique(os + [o])
  {
    if Unique(os) { UniqueAppend(os, o); }
  }

  /**
   * `add_rss_origin(web_origin)` for the web origin `web`, whose base URL is
   * `base` and whose owner is `owner`.
   */
  function AddRssOriginSpec(db: Db, sv: Services, web: OriginId, base: string, owner: Option<EntityId>): (r: Db)
    ensures Extends(db.origins, r.origins)
    ensures Unique(db.origins) ==> Unique(r.origins)
    ensures r.edges == db.edges && r.contents == db.contents && r.contentOrigins == db.contentOrigins
    ensures forall j :: 0 <= j < |db.origins| && KeyOf(db.origins[j]) != RssBase(Some(base)) ==> r.origins[j] == db.origins[j]
    ensures forall j :: |db.origins| <= j < |r.origins| ==> KeyOf(r.origins[j]) == RssBase(Some(base))
  {
    match Lookup(db.origins, RssBase(Some(base)))
    case Some(i) => Bumped(db, i)
    case None =>
      match sv.findFeed(base)
      case None => db
      case Some(feed) =>
        var o := Origin(db.nextId, owner, 1, None, true,
                        RssOrigin(Some(base), Shared.CleanRssPath(Some(feed), base), Some(web)));
        UniqueIfAppended(db.origins, o);
        db.(origins := db.origins + [o], nextId := db.nextId + 1)
  }

  /** The full URL of a tweet link: `get_full_url(expanded_url, ...)`. */
  function FullUrl(url: TweetUrl, cfg: Config, sv: Services): string
  {
    Expand(Some(url.expandedUrl), cfg, sv).value
  }

  /** `get_base_url(full_url, ...)`. */
  function BaseOf(full: string, cfg: Config): string
  {
    Shared.GetBaseUrl(Some(full), cfg.domainsWhereNextElementMatters).value
  }

  predicate Ignored(url: TweetUrl, cfg: Config, sv: Services)
  {
    Shared.CheckIfUrlMatchPattern(FullUrl(url, cfg, sv), cfg.urlPatternsToIgnore, sv.search)
  }

  predicate SkipsFeedSearch(url: TweetUrl, cfg: Config, sv: Services)
  {
    Shared.CheckIfUrlMatchPattern(FullUrl(url, cfg, sv), cfg.ignoreForRssSearch, sv.search)
  }

  /** The web origin upsert of `add_web_origin`, before the content relation and the feed search. */
  function WebUpsert(db: Db, url: TweetUrl, full: string, base: string): (r: Db)
    ensures Extends(db.origins, r.origins)
    ensures Unique(db.origins) ==> Unique(r.origins)
    ensures r.edges == db.edges && r.contents == db.contents && r.contentOrigins == db.contentOrigins
  {
    match Lookup(db.origins, WebBase(Some(base)))
    case Some(i) => Bumped(db, i)
    case None =>
      var db1 := Created(db, base, WebOrigin(url.url, Some(full), Some(base)));
      UniqueIfAppended(db.origins, db1.origins[|db.origins|]);
      db1
  }

  /** The web origin `WebUpsert` returns, and its owner. */
  function WebUpserted(db: Db, base: string): (OriginId, Option<EntityId>)
  {
    match Lookup(db.origins, WebBase(Some(base)))
    case Some(i) => (db.origins[i].id, db.origins[i].entity)
    case None => (db.nextId + 1, Some(db.nextId))
  }

  /** `add_web_origin(content, url)`. */
  function AddWebOriginSpec(db: Db, cfg: Config, sv: Services, content: ContentId, url: TweetUrl): (r: Upsert)
    ensures Extends(db.origins, r.db.origins)
    ensures Unique(db.origins) ==> Unique(r.db.origins)
    ensures r.db.edges == db.edges && r.db.contents == db.contents
  {
    if Ignored(url, cfg, sv) then Upsert(db, None)
    else
      var full := FullUrl(url, cfg, sv);
      var base := BaseOf(full, cfg);
      var db1 := WebUpsert(db, url, full, base);
      var (web, owner) := WebUpserted(db, base);
      var db2 := Related(db1, content, web);
      var db3 := if SkipsFeedSearch(url, cfg, sv) then db2 else AddRssOriginSpec(db2, sv, web, base, owner);
      ExtendsTrans(db.origins, db1.origins, db3.origins);
      Upsert(db3, Some(web))
  }

  /* ---- properties of the upserts ---- */

  /** How many occurrences the origin with key `k` has; 0 when there is none. */
  function Occurrences(os: seq<Origin>, k: Key): nat
  {
    match Lookup(os, k)
    case None => 0
    case Some(i) => os[i].occurrences
  }

  /** An unknown screen name gets one origin, with one occurrence, owned by a new non-reference entity named after it. */
  lemma AddTwitterOriginCreates(db: Db, cfg: Config, sv: Services, content: ContentId, screenName: string)
    requires Lookup(db.origins, ScreenName(screenName)).None?
    ensures var r := AddTwitterOriginSpec(db, cfg, sv, content, screenName);
      && |r.db.origins| == |db.origins| + 1
      && r.db.origins[..|db.origins|] == db.origins
      && var o := r.db.origins[|db.origins|];
         && o.detail.TwitterOrigin? && o.detail.screenName == screenName && o.occurrences == 1
         && o.entity == Some(db.nextId) && Some(o.id) == r.origin
         && r.db.entities == db.entities[db.nextId := NewEntity(db.nextId, screenName, false)]
  {
  }

  /** A known screen name gets one occurrence more, on the first origin with that name, and nothing else changes but the content relation. */
  lemma AddTwitterOriginIncrements(db: Db, cfg: Config, sv: Services, content: ContentId, screenName: string)
    requires Lookup(db.origins, ScreenName(screenName)).Some?
    ensures var i := Lookup(db.origins, ScreenName(screenName)).value;
      var r := AddTwitterOriginSpec(db, cfg, sv, content, screenName);
      && r.db.origins == db.origins[i := db.origins[i].(occurrences := db.origins[i].occurrences + 1)]
      && r.db.entities == db.entities && r.db.nextId == db.nextId
      && r.origin == Some(db.origins[i].id)
  {
  }

  /** Either way the screen name has one occurrence more, and the content relation is recorded. */
  lemma AddTwitterOriginCounts(db: Db, cfg: Config, sv: Services, content: ContentId, screenName: string)
    ensures var r := AddTwitterOriginSpec(db, cfg, sv, content, screenName);
      && Occurrences(r.db.origins, ScreenName(screenName)) == Occurrences(db.origins, ScreenName(screenName)) + 1
      && r.db.contentOrigins == db.contentOrigins + [ContentOrigin(content, r.origin.value)]
  {
    var k := ScreenName(screenName);
    var r := AddTwitterOriginSpec(db, cfg, sv, content, screenName).db.origins;
    match Lookup(db.origins, k)
    case Some(i) =>
      assert r == Bumped(db, i).origins;
      OccurrencesBumped(db, i, k);
    case None =>
      var d := Associated(TwitterOrigin(screenName, None, None), cfg, sv);
      assert r == Created(db, screenName, d).origins;
      OccurrencesCreated(db, screenName, d, k);
  }

  /** A link matching `url_patterns_to_ignore` is not recorded at all. */
  lemma AddWebOriginIgnores(db: Db, cfg: Config, sv: Services, content: ContentId, url: TweetUrl)
    requires Ignored(url, cfg, sv)
    ensures AddWebOriginSpec(db, cfg, sv, content, url) == Upsert(db, None)
  {
  }

  /**
   * Any other link is upserted by its base URL, with the same create or
   * increment rule as screen names, and its content relation is recorded.
   */
  lemma AddWebOriginUpserts(db: Db, cfg: Config, sv: Services, content: ContentId, url: TweetUrl)
    requires !Ignored(url, cfg, sv)
    ensures var r := AddWebOriginSpec(db, cfg, sv, content, url);
      var base := BaseOf(FullUrl(url, cfg, sv), cfg);
      && r.origin.Some?
      && r.db.contentOrigins == db.contentOrigins + [ContentOrigin(content, r.origin.value)]
      && Occurrences(r.db.origins, WebBase(Some(base))) == Occurrences(db.origins, WebBase(Some(base))) + 1
  {
    var full := FullUrl(url, cfg, sv);
    var base := BaseOf(full, cfg);
    var db1 := WebUpsert(db, url, full, base);
    WebUpsertCounts(db, url, full, base);
    var (web, owner) := WebUpserted(db, base);
    var db2 := Related(db1, content, web);
    var r := AddWebOriginSpec(db, cfg, sv, content, url);
    if !SkipsFeedSearch(url, cfg, sv) {
      assert r.db == AddRssOriginSpec(db2, sv, web, base, owner);
      OccurrencesOtherKey(db2.origins, r.db.origins, WebBase(Some(base)), RssBase(Some(base)));
    }
  }

  lemma WebUpsertCounts(db: Db, url: TweetUrl, full: string, base: string)
    ensures var k := WebBase(Some(base));
      Occurrences(WebUpsert(db, url, full, base).origins, k) == Occurrences(db.origins, k) + 1
  {
    var k := WebBase(Some(base));
    var r := WebUpsert(db, url, full, base).origins;
    match Lookup(db.origins, k)
    case Some(i) =>
      assert r == Bumped(db, i).origins;
      OccurrencesBumped(db, i, k);
    case None =>
      var d := WebOrigin(url.url, Some(full), Some(base));
      assert r == Created(db, base, d).origins;
      OccurrencesCreated(db, base, d, k);
  }

  /** One occurrence more on the first origin of a key is one occurrence more for the key. */
  lemma OccurrencesBumped(db: Db, i: nat, k: Key)
    requires Lookup(db.origins, k) == Some(i)
    ensures Occurrences(Bumped(db, i).origins, k) == Occurrences(db.origins, k) + 1
  {
    var bs := Bumped(db, i).origins;
    assert forall j :: 0 <= j < |db.origins| ==> KeyOf(bs[j]) == KeyOf(db.origins[j]);
    assert Lookup(bs, k) == Some(i);
  }

  /** A key no origin has gets the one occurrence of the origin created for it. */
  lemma OccurrencesCreated(db: Db, name: string, detail: OriginDetail, k: Key)
    requires Lookup(db.origins, k).None? && KeyOf(Origin(0, None, 0, None, true, detail)) == k
    ensures Occurrences(Created(db, name, detail).origins, k) == 1
  {
    var os := Created(db, name, detail).origins;
    assert forall j :: 0 <= j < |db.origins| ==> os[j] == db.origins[j];
    assert KeyOf(os[|db.origins|]) == k;
    assert Lookup(os, k) == Some(|db.origins|);
  }

  /** Changes confined to the origins of another key leave the count of `k` as it was. */
  lemma OccurrencesOtherKey(a: seq<Origin>, b: seq<Origin>, k: Key, other: Key)
    requires Extends(a, b) && k != other
    requires forall j :: 0 <= j < |a| && KeyOf(a[j]) != other ==> b[j] == a[j]
    requires forall j :: |a| <= j < |b| ==> KeyOf(b[j]) == other
    ensures Occurrences(b, k) == Occurrences(a, k)
  {
    ExtendsKeepsKeys(a, b);
    assert Lookup(b, k) == Lookup(a, k);
  }

  /**
   * The feed search: an RSS origin already known for the base URL gets one
   * occurrence more; otherwise a feed found for it becomes a new RSS origin
   * with one occurrence, derived from the web origin and owned by the same
   * entity; no feed found changes nothing.
   */
  lemma AddRssOriginRules(db: Db, sv: Services, web: OriginId, base: string, owner: Option<EntityId>)
    ensures var r := AddRssOriginSpec(db, sv, web, base, owner);
      var found := Lookup(db.origins, RssBase(Some(base)));
      && (found.Some? ==> r.origins == db.origins[found.value := db.origins[found.value].(occurrences := db.origins[found.value].occurrences + 1)])
      && (found.None? && sv.findFeed(base).None? ==> r == db)
      && (found.None? && sv.findFeed(base).Some? ==>
            && |r.origins| == |db.origins| + 1 && r.origins[..|db.origins|] == db.origins
            && var o := r.origins[|db.origins|];
               && o.occurrences == 1 && o.entity == owner
               && o.detail == RssOrigin(Some(base), Shared.CleanRssPath(sv.findFeed(base), base), Some(web)))
  {
  }

  /* ---- processing a timeline ---- */

  /** The store after a step, and whether the step raised; the source commits what was added before the exception. */
  datatype Run = Run(db: Db, raised: bool)

  /**
   * `save_origin_group_relation(origin, ref, content)`: the edge carries the
   * group of the citing entity, and dereferencing a missing group raises.
   */
  function Cited(db: Db, origin: OriginId, ref: Entity, content: ContentId): (r: Run)
    ensures r.raised <==> ref.groupId.None?
    ensures !r.raised ==> r.db.edges == db.edges + [OriginGroup(origin, ref.groupId.value, ref.id, content)]
    ensures r.db.origins == db.origins && r.db.contents == db.contents
  {
    match ref.groupId
    case None => Run(db, true)
    case Some(g) => Run(db.(edges := db.edges + [OriginGroup(origin, g, ref.id, content)]), false)
  }

  /** The `for url in t.urls` loop of `process_tweets`. */
  function ProcessUrlsSpec(db: Db, cfg: Config, sv: Services, ref: Entity, content: ContentId, urls: seq<TweetUrl>): (r: Run)
    ensures Extends(db.origins, r.db.origins)
    ensures Unique(db.origins) ==> Unique(r.db.origins)
    ensures r.db.contents == db.contents
    decreases |urls|
  {
    if urls == [] then Run(db, false)
    else
      var u := AddWebOriginSpec(db, cfg, sv, content, urls[0]);
      if u.origin.None? then
        var r := ProcessUrlsSpec(u.db, cfg, sv, ref, content, urls[1..]);
        ExtendsTrans(db.origins, u.db.origins, r.db.origins);
        r
      else
        var c := Cited(u.db, u.origin.value, ref, content);
        if c.raised then c
        else
          var r := ProcessUrlsSpec(c.db, cfg, sv, ref, content, urls[1..]);
          ExtendsTrans(db.origins, u.db.origins, r.db.origins);
          r
  }

  /** The `for user in t.user_mentions` loop of `process_tweets`. */
  function ProcessMentionsSpec(db: Db, cfg: Config, sv: Services, ref: Entity, content: ContentId, mentions: seq<string>): (r: Run)
    ensures Extends(db.origins, r.db.origins)
    ensures Unique(db.origins) ==> Unique(r.db.origins)
    ensures r.db.contents == db.contents
    decreases |mentions|
  {
    if mentions == [] then Run(db, false)
    else
      var u := AddTwitterOriginSpec(db, cfg, sv, content, mentions[0]);
      var c := Cited(u.db, u.origin.value, ref, content);
      if c.raised then c
      else
        var r := ProcessMentionsSpec(c.db, cfg, sv, ref, content, mentions[1..]);
        ExtendsTrans(db.origins, u.db.origins, r.db.origins);
        r
  }

  /** `save_tweet_content`: the tweet's text, produced by the reference origin `source`. */
  function SavedTweet(db: Db, source: OriginId, text: string): Db
  {
    db.(contents := db.contents + [Content(db.nextId, Tweet, text, None, Some(source))], nextId := db.nextId + 1)
  }

  /** One iteration of `process_tweets`: replies are skipped. */
  function ProcessTweetSpec(db: Db, cfg: Config, sv: Services, source: OriginId, ref: Entity, t: Status): (r: Run)
    ensures Extends(db.origins, r.db.origins)
    ensures Unique(db.origins) ==> Unique(r.db.origins)
  {
    if t.inReplyToStatusId.Some? then Run(db, false)
    else
      var db1 := SavedTweet(db, source, t.fullText);
      var r1 := ProcessUrlsSpec(db1, cfg, sv, ref, db.nextId, t.urls);
      if r1.raised then r1
      else
        var r := ProcessMentionsSpec(r1.db, cfg, sv, ref, db.nextId, t.userMentions);
        ExtendsTrans(db.origins, r1.db.origins, r.db.origins);
        r
  }

  /** `process_tweets(reference_origin, tweets)`, stopping at the first exception. */
  function ProcessTweetsSpec(db: Db, cfg: Config, sv: Services, source: OriginId, ref: Entity, tweets: seq<Status>): (r: Run)
    ensures Extends(db.origins, r.db.origins)
    ensures Unique(db.origins) ==> Unique(r.db.origins)
    decreases |tweets|
  {
    if tweets == [] then Run(db, false)
    else
      var r1 := ProcessTweetSpec(db, cfg, sv, source, ref, tweets[0]);
      if r1.raised then r1
      else
        var r := ProcessTweetsSpec(r1.db, cfg, sv, source, ref, tweets[1..]);
        ExtendsTrans(db.origins, r1.db.origins, r.db.origins);
        r
  }

  /* ---- what processing records ---- */

  /** How many of the links are not ignored, i.e. yield an origin. */
  function KeptLinks(urls: seq<TweetUrl>, cfg: Config, sv: Services): (n: nat)
    ensures n <= |urls|
  {
    if urls == [] then 0 else (if Ignored(urls[0], cfg, sv) then 0 else 1) + KeptLinks(urls[1..], cfg, sv)
  }

  /** Every edge past position `n` records a citation by `ref` in `content`. */
  ghost predicate CitedIn(es: seq<OriginGroup>, n: nat, ref: Entity, content: ContentId)
  {
    forall j :: n <= j < |es| ==> Some(es[j].groupId) == ref.groupId && es[j].entityId == ref.id && es[j].contentId == content
  }

  /** `b` is `a` followed by citations of `ref` in `content`. */
  ghost predicate AddsCitations(a: seq<OriginGroup>, b: seq<OriginGroup>, ref: Entity, content: ContentId)
  {
    |a| <= |b| && b[..|a|] == a && CitedIn(b, |a|, ref, content)
  }

  lemma AddsCitationsTrans(a: seq<OriginGroup>, b: seq<OriginGroup>, c: seq<OriginGroup>, ref: Entity, content: ContentId)
    requires AddsCitations(a, b, ref, content) && AddsCitations(b, c, ref, content)
    ensures AddsCitations(a, c, ref, content)
  {
    assert c[..|a|] == c[..|b|][..|a|];
  }

  /** `save_origin_group_relation` adds at most the one edge of the reference. */
  lemma CitedAddsCitation(db: Db, origin: OriginId, ref: Entity, content: ContentId)
    ensures AddsCitations(db.edges, Cited(db, origin, ref, content).db.edges, ref, content)
  {
    var b := Cited(db, origin, ref, content).db.edges;
    assert b[..|db.edges|] == db.edges;
  }

  /** The link loop only adds edges, each carrying the reference's group and id and the tweet's content. */
  lemma {:induction false} ProcessUrlsCites(db: Db, cfg: Config, sv: Services, ref: Entity, content: ContentId, urls: seq<TweetUrl>)
    ensures AddsCitations(db.edges, ProcessUrlsSpec(db, cfg, sv, ref, content, urls).db.edges, ref, content)
    decreases |urls|
  {
    if urls != [] {
      var u := AddWebOriginSpec(db, cfg, sv, content, urls[0]);
      if u.origin.None? {
        ProcessUrlsCites(u.db, cfg, sv, ref, content, urls[1..]);
      } else {
        var c := Cited(u.db, u.origin.value, ref, content);
        CitedAddsCitation(u.db, u.origin.value, ref, content);
        if !c.raised {
          ProcessUrlsCites(c.db, cfg, sv, ref, content, urls[1..]);
          AddsCitationsTrans(db.edges, c.db.edges, ProcessUrlsSpec(c.db, cfg, sv, ref, content, urls[1..]).db.edges, ref, content);
        }
      }
    }
  }

  /**
   * The link loop raises exactly when the reference has no group and some
   * link is kept; otherwise it adds one edge per kept link.
   */
  lemma {:induction false} ProcessUrlsCount(db: Db, cfg: Config, sv: Services, ref: Entity, content: ContentId, urls: seq<TweetUrl>)
    ensures var r := ProcessUrlsSpec(db, cfg, sv, ref, content, urls);
      && (r.raised <==> ref.groupId.None? && KeptLinks(urls, cfg, sv) > 0)
      && (!r.raised ==> |r.db.edges| == |db.edges| + KeptLinks(urls, cfg, sv))
    decreases |urls|
  {
    if urls != [] {
      var u := AddWebOriginSpec(db, cfg, sv, content, urls[0]);
      if u.origin.None? {
        ProcessUrlsCount(u.db, cfg, sv, ref, content, urls[1..]);
      } else {
        var c := Cited(u.db, u.origin.value, ref, content);
        if !c.raised {
          ProcessUrlsCount(c.db, cfg, sv, ref, content, urls[1..]);
        }
      }
    }
  }

  /** The mention loop only adds edges, each carrying the reference's group and id and the tweet's content. */
  lemma {:induction false} ProcessMentionsCites(db: Db, cfg: Config, sv: Services, ref: Entity, content: ContentId, mentions: seq<string>)
    ensures AddsCitations(db.edges, ProcessMentionsSpec(db, cfg, sv, ref, content, mentions).db.edges, ref, content)
    decreases |mentions|
  {
    if mentions != [] {
      var u := AddTwitterOriginSpec(db, cfg, sv, content, mentions[0]);
      var c := Cited(u.db, u.origin.value, ref, content);
      CitedAddsCitation(u.db, u.origin.value, ref, content);
      if !c.raised {
        ProcessMentionsCites(c.db, cfg, sv, ref, content, mentions[1..]);
        AddsCitationsTrans(db.edges, c.db.edges, ProcessMentionsSpec(c.db, cfg, sv, ref, content, mentions[1..]).db.edges, ref, content);
      }
    }
  }

  /** The mention loop raises exactly when the reference has no group and there is a mention; otherwise it adds one edge per mention. */
  lemma {:induction false} ProcessMentionsCount(db: Db, cfg: Config, sv: Services, ref: Entity, content: ContentId, mentions: seq<string>)
    ensures var r := ProcessMentionsSpec(db, cfg, sv, ref, content, mentions);
      && (r.raised <==> ref.groupId.None? && |mentions| > 0)
      && (!r.raised ==> |r.db.edges| == |db.edges| + |mentions|)
    decreases |mentions|
  {
    if mentions != [] {
      var u := AddTwitterOriginSpec(db, cfg, sv, content, mentions[0]);
      var c := Cited(u.db, u.origin.value, ref, content);
      if !c.raised {
        ProcessMentionsCount(c.db, cfg, sv, ref, content, mentions[1..]);
      }
    }
  }

  /** `b` is `a` followed by edges recording citations by `ref`. */
  ghost predicate AddsCitationsBy(a: seq<OriginGroup>, b: seq<OriginGroup>, ref: Entity)
  {
    && |a| <= |b| && b[..|a|] == a
    && forall j :: |a| <= j < |b| ==> Some(b[j].groupId) == ref.groupId && b[j].entityId == ref.id
  }

  lemma AddsCitationsByTrans(a: seq<OriginGroup>, b: seq<OriginGroup>, c: seq<OriginGroup>, ref: Entity)
    requires AddsCitationsBy(a, b, ref) && AddsCitationsBy(b, c, ref)
    ensures AddsCitationsBy(a, c, ref)
  {
    assert c[..|a|] == c[..|b|][..|a|];
  }

  /** The edges one tweet adds all record citations by the reference. */
  lemma ProcessTweetCites(db: Db, cfg: Config, sv: Services, source: OriginId, ref: Entity, t: Status)
    ensures AddsCitationsBy(db.edges, ProcessTweetSpec(db, cfg, sv, source, ref, t).db.edges, ref)
  {
    if t.inReplyToStatusId.None? {
      var db1 := SavedTweet(db, source, t.fullText);
      var r1 := ProcessUrlsSpec(db1, cfg, sv, ref, db.nextId, t.urls);
      ProcessUrlsCites(db1, cfg, sv, ref, db.nextId, t.urls);
      if !r1.raised {
        ProcessMentionsCites(r1.db, cfg, sv, ref, db.nextId, t.userMentions);
        var r := ProcessMentionsSpec(r1.db, cfg, sv, ref, db.nextId, t.userMentions);
        AddsCitationsByTrans(db.edges, r1.db.edges, r.db.edges, ref);
      }
    }
  }

  /** Every edge `process_tweets` adds records a citation by the reference entity, with its group. */
  lemma {:induction false} ProcessTweetsCites(db: Db, cfg: Config, sv: Services, source: OriginId, ref: Entity, tweets: seq<Status>)
    ensures AddsCitationsBy(db.edges, ProcessTweetsSpec(db, cfg, sv, source, ref, tweets).db.edges, ref)
    decreases |tweets|
  {
    if tweets != [] {
      var r1 := ProcessTweetSpec(db, cfg, sv, source, ref, tweets[0]);
      ProcessTweetCites(db, cfg, sv, source, ref, tweets[0]);
      if !r1.raised {
        ProcessTweetsCites(r1.db, cfg, sv, source, ref, tweets[1..]);
        AddsCitationsByTrans(db.edges, r1.db.edges, ProcessTweetsSpec(r1.db, cfg, sv, source, ref, tweets[1..]).db.edges, ref);
      }
    }
  }

  /** A reference entity with a group never makes `process_tweets` raise. */
  lemma {:induction false} ProcessTweetsRaisesOnlyWithoutGroup(db: Db, cfg: Config, sv: Services, source: OriginId, ref: Entity, tweets: seq<Status>)
    requires ref.groupId.Some?
    ensures !ProcessTweetsSpec(db, cfg, sv, source, ref, tweets).raised
    decreases |tweets|
  {
    if tweets != [] {
      var t := tweets[0];
      var r1 := ProcessTweetSpec(db, cfg, sv, source, ref, t);
      if t.inReplyToStatusId.None? {
        var db1 := SavedTweet(db, source, t.fullText);
        ProcessUrlsCount(db1, cfg, sv, ref, db.nextId, t.urls);
        var u := ProcessUrlsSpec(db1, cfg, sv, ref, db.nextId, t.urls);
        ProcessMentionsCount(u.db, cfg, sv, ref, db.nextId, t.userMentions);
      }
      ProcessTweetsRaisesOnlyWithoutGroup(r1.db, cfg, sv, source, ref, tweets[1..]);
    }
  }

  /** The number of tweets that are not replies. */
  function NonReplies(tweets: seq<Status>): (n: nat)
    ensures n <= |tweets|
  {
    if tweets == [] then 0 else (if tweets[0].inReplyToStatusId.None? then 1 else 0) + NonReplies(tweets[1..])
  }

  /** `b` is `a` followed by tweets produced by the origin `source`. */
  ghost predicate AddsTweetsOf(a: seq<Content>, b: seq<Content>, source: OriginId)
  {
    && |a| <= |b| && b[..|a|] == a
    && forall j :: |a| <= j < |b| ==> b[j].contentType == Tweet && b[j].origin == Some(source)
  }

  /** One tweet saves one content produced by the reference origin, unless it is a reply. */
  lemma ProcessTweetSaves(db: Db, cfg: Config, sv: Services, source: OriginId, ref: Entity, t: Status)
    ensures var r := ProcessTweetSpec(db, cfg, sv, source, ref, t);
      r.db.contents == db.contents + (if t.inReplyToStatusId.None? then [Content(db.nextId, Tweet, t.fullText, None, Some(source))] else [])
  {
  }

  lemma AddsTweetsOfTrans(a: seq<Content>, b: seq<Content>, c: seq<Content>, source: OriginId)
    requires AddsTweetsOf(a, b, source) && AddsTweetsOf(b, c, source)
    ensures AddsTweetsOf(a, c, source)
  {
    assert c[..|a|] == c[..|b|][..|a|];
  }

  /** Everything `process_tweets` saves is a tweet produced by the reference origin. */
  lemma {:induction false} ProcessTweetsSavesTweetsOf(db: Db, cfg: Config, sv: Services, source: OriginId, ref: Entity, tweets: seq<Status>)
    ensures AddsTweetsOf(db.contents, ProcessTweetsSpec(db, cfg, sv, source, ref, tweets).db.contents, source)
    decreases |tweets|
  {
    if tweets != [] {
      var r1 := ProcessTweetSpec(db, cfg, sv, source, ref, tweets[0]);
      ProcessTweetSaves(db, cfg, sv, source, ref, tweets[0]);
      assert AddsTweetsOf(db.contents, r1.db.contents, source);
      if !r1.raised {
        ProcessTweetsSavesTweetsOf(r1.db, cfg, sv, source, ref, tweets[1..]);
        AddsTweetsOfTrans(db.contents, r1.db.contents, ProcessTweetsSpec(r1.db, cfg, sv, source, ref, tweets[1..]).db.contents, source);
      }
    }
  }

  /** Without an exception, `process_tweets` saves exactly one content per tweet that is not a reply. */
  lemma {:induction false} ProcessTweetsSkipsReplies(db: Db, cfg: Config, sv: Services, source: OriginId, ref: Entity, tweets: seq<Status>)
    ensures var r := ProcessTweetsSpec(db, cfg, sv, source, ref, tweets);
      !r.raised ==> |r.db.contents| == |db.contents| + NonReplies(tweets)
    decreases |tweets|
  {
    if tweets != [] {
      var r1 := ProcessTweetSpec(db, cfg, sv, source, ref, tweets[0]);
      ProcessTweetSaves(db, cfg, sv, source, ref, tweets[0]);
      if !r1.raised {
        ProcessTweetsSkipsReplies(r1.db, cfg, sv, source, ref, tweets[1..]);
      }
    }
  }

  /* ---- the timeline cursor ---- */

  /** The `max_id` loop: the highest tweet id, starting from -1. */
  function MaxTweetId(tweets: seq<Status>): (m: int)
    ensures m >= -1
    ensures forall k :: 0 <= k < |tweets| ==> tweets[k].id <= m
    ensures m == -1 || exists k :: 0 <= k < |tweets| && tweets[k].id == m
  {
    if tweets == [] then -1
    else
      var init := tweets[..|tweets| - 1];
      var m0 := MaxTweetId(init);
      var last := tweets[|tweets| - 1];
      assert forall k :: 0 <= k < |init| ==> init[k] == tweets[k];
      if last.id > m0 then last.id else m0
  }

  /**
   * `process_twitter_reference` for the Twitter origin at position `i`, cited
   * by the reference entity `ref`: a timeline error marks the origin invalid;
   * otherwise the tweets are processed and, when the highest id read is
   * positive, it becomes the cursor.
   */
  function ProcessTwitterReferenceSpec(db: Db, cfg: Config, sv: Services, i: nat, ref: Entity): (r: Run)
    requires i < |db.origins| && db.origins[i].detail.TwitterOrigin?
    ensures KeysKept(db.origins, r.db.origins)
    ensures Unique(db.origins) ==> Unique(r.db.origins)
  {
    var o := db.origins[i];
    match sv.timeline(o.detail.screenName, o.lastSyncedId, cfg.maxTweets)
    case None =>
      var o1 := o.(validExtraction := false);
      UniqueIfUnique(db.origins, i, o1);
      Run(db.(origins := db.origins[i := o1]), false)
    case Some(tweets) =>
      var r := ProcessTweetsSpec(db, cfg, sv, o.id, ref, tweets);
      var m := MaxTweetId(tweets);
      ExtendsKeepsKeys(db.origins, r.db.origins);
      if r.raised || m <= 0 then r
      else
        var o1 := r.db.origins[i].(lastSyncedId := Some(m));
        UniqueIfUnique(r.db.origins, i, o1);
        Run(r.db.(origins := r.db.origins[i := o1]), false)
  }

  /** A timeline error only marks the origin as not validly extracted; its cursor stays. */
  lemma TimelineErrorMarksOrigin(db: Db, cfg: Config, sv: Services, i: nat, ref: Entity)
    requires i < |db.origins| && db.origins[i].detail.TwitterOrigin?
    requires sv.timeline(db.origins[i].detail.screenName, db.origins[i].lastSyncedId, cfg.maxTweets).None?
    ensures var r := ProcessTwitterReferenceSpec(db, cfg, sv, i, ref);
      && !r.raised && r.db == db.(origins := r.db.origins) && |r.db.origins| == |db.origins|
      && !r.db.origins[i].validExtraction && r.db.origins[i].lastSyncedId == db.origins[i].lastSyncedId
      && forall j :: 0 <= j < |db.origins| && j != i ==> r.db.origins[j] == db.origins[j]
  {
  }

  /**
   * After a read without exception the cursor is the highest tweet id when it
   * is positive, and stays otherwise (no tweet, or only ids up to 0).
   */
  lemma CursorMovesToHighestId(db: Db, cfg: Config, sv: Services, i: nat, ref: Entity)
    requires i < |db.origins| && db.origins[i].detail.TwitterOrigin?
    requires sv.timeline(db.origins[i].detail.screenName, db.origins[i].lastSyncedId, cfg.maxTweets).Some?
    ensures var tweets := sv.timeline(db.origins[i].detail.screenName, db.origins[i].lastSyncedId, cfg.maxTweets).value;
      var r := ProcessTwitterReferenceSpec(db, cfg, sv, i, ref);
      !r.raised ==>
        && r.db.origins[i].lastSyncedId == (if MaxTweetId(tweets) > 0 then Some(MaxTweetId(tweets)) else db.origins[i].lastSyncedId)
        && r.db.origins[i].validExtraction == db.origins[i].validExtraction
  {
    var o := db.origins[i];
    var tweets := sv.timeline(o.detail.screenName, o.lastSyncedId, cfg.maxTweets).value;
    var r := ProcessTweetsSpec(db, cfg, sv, o.id, ref, tweets);
    assert r.db.origins[i] == o.(occurrences := r.db.origins[i].occurrences);
  }

  /** A reference entity with a group never makes the timeline step raise. */
  lemma ProcessTwitterReferenceRaises(db: Db, cfg: Config, sv: Services, i: nat, ref: Entity)
    requires i < |db.origins| && db.origins[i].detail.TwitterOrigin?
    ensures ProcessTwitterReferenceSpec(db, cfg, sv, i, ref).raised ==> ref.groupId.None?
  {
    var o := db.origins[i];
    var t := sv.timeline(o.detail.screenName, o.lastSyncedId, cfg.maxTweets);
    if t.Some? && ref.groupId.Some? {
      ProcessTweetsRaisesOnlyWithoutGroup(db, cfg, sv, o.id, ref, t.value);
    }
  }

  /** The edges the timeline step adds all record citations by the reference. */
  lemma ProcessTwitterReferenceCites(db: Db, cfg: Config, sv: Services, i: nat, ref: Entity)
    requires i < |db.origins| && db.origins[i].detail.TwitterOrigin?
    ensures AddsCitationsBy(db.edges, ProcessTwitterReferenceSpec(db, cfg, sv, i, ref).db.edges, ref)
  {
    var o := db.origins[i];
    var t := sv.timeline(o.detail.screenName, o.lastSyncedId, cfg.maxTweets);
    if t.Some? {
      ProcessTweetsCites(db, cfg, sv, o.id, ref, t.value);
    }
  }

  /* ---- the reference entities ---- */

  /** `reference.origins` filtered on `type == 'twitter_origin'`: the positions of the Twitter origins of `id`, in order. */
  function TwitterPositions(os: seq<Origin>, id: EntityId): (ps: seq<nat>)
    ensures forall p: nat :: p in ps <==> p < |os| && os[p].detail.TwitterOrigin? && os[p].entity == Some(id)
    ensures forall k :: 0 <= k < |ps| ==> ps[k] < |os| && os[ps[k]].detail.TwitterOrigin?
    ensures forall a, b :: 0 <= a < b < |ps| ==> ps[a] < ps[b]
  {
    if os == [] then []
    else
      var n := |os| - 1;
      var init := TwitterPositions(os[..n], id);
      assert forall p :: 0 <= p < n ==> os[..n][p] == os[p];
      init + (if os[n].detail.TwitterOrigin? && os[n].entity == Some(id) then [n] else [])
  }

  /** `process_reference(reference)`: every Twitter origin of the reference, stopping at an exception. */
  function ProcessReferenceSpec(db: Db, cfg: Config, sv: Services, ref: Entity, ps: seq<nat>): (r: Run)
    requires forall k :: 0 <= k < |ps| ==> ps[k] < |db.origins| && db.origins[ps[k]].detail.TwitterOrigin?
    ensures KeysKept(db.origins, r.db.origins)
    ensures Unique(db.origins) ==> Unique(r.db.origins)
    decreases |ps|
  {
    if ps == [] then Run(db, false)
    else
      var r1 := ProcessTwitterReferenceSpec(db, cfg, sv, ps[0], ref);
      if r1.raised then r1
      else
        assert forall k :: 0 <= k < |ps| - 1 ==> KeyOf(r1.db.origins[ps[1..][k]]) == KeyOf(db.origins[ps[k + 1]]);
        var r := ProcessReferenceSpec(r1.db, cfg, sv, ref, ps[1..]);
        KeysKeptTrans(db.origins, r1.db.origins, r.db.origins);
        r
  }

  /** `query(Entity).filter(Entity.is_reference).all()`, in row order. */
  function ReferenceEntities(db: Db): (refs: seq<Entity>)
    ensures forall e :: e in refs ==> e.isReference && e.id in db.entities && db.entities[e.id] == e
    ensures |refs| <= |db.rows|
  {
    RefsAmong(db.entities, db.rows)
  }

  function RefsAmong(entities: map<EntityId, Entity>, rows: seq<EntityId>): (refs: seq<Entity>)
    ensures forall e :: e in refs ==> e.isReference && e.id in entities && entities[e.id] == e
    ensures |refs| <= |rows|
  {
    if rows == [] then []
    else
      var id := rows[|rows| - 1];
      RefsAmong(entities, rows[..|rows| - 1])
        + (if id in entities && entities[id].isReference && entities[id].id == id then [entities[id]] else [])
  }

  /** `process_references`: each reference entity in turn; an exception ends the loop, after the commit in `finally`. */
  function ProcessReferencesSpec(db: Db, cfg: Config, sv: Services, refs: seq<Entity>): (r: Run)
    ensures KeysKept(db.origins, r.db.origins)
    ensures Unique(db.origins) ==> Unique(r.db.origins)
    decreases |refs|
  {
    if refs == [] then Run(db, false)
    else
      var r1 := ProcessReferenceSpec(db, cfg, sv, refs[0], TwitterPositions(db.origins, refs[0].id));
      if r1.raised then r1
      else
        var r := ProcessReferencesSpec(r1.db, cfg, sv, refs[1..]);
        KeysKeptTrans(db.origins, r1.db.origins, r.db.origins);
        r
  }

  /** The acquisition step over the references of the store. */
  function AcquisitionSpec(db: Db, cfg: Config, sv: Services): Run
  {
    ProcessReferencesSpec(db, cfg, sv, ReferenceEntities(db))
  }

  /** Acquisition never creates a second origin for a screen name or base URL. */
  lemma AcquisitionKeepsKeysUnique(db: Db, cfg: Config, sv: Services)
    requires Unique(db.origins)
    ensures Unique(AcquisitionSpec(db, cfg, sv).db.origins)
  {
  }

  /** `b` is `a` followed by edges recording citations by one of `refs`, with its group. */
  ghost predicate AddsCitationsByOneOf(a: seq<OriginGroup>, b: seq<OriginGroup>, refs: seq<Entity>)
  {
    && |a| <= |b| && b[..|a|] == a
    && forall j :: |a| <= j < |b| ==>
         exists k :: 0 <= k < |refs| && Some(b[j].groupId) == refs[k].groupId && b[j].entityId == refs[k].id
  }

  lemma {:induction false} ProcessReferenceCites(db: Db, cfg: Config, sv: Services, ref: Entity, ps: seq<nat>)
    requires forall k :: 0 <= k < |ps| ==> ps[k] < |db.origins| && db.origins[ps[k]].detail.TwitterOrigin?
    ensures var r := ProcessReferenceSpec(db, cfg, sv, ref, ps);
      && AddsCitationsBy(db.edges, r.db.edges, ref)
      && (r.raised ==> ref.groupId.None?)
    decreases |ps|
  {
    if ps != [] {
      var r1 := ProcessTwitterReferenceSpec(db, cfg, sv, ps[0], ref);
      ProcessTwitterReferenceCites(db, cfg, sv, ps[0], ref);
      ProcessTwitterReferenceRaises(db, cfg, sv, ps[0], ref);
      if !r1.raised {
        assert forall k :: 0 <= k < |ps| - 1 ==> KeyOf(r1.db.origins[ps[1..][k]]) == KeyOf(db.origins[ps[k + 1]]);
        ProcessReferenceCites(r1.db, cfg, sv, ref, ps[1..]);
        AddsCitationsByTrans(db.edges, r1.db.edges, ProcessReferenceSpec(r1.db, cfg, sv, ref, ps[1..]).db.edges, ref);
      }
    }
  }

  /**
   * Every edge the acquisition step adds records a citation by a reference
   * entity with that entity's group, and the step raises only when some
   * reference entity has no group.
   */
  lemma {:induction false} ProcessReferencesCites(db: Db, cfg: Config, sv: Services, refs: seq<Entity>)
    ensures var r := ProcessReferencesSpec(db, cfg, sv, refs);
      && AddsCitationsByOneOf(db.edges, r.db.edges, refs)
      && (r.raised ==> exists k :: 0 <= k < |refs| && refs[k].groupId.None?)
    decreases |refs|
  {
    if refs != [] {
      var r1 := ProcessReferenceSpec(db, cfg, sv, refs[0], TwitterPositions(db.origins, refs[0].id));
      ProcessReferenceCites(db, cfg, sv, refs[0], TwitterPositions(db.origins, refs[0].id));
      if r1.raised {
        FirstWithoutGroup(refs);
        OneCitationSet(db.edges, r1.db.edges, refs);
      } else {
        ProcessReferencesCites(r1.db, cfg, sv, refs[1..]);
        var r := ProcessReferencesSpec(r1.db, cfg, sv, refs[1..]);
        CitationsCombine(db.edges, r1.db.edges, r.db.edges, refs);
        if r.raised {
          LaterWithoutGroup(refs);
        }
      }
    }
  }

  lemma OneCitationSet(a: seq<OriginGroup>, b: seq<OriginGroup>, refs: seq<Entity>)
    requires refs != [] && AddsCitationsBy(a, b, refs[0])
    ensures AddsCitationsByOneOf(a, b, refs)
  {
    forall j | |a| <= j < |b|
      ensures exists k :: 0 <= k < |refs| && Some(b[j].groupId) == refs[k].groupId && b[j].entityId == refs[k].id
    {
      assert Some(b[j].groupId) == refs[0].groupId && b[j].entityId == refs[0].id;
    }
  }

  lemma CitationsCombine(a: seq<OriginGroup>, b: seq<OriginGroup>, c: seq<OriginGroup>, refs: seq<Entity>)
    requires refs != [] && AddsCitationsBy(a, b, refs[0]) && AddsCitationsByOneOf(b, c, refs[1..])
    ensures AddsCitationsByOneOf(a, c, refs)
  {
    assert c[..|a|] == c[..|b|][..|a|];
    forall j | |a| <= j < |c|
      ensures exists k :: 0 <= k < |refs| && Some(c[j].groupId) == refs[k].groupId && c[j].entityId == refs[k].id
    {
      if j < |b| {
        assert c[j] == b[j];
        assert Some(c[j].groupId) == refs[0].groupId && c[j].entityId == refs[0].id;
      } else {
        var k :| 0 <= k < |refs[1..]| && Some(c[j].groupId) == refs[1..][k].groupId && c[j].entityId == refs[1..][k].id;
        assert refs[1..][k] == refs[k + 1];
      }
    }
  }

  lemma FirstWithoutGroup(refs: seq<Entity>)
    requires refs != [] && refs[0].groupId.None?
    ensures exists k :: 0 <= k < |refs| && refs[k].groupId.None?
  {
  }

  lemma LaterWithoutGroup(refs: seq<Entity>)
    requires refs != [] && exists k :: 0 <= k < |refs[1..]| && refs[1..][k].groupId.None?
    ensures exists k :: 0 <= k < |refs| && refs[k].groupId.None?
  {
    var k :| 0 <= k < |refs[1..]| && refs[1..][k].groupId.None?;
    assert refs[k + 1] == refs[1..][k];
  }

  /* ---- seeding ---- */

  /** One entry of the seed lists: a name, the reference flag, and optionally a screen name and a web site. */
  datatype Seed = Seed(name: string, isReference: bool, twitter: Option<string>, web: Option<string>)

  /** The seeded entity: given status and group, and trusted. */
  function SeededEntity(id: EntityId, e: Seed, status: EntityStatus, group: Option<GroupId>): Entity
  {
    NewEntity(id, e.name, e.isReference).(status := status, trusted := true, groupId := group)
  }

  /** The entity and its Twitter origin, the part of `init_entity` before the web site. */
  function SeededWithTwitter(db: Db, cfg: Config, sv: Services, e: Seed, status: EntityStatus, group: Option<GroupId>): Db
  {
    var id := db.nextId;
    var db1 := db.(entities := db.entities[id := SeededEntity(id, e, status, group)], rows := db.rows + [id], nextId := id + 1);
    match e.twitter
    case None => db1
    case Some(n) =>
      var o := Origin(db1.nextId, Some(id), 0, None, true, Associated(TwitterOrigin(n, None, None), cfg, sv));
      db1.(origins := db1.origins + [o], nextId := db1.nextId + 1)
  }

  /**
   * `init_entity(e, status, group)`. Origins are created without a lookup and
   * keep the column default of 0 occurrences; the feed found is stored as is,
   * without `clean_rss_path`.
   */
  function InitEntitySpec(db: Db, cfg: Config, sv: Services, e: Seed, status: EntityStatus, group: Option<GroupId>): (r: Db)
    ensures r.entities == db.entities[db.nextId := SeededEntity(db.nextId, e, status, group)]
    ensures r.rows == db.rows + [db.nextId] && r.edges == db.edges && r.contents == db.contents
  {
    var db2 := SeededWithTwitter(db, cfg, sv, e, status, group);
    match e.web
    case None => db2
    case Some(w) =>
      var web := Origin(db2.nextId, Some(db.nextId), 0, None, true, WebOrigin(Some(w), Some(w), Some(w)));
      match sv.findFeed(w)
      case None => db2.(origins := db2.origins + [web], nextId := db2.nextId + 1)
      case Some(f) =>
        var rss := Origin(db2.nextId + 1, Some(db.nextId), 0, None, true, RssOrigin(Some(w), Some(f), Some(db2.nextId)));
        db2.(origins := db2.origins + [web, rss], nextId := db2.nextId + 2)
  }

  /** The number of origins a seed gets: its Twitter account, its web site, and the web site's feed when one is found. */
  function SeedOrigins(e: Seed, sv: Services): nat
  {
    (if e.twitter.Some? then 1 else 0) + (if e.web.Some? then 1 else 0)
    + (if e.web.Some? && sv.findFeed(e.web.value).Some? then 1 else 0)
  }

  /**
   * The seeded entity owns exactly its new origins, none with an occurrence,
   * and an RSS origin is among them only when a feed is found for the site.
   */
  lemma InitEntityOrigins(db: Db, cfg: Config, sv: Services, e: Seed, status: EntityStatus, group: Option<GroupId>)
    ensures var r := InitEntitySpec(db, cfg, sv, e, status, group);
      && |r.origins| == |db.origins| + SeedOrigins(e, sv) && r.origins[..|db.origins|] == db.origins
      && (forall j :: |db.origins| <= j < |r.origins| ==> r.origins[j].entity == Some(db.nextId) && r.origins[j].occurrences == 0)
      && ((exists j :: |db.origins| <= j < |r.origins| && r.origins[j].detail.RssOrigin?)
          <==> e.web.Some? && sv.findFeed(e.web.value).Some?)
  {
    var id := db.nextId;
    var db2 := SeededWithTwitter(db, cfg, sv, e, status, group);
    SeededTwitterOrigins(db, cfg, sv, e, status, group);
    if e.web.Some? {
      InitEntityWebAsAdminCreate(db, cfg, sv, e, status, group);
      var w := e.web.value;
      var web := Origin(db2.nextId, Some(id), 0, None, true, WebOrigin(Some(w), Some(w), Some(w)));
      match sv.findFeed(w)
      case None =>
        OwnedTail(db.origins, db2.origins, [web], id);
      case Some(f) =>
        var rss := Origin(db2.nextId + 1, Some(id), 0, None, true, RssOrigin(Some(w), Some(f), Some(db2.nextId)));
        OwnedTail(db.origins, db2.origins, [web, rss], id);
    }
  }

  /** The Twitter part of `init_entity` appends at most one origin, owned by the new entity, not a feed. */
  lemma SeededTwitterOrigins(db: Db, cfg: Config, sv: Services, e: Seed, status: EntityStatus, group: Option<GroupId>)
    ensures var db2 := SeededWithTwitter(db, cfg, sv, e, status, group);
      && |db2.origins| == |db.origins| + (if e.twitter.Some? then 1 else 0) && db2.origins[..|db.origins|] == db.origins
      && forall j :: |db.origins| <= j < |db2.origins| ==>
           db2.origins[j].entity == Some(db.nextId) && db2.origins[j].occurrences == 0 && !db2.origins[j].detail.RssOrigin?
  {
  }

  /** Origins `added` after `mid`, which itself extends `before` with origins of `id`: all of them belong to `id`. */
  lemma OwnedTail(before: seq<Origin>, mid: seq<Origin>, added: seq<Origin>, id: EntityId)
    requires |before| <= |mid| && mid[..|before|] == before
    requires forall j :: |before| <= j < |mid| ==> mid[j].entity == Some(id) && mid[j].occurrences == 0 && !mid[j].detail.RssOrigin?
    requires forall o :: o in added ==> o.entity == Some(id) && o.occurrences == 0
    ensures (mid + added)[..|before|] == before
    ensures forall j :: |before| <= j < |mid + added| ==> (mid + added)[j].entity == Some(id) && (mid + added)[j].occurrences == 0
    ensures (exists j :: |before| <= j < |mid + added| && (mid + added)[j].detail.RssOrigin?)
      <==> exists o :: o in added && o.detail.RssOrigin?
  {
    assert (mid + added)[..|before|] == mid[..|before|];
    forall j | |mid| <= j < |mid + added|
      ensures (mid + added)[j] == added[j - |mid|]
    {
    }
    if o :| o in added && o.detail.RssOrigin? {
      var k :| 0 <= k < |added| && added[k] == o;
      assert (mid + added)[|mid| + k] == o;
    }
  }

  /**
   * The web part of `init_entity` creates exactly the origins the admin
   * import's `create_web_and_rss_origins` creates.
   */
  lemma InitEntityWebAsAdminCreate(db: Db, cfg: Config, sv: Services, e: Seed, status: EntityStatus, group: Option<GroupId>)
    requires e.web.Some?
    ensures var db2 := SeededWithTwitter(db, cfg, sv, e, status, group);
      InitEntitySpec(db, cfg, sv, e, status, group)
        == CreateWebAndRssOriginsSpec(db2, db.nextId, e.web.value, sv.findFeed(e.web.value))
  {
  }

  /* ---- the steps on the session ---- */

  /** `occurrences += 1` on the origin at position `i`. */
  method AddOccurrence(s: Session, i: nat)
    requires i < |s.origins|
    modifies s
    ensures s.State() == Bumped(old(s.State()), i)
  {
    s.origins := s.origins[i := s.origins[i].(occurrences := s.origins[i].occurrences + 1)];
  }

  /** A new origin with one occurrence, owned by a new non-reference entity called `name`. */
  method CreateOrigin(s: Session, name: string, detail: OriginDetail) returns (origin: OriginId)
    modifies s
    ensures s.State() == Created(old(s.State()), name, detail)
    ensures origin == old(s.nextId) + 1
  {
    var eid := s.nextId;
    s.entities := s.entities[eid := NewEntity(eid, name, false)];
    s.rows := s.rows + [eid];
    origin := eid + 1;
    s.origins := s.origins + [Origin(origin, Some(eid), 1, None, true, detail)];
    s.nextId := eid + 2;
  }

  method SaveOriginContentRelation(s: Session, content: ContentId, origin: OriginId)
    modifies s
    ensures s.State() == Related(old(s.State()), content, origin)
  {
    s.contentOrigins := s.contentOrigins + [ContentOrigin(content, origin)];
  }

  method AddTwitterOrigin(s: Session, cfg: Config, sv: Services, content: ContentId, screenName: string)
    returns (origin: OriginId)
    modifies s
    ensures AddTwitterOriginSpec(old(s.State()), cfg, sv, content, screenName) == Upsert(s.State(), Some(origin))
  {
    var found := Lookup(s.origins, ScreenName(screenName));
    if found.Some? {
      origin := s.origins[found.value].id;
      AddOccurrence(s, found.value);
    } else {
      origin := CreateOrigin(s, screenName, Associated(TwitterOrigin(screenName, None, None), cfg, sv));
    }
    SaveOriginContentRelation(s, content, origin);
  }

  method AddRssOrigin(s: Session, sv: Services, web: OriginId, base: string, owner: Option<EntityId>)
    modifies s
    ensures s.State() == AddRssOriginSpec(old(s.State()), sv, web, base, owner)
  {
    var found := Lookup(s.origins, RssBase(Some(base)));
    if found.Some? {
      AddOccurrence(s, found.value);
    } else {
      var feed := sv.findFeed(base);
      if feed.Some? {
        var o := Origin(s.nextId, owner, 1, None, true, RssOrigin(Some(base), Shared.CleanRssPath(feed, base), Some(web)));
        s.origins := s.origins + [o];
        s.nextId := s.nextId + 1;
      }
    }
  }

  /** The web origin of a base URL: one occurrence more, or created with one. */
  method UpsertWebOrigin(s: Session, url: TweetUrl, full: string, base: string) returns (web: OriginId, owner: Option<EntityId>)
    modifies s
    ensures s.State() == WebUpsert(old(s.State()), url, full, base)
    ensures (web, owner) == WebUpserted(old(s.State()), base)
  {
    var found := Lookup(s.origins, WebBase(Some(base)));
    if found.Some? {
      web, owner := s.origins[found.value].id, s.origins[found.value].entity;
      AddOccurrence(s, found.value);
    } else {
      owner := Some(s.nextId);
      web := CreateOrigin(s, base, WebOrigin(url.url, Some(full), Some(base)));
    }
  }

  method AddWebOrigin(s: Session, cfg: Config, sv: Services, content: ContentId, url: TweetUrl)
    returns (origin: Option<OriginId>)
    modifies s
    ensures AddWebOriginSpec(old(s.State()), cfg, sv, content, url) == Upsert(s.State(), origin)
  {
    var full := FullUrl(url, cfg, sv);
    if Shared.CheckIfUrlMatchPattern(full, cfg.urlPatternsToIgnore, sv.search) {
      return None;
    }
    var base := BaseOf(full, cfg);
    var web, owner := UpsertWebOrigin(s, url, full, base);
    SaveOriginContentRelation(s, content, web);
    if !Shared.CheckIfUrlMatchPattern(full, cfg.ignoreForRssSearch, sv.search) {
      AddRssOrigin(s, sv, web, base, owner);
    }
    origin := Some(web);
  }

  method SaveOriginGroupRelation(s: Session, origin: OriginId, ref: Entity, content: ContentId) returns (raised: bool)
    modifies s
    ensures Cited(old(s.State()), origin, ref, content) == Run(s.State(), raised)
  {
    if ref.groupId.None? {
      return true;
    }
    s.edges := s.edges + [OriginGroup(origin, ref.groupId.value, ref.id, content)];
    raised := false;
  }

  method ProcessUrls(s: Session, cfg: Config, sv: Services, ref: Entity, content: ContentId, urls: seq<TweetUrl>)
    returns (raised: bool)
    modifies s
    ensures ProcessUrlsSpec(old(s.State()), cfg, sv, ref, content, urls) == Run(s.State(), raised)
  {
    var i := 0;
    while i < |urls|
      invariant 0 <= i <= |urls|
      invariant ProcessUrlsSpec(s.State(), cfg, sv, ref, content, urls[i..]) == ProcessUrlsSpec(old(s.State()), cfg, sv, ref, content, urls)
      decreases |urls| - i
    {
      assert urls[i..][0] == urls[i] && urls[i..][1..] == urls[i + 1..];
      var origin := AddWebOrigin(s, cfg, sv, content, urls[i]);
      if origin.Some? {
        raised := SaveOriginGroupRelation(s, origin.value, ref, content);
        if raised {
          return;
        }
      }
      i := i + 1;
    }
    raised := false;
  }

  method ProcessMentions(s: Session, cfg: Config, sv: Services, ref: Entity, content: ContentId, mentions: seq<string>)
    returns (raised: bool)
    modifies s
    ensures ProcessMentionsSpec(old(s.State()), cfg, sv, ref, content, mentions) == Run(s.State(), raised)
  {
    var i := 0;
    while i < |mentions|
      invariant 0 <= i <= |mentions|
      invariant ProcessMentionsSpec(s.State(), cfg, sv, ref, content, mentions[i..]) == ProcessMentionsSpec(old(s.State()), cfg, sv, ref, content, mentions)
      decreases |mentions| - i
    {
      assert mentions[i..][0] == mentions[i] && mentions[i..][1..] == mentions[i + 1..];
      var origin := AddTwitterOrigin(s, cfg, sv, content, mentions[i]);
      raised := SaveOriginGroupRelation(s, origin, ref, content);
      if raised {
        return;
      }
      i := i + 1;
    }
    raised := false;
  }

  method SaveTweetContent(s: Session, source: OriginId, text: string) returns (content: ContentId)
    modifies s
    ensures s.State() == SavedTweet(old(s.State()), source, text) && content == old(s.nextId)
  {
    content := s.nextId;
    s.contents := s.contents + [Content(content, Tweet, text, None, Some(source))];
    s.nextId := s.nextId + 1;
  }

  method ProcessTweet(s: Session, cfg: Config, sv: Services, source: OriginId, ref: Entity, t: Status)
    returns (raised: bool)
    modifies s
    ensures ProcessTweetSpec(old(s.State()), cfg, sv, source, ref, t) == Run(s.State(), raised)
  {
    if t.inReplyToStatusId.Some? {
      return false;
    }
    var content := SaveTweetContent(s, source, t.fullText);
    raised := ProcessUrls(s, cfg, sv, ref, content, t.urls);
    if !raised {
      raised := ProcessMentions(s, cfg, sv, ref, content, t.userMentions);
    }
  }

  method ProcessTweets(s: Session, cfg: Config, sv: Services, source: OriginId, ref: Entity, tweets: seq<Status>)
    returns (raised: bool)
    modifies s
    ensures ProcessTweetsSpec(old(s.State()), cfg, sv, source, ref, tweets) == Run(s.State(), raised)
  {
    var i := 0;
    while i < |tweets|
      invariant 0 <= i <= |tweets|
      invariant ProcessTweetsSpec(s.State(), cfg, sv, source, ref, tweets[i..]) == ProcessTweetsSpec(old(s.State()), cfg, sv, source, ref, tweets)
      decreases |tweets| - i
    {
      assert tweets[i..][0] == tweets[i] && tweets[i..][1..] == tweets[i + 1..];
      raised := ProcessTweet(s, cfg, sv, source, ref, tweets[i]);
      if raised {
        return;
      }
      i := i + 1;
    }
    raised := false;
  }

  /** The `max_id` loop of `process_twitter_reference`. */
  method HighestId(tweets: seq<Status>) returns (maxId: int)
    ensures maxId == MaxTweetId(tweets)
  {
    maxId := -1;
    for i := 0 to |tweets|
      invariant maxId == MaxTweetId(tweets[..i])
    {
      assert tweets[..i + 1][..i] == tweets[..i];
      if tweets[i].id > maxId {
        maxId := tweets[i].id;
      }
    }
    assert tweets[..|tweets|] == tweets;
  }

  method ProcessTwitterReference(s: Session, cfg: Config, sv: Services, i: nat, ref: Entity) returns (raised: bool)
    requires i < |s.origins| && s.origins[i].detail.TwitterOrigin?
    modifies s
    ensures ProcessTwitterReferenceSpec(old(s.State()), cfg, sv, i, ref) == Run(s.State(), raised)
  {
    var o := s.origins[i];
    var fetched := sv.timeline(o.detail.screenName, o.lastSyncedId, cfg.maxTweets);
    if fetched.None? {
      s.origins := s.origins[i := o.(validExtraction := false)];
      return false;
    }
    raised := ProcessTweets(s, cfg, sv, o.id, ref, fetched.value);
    if raised {
      return;
    }
    var maxId := HighestId(fetched.value);
    if maxId > 0 {
      s.origins := s.origins[i := s.origins[i].(lastSyncedId := Some(maxId))];
    }
  }

  method ProcessReference(s: Session, cfg: Config, sv: Services, ref: Entity) returns (raised: bool)
    modifies s
    ensures ProcessReferenceSpec(old(s.State()), cfg, sv, ref, TwitterPositions(old(s.origins), ref.id)) == Run(s.State(), raised)
  {
    var ps := TwitterPositions(s.origins, ref.id);
    var i := 0;
    while i < |ps|
      invariant 0 <= i <= |ps|
      invariant forall k :: i <= k < |ps| ==> ps[k] < |s.origins| && s.origins[ps[k]].detail.TwitterOrigin?
      invariant ProcessReferenceSpec(s.State(), cfg, sv, ref, ps[i..]) == ProcessReferenceSpec(old(s.State()), cfg, sv, ref, ps)
      decreases |ps| - i
    {
      ProcessReferenceStep(s.State(), cfg, sv, ref, ps, i);
      raised := ProcessTwitterReference(s, cfg, sv, ps[i], ref);
      if raised {
        return;
      }
      i := i + 1;
    }
    raised := false;
  }

  /** One turn of the loop of `process_reference`, from position `i` of the list of Twitter origins. */
  lemma ProcessReferenceStep(db: Db, cfg: Config, sv: Services, ref: Entity, ps: seq<nat>, i: nat)
    requires i < |ps|
    requires forall k :: i <= k < |ps| ==> ps[k] < |db.origins| && db.origins[ps[k]].detail.TwitterOrigin?
    ensures var r1 := ProcessTwitterReferenceSpec(db, cfg, sv, ps[i], ref);
      && (r1.raised ==> ProcessReferenceSpec(db, cfg, sv, ref, ps[i..]) == r1)
      && (!r1.raised ==>
            && (forall k :: i + 1 <= k < |ps| ==> ps[k] < |r1.db.origins| && r1.db.origins[ps[k]].detail.TwitterOrigin?)
            && ProcessReferenceSpec(db, cfg, sv, ref, ps[i..]) == ProcessReferenceSpec(r1.db, cfg, sv, ref, ps[i + 1..]))
  {
    assert ps[i..][0] == ps[i] && ps[i..][1..] == ps[i + 1..];
    var r1 := ProcessTwitterReferenceSpec(db, cfg, sv, ps[i], ref);
    assert forall k :: i + 1 <= k < |ps| ==> KeyOf(r1.db.origins[ps[k]]) == KeyOf(db.origins[ps[k]]);
  }

  /** `process_references`, over the reference entities the query returns at the start. */
  method ProcessReferences(s: Session, cfg: Config, sv: Services) returns (raised: bool)
    modifies s
    ensures AcquisitionSpec(old(s.State()), cfg, sv) == Run(s.State(), raised)
  {
    var refs := ReferenceEntities(s.State());
    var i := 0;
    while i < |refs|
      invariant 0 <= i <= |refs|
      invariant ProcessReferencesSpec(s.State(), cfg, sv, refs[i..]) == ProcessReferencesSpec(old(s.State()), cfg, sv, refs)
      decreases |refs| - i
    {
      ProcessReferencesStepAt(s.State(), cfg, sv, refs, i);
      raised := ProcessReference(s, cfg, sv, refs[i]);
      if raised {
        return;
      }
      i := i + 1;
    }
    raised := false;
  }

  /** One turn of the loop of `process_references`, from position `i` of the reference list. */
  lemma ProcessReferencesStepAt(db: Db, cfg: Config, sv: Services, refs: seq<Entity>, i: nat)
    requires i < |refs|
    ensures var r1 := ProcessReferenceSpec(db, cfg, sv, refs[i], TwitterPositions(db.origins, refs[i].id));
      && (r1.raised ==> ProcessReferencesSpec(db, cfg, sv, refs[i..]) == r1)
      && (!r1.raised ==> ProcessReferencesSpec(db, cfg, sv, refs[i..]) == ProcessReferencesSpec(r1.db, cfg, sv, refs[i + 1..]))
  {
    assert refs[i..][0] == refs[i] && refs[i..][1..] == refs[i + 1..];
  }

  /** The entity and its Twitter origin. */
  method SeedEntity(s: Session, cfg: Config, sv: Services, e: Seed, status: EntityStatus, group: Option<GroupId>)
    modifies s
    ensures s.State() == SeededWithTwitter(old(s.State()), cfg, sv, e, status, group)
  {
    var id := s.nextId;
    s.entities := s.entities[id := SeededEntity(id, e, status, group)];
    s.rows := s.rows + [id];
    s.nextId := id + 1;
    if e.twitter.Some? {
      var d := Associated(TwitterOrigin(e.twitter.value, None, None), cfg, sv);
      s.origins := s.origins + [Origin(s.nextId, Some(id), 0, None, true, d)];
      s.nextId := s.nextId + 1;
    }
  }

  method InitEntity(s: Session, cfg: Config, sv: Services, e: Seed, status: EntityStatus, group: Option<GroupId>)
    modifies s
    ensures s.State() == InitEntitySpec(old(s.State()), cfg, sv, e, status, group)
  {
    var id := s.nextId;
    ghost var db0 := s.State();
    SeedEntity(s, cfg, sv, e, status, group);
    if e.web.Some? {
      InitEntityWebAsAdminCreate(db0, cfg, sv, e, status, group);
      CreateWebAndRssOrigins(s, id, e.web.value, sv.findFeed(e.web.value));
    }
  }
}

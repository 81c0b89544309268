// The persistent model of the pipeline (mana_common/orm.py): entities, their
// origins (Twitter accounts, web sites, RSS feeds), the "mentioned by group"
// edges recorded when a reference entity cites an origin, and the evidence
// rules that promote an entity to source candidate and to trusted, rebuild
// its contributor summary and merge two entities into one.
//
// The database session is `Session`, whose fields are the tables; `Db` is the
// same state as a value, on which the rules are stated as functions.
module Orm {
  import opened Wrappers
  import opened PyStrings
  import Shared

  type EntityId = nat
  type OriginId = nat
  type GroupId = nat
  type ContentId = nat

  /* ---- enums ---- */

  datatype EntityStatus = ENTITY | SOURCE_CANDIDATE | SOURCE
  {
    function Value(): nat
    {
      match this
      case ENTITY => 1
      case SOURCE_CANDIDATE => 2
      case SOURCE => 3
    }
  }

  datatype VerificationState = NOT_VERIFIED | PARTIALLY_VERIFIED | VERIFIED
  {
    function Value(): nat
    {
      match this
      case NOT_VERIFIED => 1
      case PARTIALLY_VERIFIED => 2
      case VERIFIED => 3
    }
  }

  datatype ContentType = Tweet | Web | Rss

  /* ---- rows ---- */

  /** One entry of `suggested_merges`: the partner entity and why it was suggested. */
  datatype Suggestion = Suggestion(id: EntityId, reason: string)

  /** One entry of `t_source_references`, keyed by the name of the citing entity. */
  datatype Reference = Reference(number: nat, content: seq<ContentId>, group: string)

  datatype Entity = Entity(
    id: EntityId,
    name: string,
    isReference: bool,
    verificationState: VerificationState,
    status: EntityStatus,
    trusted: bool,
    merges: nat,
    suggestedMerges: Option<seq<Suggestion>>,
    mergesDetails: Option<seq<string>>,
    groupId: Option<GroupId>,
    tOccurrences: Option<nat>,
    tSourceReferences: Option<map<string, Reference>>,
    comments: Option<seq<string>>,
    matchDone: bool,
    location: Option<string>,
    ecoregion: Option<string>,
    tags: Option<seq<string>>)

  /** A row created with the column defaults of the entities table. */
  function NewEntity(id: EntityId, name: string, isReference: bool): (e: Entity)
    ensures e.id == id && e.name == name && e.isReference == isReference
    ensures e.status == ENTITY && !e.trusted && e.merges == 0 && !e.matchDone
    ensures e.verificationState == NOT_VERIFIED
  {
    Entity(id, name, isReference, NOT_VERIFIED, ENTITY, false, 0,
           None, None, None, None, None, None, false, None, None, None)
  }

  datatype TwitterProfile = TwitterProfile(url: Option<string>, description: Option<string>)

  /** The three origin subclasses and the columns each adds. */
  datatype OriginDetail =
    | TwitterOrigin(screenName: string, location: Option<string>, profile: Option<TwitterProfile>)
    | WebOrigin(rawUrl: Option<string>, expandedUrl: Option<string>, baseUrl: Option<string>)
    | RssOrigin(rssBaseUrl: Option<string>, rss: Option<string>, originWeb: Option<OriginId>)

  datatype Origin = Origin(
    id: OriginId,
    entity: Option<EntityId>,
    occurrences: nat,
    lastSyncedId: Option<int>,
    validExtraction: bool,
    detail: OriginDetail)

  /** `origins_mentioned_by_groups`: `entityId` (of `groupId`) cited `originId` in `contentId`. */
  datatype OriginGroup = OriginGroup(originId: OriginId, groupId: GroupId, entityId: EntityId, contentId: ContentId)

  datatype Group = Group(id: GroupId, name: string)

  datatype Content = Content(id: ContentId, contentType: ContentType, value: string,
                             link: Option<string>, origin: Option<OriginId>)

  datatype ContentOrigin = ContentOrigin(contentId: ContentId, originId: OriginId)

  datatype CompanySynonym = CompanySynonym(name: string, companyName: string)

  /** The `config` row (id 1); environment overrides are not modelled. */
  datatype Config = Config(
    maxTweets: nat,
    trustedSourceOriginsThreshold: int,
    trustedSourceGroupThreshold: int,
    sourceCandidateThreshold: int,
    useNluForCompanyDetection: bool,
    urlExtensionsToCheckForTrueUrl: seq<string>,
    domainsWhereNextElementMatters: seq<string>,
    ignoreForRssSearch: seq<string>,
    urlPatternsToIgnore: seq<string>,
    urlPatternToIgnoreForContentAnalysis: seq<string>,
    socialKeywordsPattern: string)

  /** The column defaults of the config table. */
  function DefaultConfig(): (c: Config)
    ensures c.sourceCandidateThreshold == 3
    ensures c.trustedSourceOriginsThreshold == 10 && c.trustedSourceGroupThreshold == 2
    ensures c.maxTweets == 20
  {
    Config(20, 10, 2, 3, false,
           [".ly/", ".co/", "lnkd.in/"],
           ["facebook.com", "twitter.com"],
           ["facebook.com", "twitter.com"],
           ["(facebook\\.com\\/events\\/)[0-9]*"],
           ["twitter.com", "youtube.com", "facebook.com", ".pdf"],
           "(facebook|twitter|linkedin|instagram|youtube)")
  }

  /**
   * The whole store as a value. `rows` lists the entity ids in the order a
   * query over the entities table returns them; `origins` is in relationship
   * order, so the origins owned by one entity, in order, are its `origins`
   * collection. Fresh ids of every table come from `nextId`.
   */
  datatype Db = Db(
    entities: map<EntityId, Entity>,
    rows: seq<EntityId>,
    origins: seq<Origin>,
    edges: seq<OriginGroup>,
    groups: seq<Group>,
    contents: seq<Content>,
    contentOrigins: seq<ContentOrigin>,
    companies: seq<string>,
    synonyms: seq<CompanySynonym>,
    analysisCompanies: seq<Option<string>>,
    nextId: nat)

  /** Keys agree with the stored ids and every row of `entities` is listed once in `rows`. */
  ghost predicate WellFormed(db: Db)
  {
    && (forall id :: id in db.entities ==> db.entities[id].id == id && id < db.nextId)
    && (forall i :: 0 <= i < |db.rows| ==> db.rows[i] in db.entities)
    && (forall i, j :: 0 <= i < j < |db.rows| ==> db.rows[i] != db.rows[j])
    && (forall id :: id in db.entities ==> id in db.rows)
    && (forall i :: 0 <= i < |db.origins| ==> db.origins[i].id < db.nextId)
  }

  function WithEntity(db: Db, e: Entity): (r: Db)
    ensures r.entities == db.entities[e.id := e]
  {
    db.(entities := db.entities[e.id := e])
  }

  /* ---- the origins of an entity ---- */

  /** `entity.origins`: the origins owned by `id`, in relationship order. */
  function OriginsOf(origins: seq<Origin>, id: EntityId): (r: seq<Origin>)
    ensures forall o :: o in r <==> o in origins && o.entity == Some(id)
    ensures |r| <= |origins|
  {
    if origins == [] then []
    else (if origins[0].entity == Some(id) then [origins[0]] else []) + OriginsOf(origins[1..], id)
  }

  /** Which of the lists of `list_distinct_origins` an origin falls into. */
  datatype Category = StandaloneRss | WebSite | TwitterAccount | RssOfWeb

  function CategoryOf(o: Origin): Category
  {
    match o.detail
    case TwitterOrigin(_, _, _) => TwitterAccount
    case WebOrigin(_, _, _) => WebSite
    case RssOrigin(_, _, w) => if w.None? then StandaloneRss else RssOfWeb
  }

  function OfCategory(os: seq<Origin>, c: Category): (r: seq<Origin>)
    ensures forall o :: o in r <==> o in os && CategoryOf(o) == c
  {
    if os == [] then []
    else (if CategoryOf(os[0]) == c then [os[0]] else []) + OfCategory(os[1..], c)
  }

  /**
   * The origins that count as evidence: standalone RSS feeds (a feed found
   * from a web origin would count that web site twice), then web sites, then
   * Twitter accounts.
   */
  function DistinctOrigins(os: seq<Origin>): seq<Origin>
  {
    OfCategory(os, StandaloneRss) + OfCategory(os, WebSite) + OfCategory(os, TwitterAccount)
  }

  function Rank(o: Origin): nat
  {
    match CategoryOf(o)
    case StandaloneRss => 0
    case WebSite => 1
    case TwitterAccount => 2
    case RssOfWeb => 3
  }

  /** Exactly the origins other than RSS feeds attached to a web origin are kept. */
  lemma DistinctOriginsMembers(os: seq<Origin>)
    ensures forall o :: o in DistinctOrigins(os) <==> o in os && CategoryOf(o) != RssOfWeb
  {
  }

  /** Standalone RSS feeds come first, then web sites, then Twitter accounts. */
  lemma DistinctOriginsOrdered(os: seq<Origin>)
    ensures var d := DistinctOrigins(os);
      forall i, j :: 0 <= i < j < |d| ==> Rank(d[i]) <= Rank(d[j])
  {
    var a := OfCategory(os, StandaloneRss);
    var b := OfCategory(os, WebSite);
    var c := OfCategory(os, TwitterAccount);
    var d := a + b + c;
    forall i | 0 <= i < |d|
      ensures Rank(d[i]) == if i < |a| then 0 else if i < |a| + |b| then 1 else 2
    {
      if i < |a| { assert d[i] == a[i]; assert d[i] in a; }
      else if i < |a| + |b| { assert d[i] == b[i - |a|]; assert d[i] in b; }
      else { assert d[i] == c[i - |a| - |b|]; assert d[i] in c; }
    }
  }

  /** The `reduce` over the distinct origins: the sum of their occurrences. */
  function SumOccurrences(os: seq<Origin>): nat
  {
    if os == [] then 0 else os[0].occurrences + SumOccurrences(os[1..])
  }

  lemma {:induction false} SumConcat(a: seq<Origin>, b: seq<Origin>)
    ensures SumOccurrences(a + b) == SumOccurrences(a) + SumOccurrences(b)
    decreases |a|
  {
    if a == [] {
      assert a + b == b;
    } else {
      assert (a + b)[0] == a[0];
      assert (a + b)[1..] == a[1..] + b;
      SumConcat(a[1..], b);
    }
  }

  lemma SumOfCategoryCons(os: seq<Origin>, c: Category)
    requires os != []
    ensures SumOccurrences(OfCategory(os, c))
         == (if CategoryOf(os[0]) == c then os[0].occurrences else 0) + SumOccurrences(OfCategory(os[1..], c))
  {
    var t := OfCategory(os[1..], c);
    if CategoryOf(os[0]) == c {
      assert OfCategory(os, c) == [os[0]] + t;
      assert ([os[0]] + t)[0] == os[0];
      assert ([os[0]] + t)[1..] == t;
    } else {
      assert OfCategory(os, c) == [] + t;
      assert [] + t == t;
    }
  }

  /** Summed over the four categories, the occurrences are those of all the origins. */
  lemma {:induction false} SumByCategory(os: seq<Origin>)
    ensures SumOccurrences(OfCategory(os, StandaloneRss)) + SumOccurrences(OfCategory(os, WebSite))
          + SumOccurrences(OfCategory(os, TwitterAccount)) + SumOccurrences(OfCategory(os, RssOfWeb))
          == SumOccurrences(os)
  {
    if os != [] {
      SumByCategory(os[1..]);
      SumOfCategoryCons(os, StandaloneRss);
      SumOfCategoryCons(os, WebSite);
      SumOfCategoryCons(os, TwitterAccount);
      SumOfCategoryCons(os, RssOfWeb);
    }
  }

  /**
   * Evidence lost by not double counting: the distinct sum is the total minus
   * the occurrences of the RSS feeds attached to a web origin.
   */
  lemma DistinctSumExcludesDerivedFeeds(os: seq<Origin>)
    ensures SumOccurrences(DistinctOrigins(os)) + SumOccurrences(OfCategory(os, RssOfWeb)) == SumOccurrences(os)
  {
    var a := OfCategory(os, StandaloneRss);
    var b := OfCategory(os, WebSite);
    var c := OfCategory(os, TwitterAccount);
    SumConcat(a + b, c);
    SumConcat(a, b);
    SumByCategory(os);
  }

  /** A web site seen 3 times and the feed found on it seen 5 times count as 3. */
  lemma WebWithItsFeedCountsOnce(entity: EntityId)
    ensures var web := Origin(1, Some(entity), 3, None, true, WebOrigin(None, None, Some("https://x.org")));
      var feed := Origin(2, Some(entity), 5, None, true, RssOrigin(Some("https://x.org"), Some("https://x.org/rss"), Some(1)));
      SumOccurrences(DistinctOrigins([web, feed])) == 3
  {
    var web := Origin(1, Some(entity), 3, None, true, WebOrigin(None, None, Some("https://x.org")));
    var feed := Origin(2, Some(entity), 5, None, true, RssOrigin(Some("https://x.org"), Some("https://x.org/rss"), Some(1)));
    assert [web, feed][1..] == [feed];
    assert [feed][1..] == [];
    assert OfCategory([feed], StandaloneRss) == [];
    assert OfCategory([feed], WebSite) == [];
    assert OfCategory([feed], TwitterAccount) == [];
    assert OfCategory([web, feed], StandaloneRss) == [];
    assert OfCategory([web, feed], WebSite) == [web];
    assert OfCategory([web, feed], TwitterAccount) == [];
    assert DistinctOrigins([web, feed]) == [web];
    assert [web][1..] == [];
  }

  /* ---- distinct groups ---- */

  function OriginIds(os: seq<Origin>): set<OriginId>
  {
    set o | o in os :: o.id
  }

  /** The ids of the groups whose members cited one of `os`. */
  function GroupsCiting(edges: seq<OriginGroup>, os: seq<Origin>): (r: set<GroupId>)
    ensures forall g :: g in r <==> exists e :: e in edges && e.originId in OriginIds(os) && e.groupId == g
  {
    set e | e in edges && e.originId in OriginIds(os) :: e.groupId
  }

  lemma CitingGroupsSnoc(edges: seq<OriginGroup>, ids: set<OriginId>, i: nat)
    requires i < |edges|
    ensures (set e | e in edges[..i + 1] && e.originId in ids :: e.groupId)
      == (set e | e in edges[..i] && e.originId in ids :: e.groupId) + (if edges[i].originId in ids then {edges[i].groupId} else {})
  {
    assert forall e :: e in edges[..i + 1] <==> e in edges[..i] || e == edges[i];
  }

  /** `compute_distinct_groups_origins_came_from`. */
  function DistinctGroups(edges: seq<OriginGroup>, os: seq<Origin>): nat
  {
    |GroupsCiting(edges, os)|
  }

  /** Citations by two different groups make two distinct groups. */
  lemma TwoGroupsCounted(edges: seq<OriginGroup>, os: seq<Origin>, e1: OriginGroup, e2: OriginGroup)
    requires e1 in edges && e2 in edges && e1.groupId != e2.groupId
    requires e1.originId in OriginIds(os) && e2.originId in OriginIds(os)
    ensures DistinctGroups(edges, os) >= 2
  {
    var gs := GroupsCiting(edges, os);
    assert {e1.groupId, e2.groupId} <= gs;
    assert |{e1.groupId, e2.groupId}| == 2;
    SubsetCard({e1.groupId, e2.groupId}, gs);
  }

  lemma SubsetCard<T>(a: set<T>, b: set<T>)
    requires a <= b
    ensures |a| <= |b|
  {
    assert b == a + (b - a);
  }

  /** Edges about other origins do not change the count. */
  lemma DistinctGroupsIgnoresOtherOrigins(edges: seq<OriginGroup>, os: seq<Origin>, e: OriginGroup)
    requires e.originId !in OriginIds(os)
    ensures DistinctGroups(edges + [e], os) == DistinctGroups(edges, os)
  {
    assert GroupsCiting(edges + [e], os) == GroupsCiting(edges, os);
  }

  /* ---- evidence of an entity ---- */

  function Evidence(db: Db, id: EntityId): seq<Origin>
  {
    DistinctOrigins(OriginsOf(db.origins, id))
  }

  function EvidenceSum(db: Db, id: EntityId): nat
  {
    SumOccurrences(Evidence(db, id))
  }

  function EvidenceGroups(db: Db, id: EntityId): nat
  {
    DistinctGroups(db.edges, Evidence(db, id))
  }

  /* ---- flag_source_candidate ---- */

  /** The entity after `flag_source_candidate`; its prior status is not looked at. */
  function FlaggedSourceCandidate(db: Db, cfg: Config, e: Entity): (r: Entity)
  {
    if EvidenceSum(db, e.id) >= cfg.sourceCandidateThreshold then e.(status := SOURCE_CANDIDATE) else e
  }

  /** The status becomes SOURCE_CANDIDATE exactly when the evidence reaches the threshold; nothing else changes. */
  lemma FlagSourceCandidateRule(db: Db, cfg: Config, e: Entity)
    ensures var r := FlaggedSourceCandidate(db, cfg, e);
      && (EvidenceSum(db, e.id) >= cfg.sourceCandidateThreshold ==> r.status == SOURCE_CANDIDATE)
      && (EvidenceSum(db, e.id) < cfg.sourceCandidateThreshold ==> r == e)
      && r == e.(status := r.status)
  {
  }

  /** A SOURCE whose evidence reaches the threshold is set back to SOURCE_CANDIDATE. */
  lemma FlagSourceCandidateDemotesSource(db: Db, cfg: Config, e: Entity)
    requires e.status == SOURCE && EvidenceSum(db, e.id) >= cfg.sourceCandidateThreshold
    ensures FlaggedSourceCandidate(db, cfg, e).status == SOURCE_CANDIDATE
    ensures FlaggedSourceCandidate(db, cfg, e).status.Value() < e.status.Value()
  {
  }

  lemma FlagSourceCandidateIdempotent(db: Db, cfg: Config, e: Entity)
    ensures var r := FlaggedSourceCandidate(db, cfg, e);
      FlaggedSourceCandidate(db, cfg, r) == r
  {
  }

  /* ---- flag_trusted_candidate ---- */

  predicate TrustEvidence(db: Db, cfg: Config, id: EntityId)
  {
    EvidenceSum(db, id) >= cfg.trustedSourceOriginsThreshold
    && EvidenceGroups(db, id) >= cfg.trustedSourceGroupThreshold
  }

  /** The entity after `flag_trusted_candidate`: trusted is set, never cleared. */
  function FlaggedTrusted(db: Db, cfg: Config, e: Entity): (r: Entity)
  {
    if EvidenceSum(db, e.id) >= cfg.trustedSourceOriginsThreshold then
      if EvidenceGroups(db, e.id) >= cfg.trustedSourceGroupThreshold then e.(trusted := true) else e
    else e
  }

  lemma FlagTrustedRule(db: Db, cfg: Config, e: Entity)
    ensures var r := FlaggedTrusted(db, cfg, e);
      && (r.trusted <==> e.trusted || TrustEvidence(db, cfg, e.id))
      && (e.trusted ==> r.trusted)
      && r == e.(trusted := r.trusted)
  {
  }

  /**
   * With the default thresholds, an entity cited ten times by members of two
   * different groups becomes trusted.
   */
  lemma TrustedWithTwoGroups(db: Db, e: Entity, c1: OriginGroup, c2: OriginGroup)
    requires EvidenceSum(db, e.id) >= 10
    requires c1 in db.edges && c2 in db.edges && c1.groupId != c2.groupId
    requires c1.originId in OriginIds(Evidence(db, e.id)) && c2.originId in OriginIds(Evidence(db, e.id))
    ensures FlaggedTrusted(db, DefaultConfig(), e).trusted
  {
    TwoGroupsCounted(db.edges, Evidence(db, e.id), c1, c2);
  }

  /* ---- enrich_source ---- */

  /** `ref_query`: the edges that cite origin `oid`, in table order. */
  function EdgesCiting(edges: seq<OriginGroup>, oid: OriginId): (r: seq<OriginGroup>)
    ensures forall e :: e in r <==> e in edges && e.originId == oid
  {
    if edges == [] then []
    else (if edges[0].originId == oid then [edges[0]] else []) + EdgesCiting(edges[1..], oid)
  }

  /** The edges visited by the nested loops of `enrich_source`, in visit order. */
  function VisitedEdges(edges: seq<OriginGroup>, os: seq<Origin>): seq<OriginGroup>
  {
    if os == [] then []
    else VisitedEdges(edges, os[..|os| - 1]) + EdgesCiting(edges, os[|os| - 1].id)
  }

  /** `origin_group.entity.name`; the foreign key makes the default unreachable. */
  function EntityName(db: Db, id: EntityId): string
  {
    if id in db.entities then db.entities[id].name else ""
  }

  /** `origin_group.group.name`. */
  function GroupName(groups: seq<Group>, id: GroupId): string
  {
    if groups == [] then ""
    else if groups[0].id == id then groups[0].name
    else GroupName(groups[1..], id)
  }

  /** One inner-loop step: a new name starts with one citation, a known one gains one. */
  function AddCitation(refs: map<string, Reference>, name: string, content: ContentId, group: string): map<string, Reference>
  {
    if name !in refs then refs[name := Reference(1, [content], group)]
    else refs[name := refs[name].(number := refs[name].number + 1, content := refs[name].content + [content])]
  }

  /** The dictionary built from a sequence of edges, starting from an empty one. */
  function References(db: Db, es: seq<OriginGroup>): map<string, Reference>
  {
    if es == [] then map[]
    else
      var last := es[|es| - 1];
      AddCitation(References(db, es[..|es| - 1]), EntityName(db, last.entityId), last.contentId, GroupName(db.groups, last.groupId))
  }

  /** One more edge of `originGroups` after `visited` adds its citation. */
  lemma ReferencesStep(db: Db, visited: seq<OriginGroup>, originGroups: seq<OriginGroup>, j: nat)
    requires j < |originGroups|
    ensures var og := originGroups[j];
      References(db, visited + originGroups[..j + 1]) ==
        AddCitation(References(db, visited + originGroups[..j]), EntityName(db, og.entityId), og.contentId, GroupName(db.groups, og.groupId))
  {
    var es := visited + originGroups[..j + 1];
    assert es[..|es| - 1] == visited + originGroups[..j];
    assert es[|es| - 1] == originGroups[j];
  }

  /** Reference definition: the contents of the edges whose citing entity is called `name`, in order. */
  function ContentsCitedBy(db: Db, es: seq<OriginGroup>, name: string): seq<ContentId>
  {
    if es == [] then []
    else
      ContentsCitedBy(db, es[..|es| - 1], name)
      + (if EntityName(db, es[|es| - 1].entityId) == name then [es[|es| - 1].contentId] else [])
  }

  /** The first edge whose citing entity is called `name`. */
  function FirstCitationBy(db: Db, es: seq<OriginGroup>, name: string): Option<OriginGroup>
  {
    if es == [] then None
    else if EntityName(db, es[0].entityId) == name then Some(es[0])
    else FirstCitationBy(db, es[1..], name)
  }

  lemma {:induction false} FirstCitationSnoc(db: Db, es: seq<OriginGroup>, e: OriginGroup, name: string)
    ensures FirstCitationBy(db, es + [e], name) ==
      if FirstCitationBy(db, es, name).Some? then FirstCitationBy(db, es, name)
      else if EntityName(db, e.entityId) == name then Some(e) else None
    decreases |es|
  {
    if es == [] {
      assert [e][1..] == [];
    } else {
      assert (es + [e])[0] == es[0];
      assert (es + [e])[1..] == es[1..] + [e];
      if EntityName(db, es[0].entityId) != name {
        FirstCitationSnoc(db, es[1..], e, name);
      }
    }
  }

  /**
   * The contributor summary, stated without the dictionary: a name is a key
   * iff some visited edge was cited by an entity of that name; its `content`
   * lists those edges' contents in visit order, `number` counts them and
   * `group` is the group of the first of them.
   */
  lemma {:induction false} ReferencesSpec(db: Db, es: seq<OriginGroup>, name: string)
    ensures var r := References(db, es);
      var cs := ContentsCitedBy(db, es, name);
      && (name in r <==> |cs| > 0)
      && (FirstCitationBy(db, es, name).Some? <==> |cs| > 0)
      && (name in r ==> FirstCitationBy(db, es, name).Some?
                        && r[name] == Reference(|cs|, cs, GroupName(db.groups, FirstCitationBy(db, es, name).value.groupId)))
    decreases |es|
  {
    if es != [] {
      var init := es[..|es| - 1];
      var last := es[|es| - 1];
      assert es == init + [last];
      ReferencesSpec(db, init, name);
      FirstCitationSnoc(db, init, last, name);
      var cs0 := ContentsCitedBy(db, init, name);
      assert ContentsCitedBy(db, es, name) ==
        cs0 + (if EntityName(db, last.entityId) == name then [last.contentId] else []);
    }
  }

  lemma {:induction false} VisitedEdgesSnoc(edges: seq<OriginGroup>, os: seq<Origin>, o: Origin)
    ensures VisitedEdges(edges, os + [o]) == VisitedEdges(edges, os) + EdgesCiting(edges, o.id)
  {
    assert (os + [o])[..|os|] == os;
  }

  /** The entity after `enrich_source`: evidence sum and a freshly built summary. */
  function Enriched(db: Db, e: Entity): (r: Entity)
    ensures r == e.(tOccurrences := r.tOccurrences, tSourceReferences := r.tSourceReferences)
    ensures r.tOccurrences == Some(EvidenceSum(db, e.id))
  {
    var ds := Evidence(db, e.id);
    e.(tOccurrences := Some(SumOccurrences(ds)),
       tSourceReferences := Some(References(db, VisitedEdges(db.edges, ds))))
  }

  /** The entity `enrich_source` stores is the enriched one. */
  lemma EnrichedIs(db: Db, e: Entity, e1: Entity)
    requires e1 == e.(tOccurrences := Some(EvidenceSum(db, e.id)),
                      tSourceReferences := Some(References(db, VisitedEdges(db.edges, Evidence(db, e.id)))))
    ensures e1 == Enriched(db, e)
  {
  }

  function EnrichSpec(db: Db, id: EntityId): (r: Db)
    requires id in db.entities && db.entities[id].id == id
    ensures id in r.entities && r.entities[id].id == id
    ensures r == db.(entities := r.entities) && r.entities.Keys == db.entities.Keys
    ensures forall x :: x in db.entities && x != id ==> r.entities[x] == db.entities[x]
  {
    WithEntity(db, Enriched(db, db.entities[id]))
  }

  /** The summary is rebuilt from scratch, so enriching twice is enriching once. */
  lemma EnrichIdempotent(db: Db, id: EntityId)
    requires id in db.entities && db.entities[id].id == id
    ensures EnrichSpec(EnrichSpec(db, id), id) == EnrichSpec(db, id)
  {
    var db1 := EnrichSpec(db, id);
    NamesUnchanged(db, db1, VisitedEdges(db.edges, Evidence(db, id)));
  }

  /** Changing entities without renaming them does not change any summary. */
  lemma {:induction false} NamesUnchanged(db: Db, db1: Db, es: seq<OriginGroup>)
    requires db1.groups == db.groups
    requires forall id :: id in db.entities <==> id in db1.entities
    requires forall id :: id in db.entities ==> db1.entities[id].name == db.entities[id].name
    ensures References(db1, es) == References(db, es)
    decreases |es|
  {
    if es != [] { NamesUnchanged(db, db1, es[..|es| - 1]); }
  }

  /* ---- promotion after a merge ---- */

  /**
   * `flag_source_candidate`, `flag_trusted_candidate`, then `enrich_source`
   * if the status is then SOURCE_CANDIDATE, all on entity `id`.
   */
  function PromoteSpec(db: Db, cfg: Config, id: EntityId): (r: Db)
    requires id in db.entities && db.entities[id].id == id
    ensures id in r.entities && r.entities[id].id == id
    ensures r == db.(entities := r.entities) && r.entities.Keys == db.entities.Keys
    ensures forall x :: x in db.entities && x != id ==> r.entities[x] == db.entities[x]
  {
    var db1 := WithEntity(db, FlaggedSourceCandidate(db, cfg, db.entities[id]));
    var db2 := WithEntity(db1, FlaggedTrusted(db1, cfg, db1.entities[id]));
    if db2.entities[id].status == SOURCE_CANDIDATE then EnrichSpec(db2, id) else db2
  }

  /* ---- merge_entities: checks ---- */

  function MissingMessage(e1: EntityId, e2: EntityId, missing: EntityId): string
  {
    "Cannot merge entities " + NatToString(e1) + " and " + NatToString(e2)
    + " as entity " + NatToString(missing) + " does not exist"
  }

  function BothReferencesMessage(e1: EntityId, e2: EntityId): string
  {
    "Cannot merge entities " + NatToString(e1) + " and " + NatToString(e2) + " as they are both references"
  }

  function DifferentGroupsMessage(e1: EntityId, e2: EntityId): string
  {
    "Cannot merge entities " + NatToString(e1) + " and " + NatToString(e2) + " as they belong to different groups"
  }

  const IDENTICAL_MESSAGE: string := "Cannot merge identical entities"

  predicate GroupsConflict(a: Entity, b: Entity)
  {
    a.groupId.Some? && b.groupId.Some? && a.groupId != b.groupId
  }

  /** The first failing check of `merge_entities`, in the order the source tests them. */
  function MergeRefusal(db: Db, e1: EntityId, e2: EntityId): (r: Option<string>)
    ensures r.None? <==>
      e1 in db.entities && e2 in db.entities && e1 != e2
      && !(db.entities[e1].isReference && db.entities[e2].isReference)
      && !GroupsConflict(db.entities[e1], db.entities[e2])
  {
    if e1 !in db.entities then Some(MissingMessage(e1, e2, e1))
    else if e2 !in db.entities then Some(MissingMessage(e1, e2, e2))
    else if e1 == e2 then Some(IDENTICAL_MESSAGE)
    else if db.entities[e1].isReference && db.entities[e2].isReference then Some(BothReferencesMessage(e1, e2))
    else if GroupsConflict(db.entities[e1], db.entities[e2]) then Some(DifferentGroupsMessage(e1, e2))
    else None
  }

  /** The entity that survives: the second one if it is a reference, else the first. */
  function KeptId(db: Db, e1: EntityId, e2: EntityId): EntityId
    requires e2 in db.entities
  {
    if db.entities[e2].isReference then e2 else e1
  }

  function WipedId(db: Db, e1: EntityId, e2: EntityId): EntityId
    requires e2 in db.entities
  {
    if db.entities[e2].isReference then e1 else e2
  }

  /* ---- merge_entities: field reconciliation ---- */

  function MinState(a: VerificationState, b: VerificationState): (r: VerificationState)
    ensures r.Value() <= a.Value() && r.Value() <= b.Value()
    ensures r == a || r == b
  {
    if a.Value() <= b.Value() then a else b
  }

  function MaxStatus(a: EntityStatus, b: EntityStatus): (r: EntityStatus)
    ensures r.Value() >= a.Value() && r.Value() >= b.Value()
    ensures r == a || r == b
  {
    if a.Value() >= b.Value() then a else b
  }

  function SuggestionIds(ss: seq<Suggestion>): set<EntityId>
  {
    set x | x in ss :: x.id
  }

  /** The `filter` dropping suggestions that point at either merged entity. */
  function WithoutIds(ss: seq<Suggestion>, a: EntityId, b: EntityId): (r: seq<Suggestion>)
    ensures forall x :: x in r <==> x in ss && x.id != a && x.id != b
  {
    if ss == [] then []
    else (if ss[0].id != a && ss[0].id != b then [ss[0]] else []) + WithoutIds(ss[1..], a, b)
  }

  /** The `id_added` loop: each id kept once, with its first entry. */
  function FirstById(ss: seq<Suggestion>): seq<Suggestion>
  {
    if ss == [] then []
    else
      var d := FirstById(ss[..|ss| - 1]);
      if ss[|ss| - 1].id in SuggestionIds(d) then d else d + [ss[|ss| - 1]]
  }

  /** The first entry of `ss` with the given id. */
  function FirstWithId(ss: seq<Suggestion>, id: EntityId): Option<Suggestion>
  {
    if ss == [] then None
    else if ss[0].id == id then Some(ss[0])
    else FirstWithId(ss[1..], id)
  }

  lemma {:induction false} FirstWithIdSnoc(ss: seq<Suggestion>, x: Suggestion, id: EntityId)
    ensures FirstWithId(ss + [x], id) ==
      if FirstWithId(ss, id).Some? then FirstWithId(ss, id) else if x.id == id then Some(x) else None
    decreases |ss|
  {
    if ss == [] {
      assert [x][1..] == [];
    } else {
      assert (ss + [x])[0] == ss[0];
      assert (ss + [x])[1..] == ss[1..] + [x];
      if ss[0].id != id { FirstWithIdSnoc(ss[1..], x, id); }
    }
  }

  lemma {:induction false} FirstWithIdFound(ss: seq<Suggestion>, id: EntityId)
    ensures FirstWithId(ss, id).Some? <==> id in SuggestionIds(ss)
    ensures FirstWithId(ss, id).Some? ==> FirstWithId(ss, id).value.id == id
    decreases |ss|
  {
    if ss != [] {
      FirstWithIdFound(ss[1..], id);
      assert SuggestionIds(ss) == {ss[0].id} + SuggestionIds(ss[1..]) by {
        assert forall x :: x in ss <==> x == ss[0] || x in ss[1..];
      }
    }
  }

  /**
   * First-occurrence deduplication: the ids are distinct, the same ids are
   * present, and each kept entry is the first one with its id.
   */
  lemma {:induction false} FirstByIdSpec(ss: seq<Suggestion>)
    ensures var d := FirstById(ss);
      && (forall i, j :: 0 <= i < j < |d| ==> d[i].id != d[j].id)
      && SuggestionIds(d) == SuggestionIds(ss)
      && (forall x :: x in d ==> FirstWithId(ss, x.id) == Some(x))
    decreases |ss|
  {
    if ss != [] {
      var init := ss[..|ss| - 1];
      var last := ss[|ss| - 1];
      assert ss == init + [last];
      FirstByIdSpec(init);
      var d := FirstById(init);
      assert SuggestionIds(init + [last]) == SuggestionIds(init) + {last.id} by {
        assert forall x :: x in init + [last] <==> x in init || x == last;
      }
      forall x | x in d ensures FirstWithId(ss, x.id) == Some(x) {
        FirstWithIdSnoc(init, last, x.id);
      }
      if last.id !in SuggestionIds(d) {
        assert SuggestionIds(d + [last]) == SuggestionIds(d) + {last.id} by {
          assert forall x :: x in d + [last] <==> x in d || x == last;
        }
        FirstWithIdSnoc(init, last, last.id);
        FirstWithIdFound(init, last.id);
        forall i, j | 0 <= i < j < |d| + 1 ensures (d + [last])[i].id != (d + [last])[j].id {
          if j == |d| { assert (d + [last])[i] in d; }
        }
      }
    }
  }

  /** `suggested_merges` of the kept entity: both lists, minus the merged pair, deduplicated, None if empty. */
  function MergedSuggestions(k: Entity, w: Entity): Option<seq<Suggestion>>
  {
    var d := FirstById(WithoutIds(k.suggestedMerges.GetOr([]) + w.suggestedMerges.GetOr([]), w.id, k.id));
    if d == [] then None else Some(d)
  }

  lemma MergedSuggestionsSpec(k: Entity, w: Entity)
    ensures var all := k.suggestedMerges.GetOr([]) + w.suggestedMerges.GetOr([]);
      var r := MergedSuggestions(k, w);
      && (r.None? <==> SuggestionIds(all) <= {k.id, w.id})
      && (r.Some? ==>
            && SuggestionIds(r.value) == SuggestionIds(all) - {k.id, w.id}
            && (forall i, j :: 0 <= i < j < |r.value| ==> r.value[i].id != r.value[j].id)
            && (forall x :: x in r.value ==> x in all))
  {
    var all := k.suggestedMerges.GetOr([]) + w.suggestedMerges.GetOr([]);
    var f := WithoutIds(all, w.id, k.id);
    FirstByIdSpec(f);
    assert SuggestionIds(f) == SuggestionIds(all) - {k.id, w.id} by {
      forall id | id in SuggestionIds(all) - {k.id, w.id} ensures id in SuggestionIds(f) {
        var x :| x in all && x.id == id;
        assert x in f;
      }
    }
    var d := FirstById(f);
    if d != [] {
      assert d[0].id in SuggestionIds(d);
      forall x | x in d ensures x in all {
        assert FirstWithId(f, x.id) == Some(x);
        FirstWithIdIn(f, x.id);
      }
    } else {
      assert SuggestionIds(d) == {};
    }
  }

  lemma {:induction false} FirstWithIdIn(ss: seq<Suggestion>, id: EntityId)
    ensures FirstWithId(ss, id).Some? ==> FirstWithId(ss, id).value in ss
    decreases |ss|
  {
    if ss != [] && ss[0].id != id { FirstWithIdIn(ss[1..], id); }
  }

  function MergeDetail(wiped: EntityId, reason: string): string
  {
    "Merged with (removed) entity " + NatToString(wiped) + " (" + reason + ")"
  }

  /** The kept entity after the rules that precede the origin reassignment (lines 240-290). */
  function ReconciledBeforeOrigins(k: Entity, w: Entity): Entity
  {
    var cs := k.comments.GetOr([]) + w.comments.GetOr([]);
    k.(verificationState := MinState(k.verificationState, w.verificationState),
       status := MaxStatus(k.status, w.status),
       trusted := k.trusted && w.trusted,
       merges := k.merges + w.merges + 1,
       matchDone := k.matchDone && w.matchDone,
       suggestedMerges := MergedSuggestions(k, w),
       comments := if |cs| > 0 then Some(cs) else k.comments)
  }

  /** The kept entity after all the field rules, before the promotion rules run again. */
  function Reconciled(k: Entity, w: Entity, reason: string): Entity
  {
    var p := ReconciledBeforeOrigins(k, w);
    p.(mergesDetails := Some(k.mergesDetails.GetOr([]) + w.mergesDetails.GetOr([]) + [MergeDetail(w.id, reason)]),
       groupId := if w.groupId.Some? && k.groupId.None? then w.groupId else k.groupId,
       matchDone := p.matchDone || w.matchDone)
  }

  /** What the field rules promise, rule by rule. */
  lemma ReconciledRules(k: Entity, w: Entity, reason: string)
    ensures var r := Reconciled(k, w, reason);
      && r.id == k.id && r.name == k.name && r.isReference == k.isReference
      && r.verificationState.Value() <= k.verificationState.Value()
      && r.verificationState.Value() <= w.verificationState.Value()
      && (r.verificationState == k.verificationState || r.verificationState == w.verificationState)
      && r.status.Value() >= k.status.Value() && r.status.Value() >= w.status.Value()
      && (r.status == k.status || r.status == w.status)
      && (r.trusted <==> k.trusted && w.trusted)
      && r.merges == k.merges + w.merges + 1
      && r.mergesDetails.Some?
      && r.mergesDetails.value == k.mergesDetails.GetOr([]) + w.mergesDetails.GetOr([]) + [MergeDetail(w.id, reason)]
      && (k.groupId.Some? ==> r.groupId == k.groupId)
      && (k.groupId.None? ==> r.groupId == w.groupId)
      && (r.comments == k.comments || r.comments == Some(k.comments.GetOr([]) + w.comments.GetOr([])))
      && (|k.comments.GetOr([]) + w.comments.GetOr([])| > 0 ==> r.comments.Some?)
  {
  }

  /** The AND at line 259 followed by the OR at line 310 leave the absorbed entity's value. */
  lemma ReconciledMatchDoneIsAbsorbed(k: Entity, w: Entity, reason: string)
    ensures Reconciled(k, w, reason).matchDone == w.matchDone
  {
  }

  /* ---- merge_entities: origins ---- */

  function NotOwnedBy(origins: seq<Origin>, id: EntityId): (r: seq<Origin>)
    ensures forall o :: o in r <==> o in origins && o.entity != Some(id)
  {
    if origins == [] then []
    else (if origins[0].entity != Some(id) then [origins[0]] else []) + NotOwnedBy(origins[1..], id)
  }

  /** `o.entity = entity_to_keep` for each origin, in order. */
  function Reowned(os: seq<Origin>, keep: EntityId): (r: seq<Origin>)
    ensures |r| == |os|
    ensures forall i :: 0 <= i < |os| ==> r[i] == os[i].(entity := Some(keep))
  {
    seq(|os|, i requires 0 <= i < |os| => os[i].(entity := Some(keep)))
  }

  /**
   * The intended reassignment: every origin of the absorbed entity moves to
   * the kept one and goes to the end of the kept entity's collection, as the
   * backref appends it there.
   */
  function ReassignOrigins(origins: seq<Origin>, wipe: EntityId, keep: EntityId): seq<Origin>
  {
    NotOwnedBy(origins, wipe) + Reowned(OriginsOf(origins, wipe), keep)
  }

  lemma {:induction false} OriginsOfConcat(a: seq<Origin>, b: seq<Origin>, id: EntityId)
    ensures OriginsOf(a + b, id) == OriginsOf(a, id) + OriginsOf(b, id)
    decreases |a|
  {
    if a == [] {
      assert a + b == b;
    } else {
      assert (a + b)[0] == a[0];
      assert (a + b)[1..] == a[1..] + b;
      OriginsOfConcat(a[1..], b, id);
    }
  }

  lemma {:induction false} OriginsOfNotOwnedBy(origins: seq<Origin>, wipe: EntityId, id: EntityId)
    ensures OriginsOf(NotOwnedBy(origins, wipe), id) == if id == wipe then [] else OriginsOf(origins, id)
    decreases |origins|
  {
    if origins != [] {
      var h := if origins[0].entity != Some(wipe) then [origins[0]] else [];
      OriginsOfConcat(h, NotOwnedBy(origins[1..], wipe), id);
      OriginsOfNotOwnedBy(origins[1..], wipe, id);
      if h != [] { assert h[1..] == []; }
    }
  }

  lemma {:induction false} OriginsOfReowned(os: seq<Origin>, keep: EntityId, id: EntityId)
    ensures OriginsOf(Reowned(os, keep), id) == if id == keep then Reowned(os, keep) else []
    decreases |os|
  {
    if os != [] {
      var r := Reowned(os, keep);
      assert r[1..] == Reowned(os[1..], keep);
      OriginsOfReowned(os[1..], keep, id);
    }
  }

  /** After reassignment the absorbed entity owns nothing and the kept one owns both lists. */
  lemma ReassignOriginsSpec(origins: seq<Origin>, wipe: EntityId, keep: EntityId, other: EntityId)
    requires wipe != keep
    ensures var r := ReassignOrigins(origins, wipe, keep);
      && |r| == |origins|
      && OriginsOf(r, wipe) == []
      && OriginsOf(r, keep) == OriginsOf(origins, keep) + Reowned(OriginsOf(origins, wipe), keep)
      && (other != wipe && other != keep ==> OriginsOf(r, other) == OriginsOf(origins, other))
  {
    var moved := Reowned(OriginsOf(origins, wipe), keep);
    forall id ensures OriginsOf(ReassignOrigins(origins, wipe, keep), id) ==
        OriginsOf(NotOwnedBy(origins, wipe), id) + OriginsOf(moved, id) {
      OriginsOfConcat(NotOwnedBy(origins, wipe), moved, id);
    }
    OriginsOfNotOwnedBy(origins, wipe, wipe);
    OriginsOfNotOwnedBy(origins, wipe, keep);
    OriginsOfNotOwnedBy(origins, wipe, other);
    OriginsOfReowned(OriginsOf(origins, wipe), keep, wipe);
    OriginsOfReowned(OriginsOf(origins, wipe), keep, keep);
    OriginsOfReowned(OriginsOf(origins, wipe), keep, other);
    NotOwnedByLength(origins, wipe);
  }

  lemma {:induction false} NotOwnedByLength(origins: seq<Origin>, id: EntityId)
    ensures |NotOwnedBy(origins, id)| + |OriginsOf(origins, id)| == |origins|
    decreases |origins|
  {
    if origins != [] { NotOwnedByLength(origins[1..], id); }
  }

  /* ---- merge_entities: the loop over the absorbed entity's origins, as written ---- */

  function EvenPositions<T>(s: seq<T>): (r: seq<T>)
    ensures |r| == (|s| + 1) / 2
  {
    seq((|s| + 1) / 2, k requires 0 <= k < (|s| + 1) / 2 => s[2 * k])
  }

  function OddPositions<T>(s: seq<T>): (r: seq<T>)
    ensures |r| == |s| / 2
  {
    seq(|s| / 2, k requires 0 <= k < |s| / 2 => s[2 * k + 1])
  }

  /**
   * `for o in entity_to_wipe.origins: o.entity = entity_to_keep` as the ORM
   * runs it: assigning `o.entity` fires the `entity` backref, which removes
   * `o` from the very list being iterated, so the iterator's next index skips
   * the element that slid into the removed slot. `left` is what stays in the
   * absorbed entity's collection.
   */
  method ReassignWhileIterating(children: seq<Origin>, keep: EntityId) returns (moved: seq<Origin>, left: seq<Origin>)
    ensures moved == Reowned(EvenPositions(children), keep)
    ensures left == OddPositions(children)
  {
    var collection := children;
    moved := [];
    var i := 0;
    ghost var m := 0;
    while i < |collection|
      invariant m == if 2 * i <= |children| then 2 * i else |children|
      invariant collection == StillListed(children, m)
      invariant moved == Reowned(EvenPositions(children[..m]), keep)
    {
      IterationStep(children, i, m, keep);
      moved := moved + [collection[i].(entity := Some(keep))];
      collection := collection[..i] + collection[i + 1..];
      i := i + 1;
      m := if 2 * i <= |children| then 2 * i else |children|;
    }
    IterationEnd(children, i, m);
    left := collection;
  }

  /** The collection after the first `m` elements were visited: the skipped ones, then the unvisited ones. */
  function StillListed(children: seq<Origin>, m: nat): seq<Origin>
    requires m <= |children|
  {
    OddPositions(children[..m]) + children[m..]
  }

  lemma IterationStep(children: seq<Origin>, i: nat, m: nat, keep: EntityId)
    requires m == if 2 * i <= |children| then 2 * i else |children|
    requires i < |StillListed(children, m)|
    ensures 2 * i < |children| && m == 2 * i
    ensures var c := StillListed(children, m);
      var m' := if 2 * i + 2 <= |children| then 2 * i + 2 else |children|;
      && c[i] == children[2 * i]
      && c[..i] + c[i + 1..] == StillListed(children, m')
      && Reowned(EvenPositions(children[..m]), keep) + [c[i].(entity := Some(keep))]
         == Reowned(EvenPositions(children[..m']), keep)
  {
    var c := StillListed(children, m);
    assert |c| == m / 2 + (|children| - m);
    assert c[i] == children[2 * i] by {
      assert |OddPositions(children[..2 * i])| == i;
    }
    ParityStep(children, i);
    var m' := if 2 * i + 2 <= |children| then 2 * i + 2 else |children|;
    assert c[..i] == OddPositions(children[..2 * i]);
    assert c[i + 1..] == children[2 * i + 1..];
    assert Reowned(EvenPositions(children[..m']), keep)
        == Reowned(EvenPositions(children[..m]), keep) + [children[2 * i].(entity := Some(keep))];
  }

  lemma IterationEnd(children: seq<Origin>, i: nat, m: nat)
    requires m == if 2 * i <= |children| then 2 * i else |children|
    requires i >= |StillListed(children, m)|
    ensures m == |children|
    ensures StillListed(children, m) == OddPositions(children)
    ensures children[..m] == children
  {
    assert |StillListed(children, m)| == m / 2 + (|children| - m);
    assert children[..|children|] == children;
  }

  lemma ParityStep(s: seq<Origin>, i: nat)
    requires 2 * i < |s|
    ensures var m := if 2 * i + 2 <= |s| then 2 * i + 2 else |s|;
      && OddPositions(s[..m]) + s[m..] == OddPositions(s[..2 * i]) + s[2 * i + 1..]
      && EvenPositions(s[..m]) == EvenPositions(s[..2 * i]) + [s[2 * i]]
  {
    var m := if 2 * i + 2 <= |s| then 2 * i + 2 else |s|;
    if m == 2 * i + 2 {
      assert OddPositions(s[..m]) == OddPositions(s[..2 * i]) + [s[2 * i + 1]];
      assert s[2 * i + 1..] == [s[2 * i + 1]] + s[m..];
    } else {
      assert OddPositions(s[..m]) == OddPositions(s[..2 * i]);
    }
  }

  /** With two origins, the second is never reassigned: it is left on the entity about to be deleted. */
  lemma BackrefLoopSkipsSecondOrigin(a: Origin, b: Origin, keep: EntityId)
    ensures OddPositions([a, b]) == [b]
    ensures Reowned(EvenPositions([a, b]), keep) == [a.(entity := Some(keep))]
  {
  }

  /** In general `|s| / 2` origins are left behind, so any entity with two or more loses some. */
  lemma BackrefLoopLeavesHalf(s: seq<Origin>)
    requires |s| >= 2
    ensures |OddPositions(s)| >= 1 && |EvenPositions(s)| < |s|
  {
  }

  /**
   * The origin table after that loop: the origins at even positions of the
   * absorbed entity's collection go to the end of the kept entity's, the
   * others are still the absorbed entity's.
   */
  function ReassignAsWritten(origins: seq<Origin>, wipe: EntityId, keep: EntityId): seq<Origin>
  {
    var w := OriginsOf(origins, wipe);
    NotOwnedBy(origins, wipe) + OddPositions(w) + Reowned(EvenPositions(w), keep)
  }

  /** Deleting an entity without a delete cascade sets `entity_id` to NULL on the origins it still owns. */
  function Orphaned(origins: seq<Origin>, id: EntityId): (r: seq<Origin>)
    ensures |r| == |origins|
    decreases |origins|
  {
    if origins == [] then []
    else [if origins[0].entity == Some(id) then origins[0].(entity := None) else origins[0]] + Orphaned(origins[1..], id)
  }

  /** After the delete the entity owns no origin, and every other entity keeps exactly the ones it had. */
  lemma {:induction false} OriginsOfOrphaned(origins: seq<Origin>, id: EntityId, x: EntityId)
    ensures OriginsOf(Orphaned(origins, id), x) == if x == id then [] else OriginsOf(origins, x)
    decreases |origins|
  {
    if origins != [] {
      var r := Orphaned(origins, id);
      assert r[1..] == Orphaned(origins[1..], id);
      OriginsOfOrphaned(origins[1..], id, x);
    }
  }

  /** The orphaned rows are the ones the entity owned, with no owner. */
  lemma {:induction false} OrphanedKeepsRows(origins: seq<Origin>, id: EntityId, o: Origin)
    requires o in origins && o.entity == Some(id)
    ensures o.(entity := None) in Orphaned(origins, id)
    decreases |origins|
  {
    if origins[0] != o {
      OrphanedKeepsRows(origins[1..], id, o);
    }
  }

  lemma {:induction false} OriginsOfOwned(s: seq<Origin>, id: EntityId, x: EntityId)
    requires forall o :: o in s ==> o.entity == Some(id)
    ensures OriginsOf(s, x) == if x == id then s else []
    decreases |s|
  {
    if s != [] {
      assert s[0] in s;
      assert forall o :: o in s[1..] ==> o in s;
      OriginsOfOwned(s[1..], id, x);
    }
  }

  /** Who owns what after the loop as written. */
  lemma {:induction false} ReassignAsWrittenOwners(origins: seq<Origin>, wipe: EntityId, keep: EntityId, x: EntityId)
    requires wipe != keep
    ensures var w := OriginsOf(origins, wipe);
      OriginsOf(ReassignAsWritten(origins, wipe, keep), x) ==
        if x == wipe then OddPositions(w)
        else if x == keep then OriginsOf(origins, keep) + Reowned(EvenPositions(w), keep)
        else OriginsOf(origins, x)
  {
    var w := OriginsOf(origins, wipe);
    var n, odd, moved := NotOwnedBy(origins, wipe), OddPositions(w), Reowned(EvenPositions(w), keep);
    assert ReassignAsWritten(origins, wipe, keep) == n + odd + moved;
    OwnersOfThree(n, odd, moved, x);
    OriginsOfNotOwnedBy(origins, wipe, x);
    OddPositionsOwned(origins, wipe, x);
    OriginsOfReowned(EvenPositions(w), keep, x);
  }

  lemma OwnersOfThree(a: seq<Origin>, b: seq<Origin>, c: seq<Origin>, x: EntityId)
    ensures OriginsOf(a + b + c, x) == OriginsOf(a, x) + OriginsOf(b, x) + OriginsOf(c, x)
  {
    OriginsOfConcat(a + b, c, x);
    OriginsOfConcat(a, b, x);
  }

  lemma OddPositionsOwned(origins: seq<Origin>, wipe: EntityId, x: EntityId)
    ensures var odd := OddPositions(OriginsOf(origins, wipe));
      OriginsOf(odd, x) == if x == wipe then odd else []
  {
    OddPositionsIn(OriginsOf(origins, wipe));
    OriginsOfOwned(OddPositions(OriginsOf(origins, wipe)), wipe, x);
  }

  lemma OddPositionsIn<T>(s: seq<T>)
    ensures forall o :: o in OddPositions(s) ==> o in s
  {
    forall o | o in OddPositions(s) ensures o in s {
      var k :| 0 <= k < |s| / 2 && OddPositions(s)[k] == o;
      assert s[2 * k + 1] == o;
    }
  }

  /* ---- merge_entities: the whole operation ---- */

  datatype MergeOutcome = MergeOutcome(db: Db, ok: bool, message: string)

  predicate KeysMatch(entities: map<EntityId, Entity>)
  {
    forall id :: id in entities ==> entities[id].id == id
  }

  function WithoutRow(rows: seq<EntityId>, id: EntityId): (r: seq<EntityId>)
    ensures forall x :: x in r <==> x in rows && x != id
  {
    if rows == [] then []
    else (if rows[0] != id then [rows[0]] else []) + WithoutRow(rows[1..], id)
  }

  function MergedMessage(wipe: EntityId, keep: EntityId): string
  {
    "Entity id=" + NatToString(wipe) + " was merged into entity id=" + NatToString(keep)
  }

  /** The store after the field rules and the origin loop as written, before promotion. */
  function MergeStep(db: Db, keep: EntityId, wipe: EntityId, reason: string): (r: Db)
    requires keep in db.entities && wipe in db.entities
  {
    db.(entities := db.entities[keep := Reconciled(db.entities[keep], db.entities[wipe], reason)],
        origins := ReassignAsWritten(db.origins, wipe, keep))
  }

  /** `merge_entities(e1, e2, reason)`. */
  function MergeSpec(db: Db, cfg: Config, e1: EntityId, e2: EntityId, reason: string): (r: MergeOutcome)
    requires KeysMatch(db.entities)
    ensures KeysMatch(r.db.entities) && r.db.entities.Keys <= db.entities.Keys
  {
    match MergeRefusal(db, e1, e2)
    case Some(msg) => MergeOutcome(db, false, msg)
    case None =>
      var keep := KeptId(db, e1, e2);
      var wipe := WipedId(db, e1, e2);
      MergeOutcome(MergedStore(db, cfg, keep, wipe, reason), true, MergedMessage(wipe, keep))
  }

  /** An accepted merge: the reconciled entity and its origins, its promotion, then the deletion of `wipe`. */
  function MergedStore(db: Db, cfg: Config, keep: EntityId, wipe: EntityId, reason: string): (r: Db)
    requires KeysMatch(db.entities) && keep in db.entities && wipe in db.entities
    ensures KeysMatch(r.entities) && r.entities.Keys <= db.entities.Keys
  {
    PromotedAndDeleted(MergeStep(db, keep, wipe, reason), cfg, keep, wipe)
  }

  /** The end of a merge: promotion when `match_done` holds, then the deletion of `wipe`, which orphans what it still owns. */
  function PromotedAndDeleted(db1: Db, cfg: Config, keep: EntityId, wipe: EntityId): (r: Db)
    requires KeysMatch(db1.entities) && keep in db1.entities
    ensures KeysMatch(r.entities) && r.entities.Keys <= db1.entities.Keys
  {
    var db2 := if db1.entities[keep].matchDone then PromoteSpec(db1, cfg, keep) else db1;
    db2.(entities := db2.entities - {wipe}, rows := WithoutRow(db2.rows, wipe), origins := Orphaned(db2.origins, wipe))
  }

  /** `merge_entities` as intended: every origin of the absorbed entity is given to the kept one. */
  function MergeIntended(db: Db, cfg: Config, e1: EntityId, e2: EntityId, reason: string): (r: MergeOutcome)
    requires KeysMatch(db.entities)
    ensures KeysMatch(r.db.entities) && r.db.entities.Keys <= db.entities.Keys
  {
    match MergeRefusal(db, e1, e2)
    case Some(msg) => MergeOutcome(db, false, msg)
    case None =>
      var keep := KeptId(db, e1, e2);
      var wipe := WipedId(db, e1, e2);
      MergeOutcome(MergedStoreIntended(db, cfg, keep, wipe, reason), true, MergedMessage(wipe, keep))
  }

  /** An accepted merge as intended: the same steps, with every origin re-owned. */
  function MergedStoreIntended(db: Db, cfg: Config, keep: EntityId, wipe: EntityId, reason: string): (r: Db)
    requires KeysMatch(db.entities) && keep in db.entities && wipe in db.entities
    ensures KeysMatch(r.entities) && r.entities.Keys <= db.entities.Keys
  {
    var db1 := db.(entities := db.entities[keep := Reconciled(db.entities[keep], db.entities[wipe], reason)],
                   origins := ReassignOrigins(db.origins, wipe, keep));
    PromotedAndDeleted(db1, cfg, keep, wipe)
  }

  /** A refused merge reports the first failing check and writes nothing. */
  lemma MergeRefusedWritesNothing(db: Db, cfg: Config, e1: EntityId, e2: EntityId, reason: string)
    requires KeysMatch(db.entities)
    ensures var r := MergeSpec(db, cfg, e1, e2, reason);
      && (r.ok <==> MergeRefusal(db, e1, e2).None?)
      && (!r.ok ==> r.db == db && Some(r.message) == MergeRefusal(db, e1, e2))
  {
  }

  /** The checks run in a fixed order: a missing first entity is reported even if the second is missing too. */
  lemma MergeChecksInOrder(db: Db, e1: EntityId, e2: EntityId)
    ensures e1 !in db.entities ==> MergeRefusal(db, e1, e2) == Some(MissingMessage(e1, e2, e1))
    ensures e1 in db.entities && e2 !in db.entities ==> MergeRefusal(db, e1, e2) == Some(MissingMessage(e1, e2, e2))
    ensures e1 in db.entities && e1 == e2 ==> MergeRefusal(db, e1, e2) == Some(IDENTICAL_MESSAGE)
    ensures e1 in db.entities && e2 in db.entities && e1 != e2
            && db.entities[e1].isReference && db.entities[e2].isReference
            ==> MergeRefusal(db, e1, e2) == Some(BothReferencesMessage(e1, e2))
  {
  }

  /** A single reference survives the merge whichever argument it is passed as. */
  lemma MergeKeepsTheReference(db: Db, cfg: Config, a: EntityId, b: EntityId, reason: string)
    requires KeysMatch(db.entities)
    requires MergeRefusal(db, a, b).None?
    requires db.entities[a].isReference && !db.entities[b].isReference
    ensures MergeRefusal(db, b, a).None?
    ensures a in MergeSpec(db, cfg, a, b, reason).db.entities && b !in MergeSpec(db, cfg, a, b, reason).db.entities
    ensures a in MergeSpec(db, cfg, b, a, reason).db.entities && b !in MergeSpec(db, cfg, b, a, reason).db.entities
  {
    MergeKeepsKept(db, cfg, a, b, reason);
    MergeKeepsKept(db, cfg, b, a, reason);
  }

  /** On success the kept entity stays, the absorbed one is gone from the table and from the row order. */
  lemma MergeKeepsKept(db: Db, cfg: Config, e1: EntityId, e2: EntityId, reason: string)
    requires KeysMatch(db.entities) && MergeRefusal(db, e1, e2).None?
    ensures var r := MergeSpec(db, cfg, e1, e2, reason);
      && r.ok
      && KeptId(db, e1, e2) in r.db.entities
      && WipedId(db, e1, e2) !in r.db.entities
      && WipedId(db, e1, e2) !in r.db.rows
      && r.message == MergedMessage(WipedId(db, e1, e2), KeptId(db, e1, e2))
  {
  }

  /** When the absorbed entity was not yet matched, the kept entity is exactly the reconciled one. */
  lemma MergeWithoutPromotion(db: Db, cfg: Config, e1: EntityId, e2: EntityId, reason: string)
    requires KeysMatch(db.entities) && MergeRefusal(db, e1, e2).None?
    requires !db.entities[WipedId(db, e1, e2)].matchDone
    ensures var keep := KeptId(db, e1, e2);
      MergeSpec(db, cfg, e1, e2, reason).db.entities[keep]
        == Reconciled(db.entities[keep], db.entities[WipedId(db, e1, e2)], reason)
  {
    ReconciledMatchDoneIsAbsorbed(db.entities[KeptId(db, e1, e2)], db.entities[WipedId(db, e1, e2)], reason);
  }

  /**
   * Otherwise the promotion rules run on the kept entity: they touch only
   * status, trust and the enrichment fields, and trust is never withdrawn.
   */
  lemma MergeWithPromotion(db: Db, cfg: Config, e1: EntityId, e2: EntityId, reason: string)
    requires KeysMatch(db.entities) && MergeRefusal(db, e1, e2).None?
    requires db.entities[WipedId(db, e1, e2)].matchDone
    ensures var keep := KeptId(db, e1, e2);
      var c := Reconciled(db.entities[keep], db.entities[WipedId(db, e1, e2)], reason);
      var r := MergeSpec(db, cfg, e1, e2, reason).db.entities[keep];
      && r == c.(status := r.status, trusted := r.trusted, tOccurrences := r.tOccurrences,
                 tSourceReferences := r.tSourceReferences)
      && (c.trusted ==> r.trusted)
      && r.matchDone
  {
    var keep := KeptId(db, e1, e2);
    var wipe := WipedId(db, e1, e2);
    ReconciledMatchDoneIsAbsorbed(db.entities[keep], db.entities[wipe], reason);
    var db1 := MergeStep(db, keep, wipe, reason);
    PromoteTouchesOnlyFlags(db1, cfg, keep);
  }

  lemma PromoteTouchesOnlyFlags(db: Db, cfg: Config, id: EntityId)
    requires id in db.entities && db.entities[id].id == id
    ensures var e := db.entities[id];
      var r := PromoteSpec(db, cfg, id).entities[id];
      && r == e.(status := r.status, trusted := r.trusted, tOccurrences := r.tOccurrences,
                 tSourceReferences := r.tSourceReferences)
      && (e.trusted ==> r.trusted)
      && PromoteSpec(db, cfg, id).entities - {id} == db.entities - {id}
  {
    var e := db.entities[id];
    FlagSourceCandidateRule(db, cfg, e);
    var db1 := WithEntity(db, FlaggedSourceCandidate(db, cfg, e));
    FlagTrustedRule(db1, cfg, db1.entities[id]);
    OthersKept(PromoteSpec(db, cfg, id).entities, db.entities, id);
  }

  /** Two maps with the same keys that agree away from `id` are equal without `id`. */
  lemma OthersKept(m1: map<EntityId, Entity>, m2: map<EntityId, Entity>, id: EntityId)
    requires m1.Keys == m2.Keys && forall x :: x in m2 && x != id ==> m1[x] == m2[x]
    ensures m1 - {id} == m2 - {id}
  {
  }

  /** The net `match_done` of the kept entity is the absorbed entity's. */
  lemma MergeMatchDoneNetEffect(db: Db, cfg: Config, e1: EntityId, e2: EntityId, reason: string)
    requires KeysMatch(db.entities) && MergeRefusal(db, e1, e2).None?
    ensures MergeSpec(db, cfg, e1, e2, reason).db.entities[KeptId(db, e1, e2)].matchDone
         == db.entities[WipedId(db, e1, e2)].matchDone
  {
    var keep := KeptId(db, e1, e2);
    var wipe := WipedId(db, e1, e2);
    ReconciledMatchDoneIsAbsorbed(db.entities[keep], db.entities[wipe], reason);
    if db.entities[wipe].matchDone {
      PromoteTouchesOnlyFlags(MergeStep(db, keep, wipe, reason), cfg, keep);
    }
  }

  /**
   * As written: the kept entity gains only the origins at even positions of
   * the absorbed entity's collection, the others lose their owner when the
   * absorbed entity is deleted, and every other entity keeps its origins.
   */
  lemma MergeOriginsAsWritten(db: Db, cfg: Config, e1: EntityId, e2: EntityId, reason: string, x: EntityId)
    requires KeysMatch(db.entities) && MergeRefusal(db, e1, e2).None?
    ensures var keep := KeptId(db, e1, e2);
      var wipe := WipedId(db, e1, e2);
      var w := OriginsOf(db.origins, wipe);
      var r := MergeSpec(db, cfg, e1, e2, reason).db;
      && OriginsOf(r.origins, x) ==
           (if x == wipe then []
            else if x == keep then OriginsOf(db.origins, keep) + Reowned(EvenPositions(w), keep)
            else OriginsOf(db.origins, x))
      && (forall o :: o in OddPositions(w) ==> o.(entity := None) in r.origins)
  {
    var keep := KeptId(db, e1, e2);
    var wipe := WipedId(db, e1, e2);
    MergedOrigins(db, cfg, e1, e2, reason);
    ReassignAsWrittenOwners(db.origins, wipe, keep, x);
    OriginsOfOrphaned(ReassignAsWritten(db.origins, wipe, keep), wipe, x);
    SkippedOriginsOrphaned(db.origins, wipe, keep);
  }

  /** The origin table after an accepted merge: the loop as written, then the orphaning delete. */
  lemma MergedOrigins(db: Db, cfg: Config, e1: EntityId, e2: EntityId, reason: string)
    requires KeysMatch(db.entities) && MergeRefusal(db, e1, e2).None?
    ensures var keep := KeptId(db, e1, e2);
      var wipe := WipedId(db, e1, e2);
      MergeSpec(db, cfg, e1, e2, reason).db.origins == Orphaned(ReassignAsWritten(db.origins, wipe, keep), wipe)
  {
  }

  /** The origins the loop skips stay in the table, with no owner once the absorbed entity is deleted. */
  lemma SkippedOriginsOrphaned(origins: seq<Origin>, wipe: EntityId, keep: EntityId)
    ensures var w := OriginsOf(origins, wipe);
      forall o :: o in OddPositions(w) ==> o.(entity := None) in Orphaned(ReassignAsWritten(origins, wipe, keep), wipe)
  {
    var w := OriginsOf(origins, wipe);
    var moved := ReassignAsWritten(origins, wipe, keep);
    OddPositionsIn(w);
    forall o | o in OddPositions(w)
      ensures o.(entity := None) in Orphaned(moved, wipe)
    {
      assert o in moved;
      OrphanedKeepsRows(moved, wipe, o);
    }
  }

  /** As intended: all the absorbed entity's origins end up owned by the kept entity. */
  lemma MergeMovesAllOrigins(db: Db, cfg: Config, e1: EntityId, e2: EntityId, reason: string)
    requires KeysMatch(db.entities) && MergeRefusal(db, e1, e2).None?
    ensures var keep := KeptId(db, e1, e2);
      var wipe := WipedId(db, e1, e2);
      var r := MergeIntended(db, cfg, e1, e2, reason).db;
      && OriginsOf(r.origins, wipe) == []
      && OriginsOf(r.origins, keep) == OriginsOf(db.origins, keep) + Reowned(OriginsOf(db.origins, wipe), keep)
  {
    var keep := KeptId(db, e1, e2);
    var wipe := WipedId(db, e1, e2);
    ReassignOriginsSpec(db.origins, wipe, keep, keep);
    OriginsOfOrphaned(ReassignOrigins(db.origins, wipe, keep), wipe, keep);
    OriginsOfOrphaned(ReassignOrigins(db.origins, wipe, keep), wipe, wipe);
  }

  /**
   * An absorbed entity with the origins `[a, b]`: as written only `a` goes to
   * the kept entity and `b` is left with no owner; as intended both go.
   */
  lemma MergeLosesSecondOrigin(db: Db, cfg: Config, e1: EntityId, e2: EntityId, reason: string, a: Origin, b: Origin)
    requires KeysMatch(db.entities) && MergeRefusal(db, e1, e2).None?
    requires OriginsOf(db.origins, WipedId(db, e1, e2)) == [a, b]
    ensures var keep := KeptId(db, e1, e2);
      && OriginsOf(MergeSpec(db, cfg, e1, e2, reason).db.origins, keep)
           == OriginsOf(db.origins, keep) + [a.(entity := Some(keep))]
      && b.(entity := None) in MergeSpec(db, cfg, e1, e2, reason).db.origins
      && OriginsOf(MergeIntended(db, cfg, e1, e2, reason).db.origins, keep)
           == OriginsOf(db.origins, keep) + [a.(entity := Some(keep)), b.(entity := Some(keep))]
  {
    var keep := KeptId(db, e1, e2);
    MergeOriginsAsWritten(db, cfg, e1, e2, reason, keep);
    MergeMovesAllOrigins(db, cfg, e1, e2, reason);
    BackrefLoopSkipsSecondOrigin(a, b, keep);
    ReownedPair(a, b, keep);
  }

  lemma ReownedPair(a: Origin, b: Origin, keep: EntityId)
    ensures Reowned([a, b], keep) == [a.(entity := Some(keep)), b.(entity := Some(keep))]
    ensures b in OddPositions([a, b])
  {
    assert OddPositions([a, b])[0] == b;
  }

  /* ---- find_companies ---- */

  /** One entry of the companies cache: a company name and its synonyms. */
  datatype CachedCompany = CachedCompany(name: string, synonyms: seq<string>)

  /** One entry of the result of `find_companies`. */
  datatype CompanyMatch = CompanyMatch(company: string, synonyms: seq<string>, matchDetails: seq<Shared.NearMatch>)

  type NearSearch = (string, string, Shared.Tolerance) -> seq<Shared.NearMatch>

  predicate Hits(text: string, name: string, search: NearSearch)
  {
    Shared.FindCompanyNameMatches(text, name, search).Some?
  }

  /** The hits of one name, or none. */
  function NameMatches(text: string, name: string, search: NearSearch): seq<Shared.NearMatch>
  {
    Shared.FindCompanyNameMatches(text, name, search).GetOr([])
  }

  /** The synonyms of a company that occur in the text, in cache order. */
  function SynonymsHit(text: string, syns: seq<string>, search: NearSearch): (r: seq<string>)
    ensures forall x :: x in r <==> x in syns && Hits(text, x, search)
  {
    if syns == [] then []
    else (if Hits(text, syns[0], search) then [syns[0]] else []) + SynonymsHit(text, syns[1..], search)
  }

  /** The match details of the synonyms that occur, concatenated in cache order. */
  function SynonymDetails(text: string, syns: seq<string>, search: NearSearch): seq<Shared.NearMatch>
  {
    if syns == [] then []
    else
      NameMatches(text, syns[0], search) + SynonymDetails(text, syns[1..], search)
  }

  /** The `matched` record of one company: present iff its name or a synonym occurs. */
  function MatchCompany(text: string, c: CachedCompany, search: NearSearch): (r: Option<CompanyMatch>)
    ensures r.Some? <==> Hits(text, c.name, search) || |SynonymsHit(text, c.synonyms, search)| > 0
    ensures r.Some? ==> r.value.company == c.name && r.value.synonyms == SynonymsHit(text, c.synonyms, search)
  {
    var base := NameMatches(text, c.name, search);
    var syns := SynonymsHit(text, c.synonyms, search);
    if Hits(text, c.name, search) || |syns| > 0 then
      Some(CompanyMatch(c.name, syns, base + SynonymDetails(text, c.synonyms, search)))
    else None
  }

  /** `find_companies(text)` over the cache, in cache order. */
  function CompaniesFound(text: string, cache: seq<CachedCompany>, search: NearSearch): seq<CompanyMatch>
  {
    if cache == [] then []
    else
      var init := CompaniesFound(text, cache[..|cache| - 1], search);
      match MatchCompany(text, cache[|cache| - 1], search)
      case None => init
      case Some(m) => init + [m]
  }

  /** Each company of the cache that occurs in the text gives one entry, named after it, and no other entry exists. */
  lemma {:induction false} CompaniesFoundSpec(text: string, cache: seq<CachedCompany>, search: NearSearch)
    ensures var r := CompaniesFound(text, cache, search);
      && |r| <= |cache|
      && (forall m :: m in r ==> exists c :: c in cache && MatchCompany(text, c, search) == Some(m))
      && (forall c :: c in cache && MatchCompany(text, c, search).Some? ==> MatchCompany(text, c, search).value in r)
    decreases |cache|
  {
    if cache != [] {
      var init := cache[..|cache| - 1];
      assert cache == init + [cache[|cache| - 1]];
      CompaniesFoundSpec(text, init, search);
    }
  }

  method FindCompanies(text: string, cache: seq<CachedCompany>, search: NearSearch) returns (matching: seq<CompanyMatch>)
    ensures matching == CompaniesFound(text, cache, search)
  {
    matching := [];
    for i := 0 to |cache|
      invariant matching == CompaniesFound(text, cache[..i], search)
    {
      var matched := MatchOneCompany(text, cache[i], search);
      assert cache[..i + 1][..i] == cache[..i];
      if matched.Some? {
        matching := matching + [matched.value];
      }
    }
    assert cache[..|cache|] == cache;
  }

  /** The body of the loop of `find_companies` for one cached company. */
  method MatchOneCompany(text: string, company: CachedCompany, search: NearSearch) returns (matched: Option<CompanyMatch>)
    ensures matched == MatchCompany(text, company, search)
  {
    var found := false;
    var details: seq<Shared.NearMatch> := [];
    var m := Shared.FindCompanyNameMatches(text, company.name, search);
    if m.Some? {
      found := true;
      details := m.value;
    }
    var syns, synDetails := ScanSynonyms(text, company.synonyms, search);
    if |syns| > 0 {
      found := true;
    }
    details := details + synDetails;
    MatchCompanyParts(text, company, search);
    matched := if found then Some(CompanyMatch(company.name, syns, details)) else None;
  }

  /** The synonym loop of `find_companies`: the synonyms that occur and their match details, in cache order. */
  method ScanSynonyms(text: string, synonyms: seq<string>, search: NearSearch)
      returns (syns: seq<string>, details: seq<Shared.NearMatch>)
    ensures syns == SynonymsHit(text, synonyms, search)
    ensures details == SynonymDetails(text, synonyms, search)
  {
    syns := [];
    details := [];
    for j := 0 to |synonyms|
      invariant syns == SynonymsHit(text, synonyms[..j], search)
      invariant details == SynonymDetails(text, synonyms[..j], search)
    {
      var x := synonyms[j];
      var sm := Shared.FindCompanyNameMatches(text, x, search);
      SynonymStep(text, synonyms, j, search);
      if sm.Some? {
        syns := syns + [x];
        details := details + sm.value;
      }
    }
    assert synonyms[..|synonyms|] == synonyms;
  }

  /** The record of one company, built from its three parts. */
  lemma MatchCompanyParts(text: string, c: CachedCompany, search: NearSearch)
    ensures MatchCompany(text, c, search) ==
      if Hits(text, c.name, search) || |SynonymsHit(text, c.synonyms, search)| > 0
      then Some(CompanyMatch(c.name, SynonymsHit(text, c.synonyms, search),
                             NameMatches(text, c.name, search) + SynonymDetails(text, c.synonyms, search)))
      else None
  {
  }

  lemma SynonymStep(text: string, syns: seq<string>, j: nat, search: NearSearch)
    requires j < |syns|
    ensures var m := Shared.FindCompanyNameMatches(text, syns[j], search);
      && SynonymsHit(text, syns[..j + 1], search) == SynonymsHit(text, syns[..j], search) + (if m.Some? then [syns[j]] else [])
      && SynonymDetails(text, syns[..j + 1], search) == SynonymDetails(text, syns[..j], search) + (if m.Some? then m.value else [])
  {
    assert syns[..j + 1] == syns[..j] + [syns[j]];
    SynonymsHitSnoc(text, syns[..j], syns[j], search);
    SynonymDetailsSnoc(text, syns[..j], syns[j], search);
  }

  lemma {:induction false} SynonymsHitSnoc(text: string, syns: seq<string>, x: string, search: NearSearch)
    ensures SynonymsHit(text, syns + [x], search) == SynonymsHit(text, syns, search) + (if Hits(text, x, search) then [x] else [])
    decreases |syns|
  {
    if syns == [] {
      assert [x][1..] == [];
    } else {
      assert (syns + [x])[1..] == syns[1..] + [x];
      SynonymsHitSnoc(text, syns[1..], x, search);
    }
  }

  lemma {:induction false} SynonymDetailsSnoc(text: string, syns: seq<string>, x: string, search: NearSearch)
    ensures SynonymDetails(text, syns + [x], search) == SynonymDetails(text, syns, search) + NameMatches(text, x, search)
    decreases |syns|
  {
    if syns == [] {
      assert [x][1..] == [];
    } else {
      assert (syns + [x])[1..] == syns[1..] + [x];
      SynonymDetailsSnoc(text, syns[1..], x, search);
    }
  }

  /* ---- origin helpers used by the admin import ---- */

  /** What `get_twitter_infos` returns for a screen name: all None when the account does not exist. */
  datatype TwitterInfo = TwitterInfo(url: Option<string>, description: Option<string>, location: Option<string>)

  /**
   * `retrieve_tweeter_profile`: a profile is attached only when the account
   * has a url, and the location is overwritten only when one is returned.
   */
  function RetrievedProfile(d: OriginDetail, info: TwitterInfo): (r: OriginDetail)
    requires d.TwitterOrigin?
    ensures r.TwitterOrigin? && r.screenName == d.screenName
    ensures info.url.Some? ==> r.profile == Some(TwitterProfile(info.url, info.description))
    ensures info.url.None? ==> r.profile == d.profile
    ensures r.location == if info.location.Some? then info.location else d.location
  {
    var d1 := if info.url.Some? then d.(profile := Some(TwitterProfile(info.url, info.description))) else d;
    if info.location.Some? then d1.(location := info.location) else d1
  }

  /**
   * `update_tweeter_profile`: each returned value overwrites its field. The
   * profile is dereferenced without a check, so a url or a description with
   * no profile attached raises (None here).
   */
  function UpdatedProfile(d: OriginDetail, info: TwitterInfo): (r: Option<OriginDetail>)
    requires d.TwitterOrigin?
    ensures r.None? <==> d.profile.None? && (info.url.Some? || info.description.Some?)
    ensures r.Some? ==> r.value.TwitterOrigin? && r.value.screenName == d.screenName
    ensures r.Some? ==> r.value.location == if info.location.Some? then info.location else d.location
    ensures r.Some? && d.profile.Some? ==>
      && r.value.profile.Some?
      && r.value.profile.value.url == (if info.url.Some? then info.url else d.profile.value.url)
      && r.value.profile.value.description == (if info.description.Some? then info.description else d.profile.value.description)
  {
    if d.profile.None? && (info.url.Some? || info.description.Some?) then None
    else
      var p1 := if info.url.Some? then Some(d.profile.value.(url := info.url)) else d.profile;
      var p2 := if info.description.Some? then Some(p1.value.(description := info.description)) else p1;
      var d1 := d.(profile := p2);
      Some(if info.location.Some? then d1.(location := info.location) else d1)
  }

  /** `create_twitter_origin`: a new Twitter origin of the entity, with its profile retrieved. */
  function CreateTwitterOriginSpec(db: Db, entity: EntityId, screenName: string, info: TwitterInfo): (r: Db)
    ensures r.origins == db.origins + [Origin(db.nextId, Some(entity), 0, None, true,
                                              RetrievedProfile(TwitterOrigin(screenName, None, None), info))]
    ensures r.nextId == db.nextId + 1
    ensures r.entities == db.entities
  {
    var o := Origin(db.nextId, Some(entity), 0, None, true, RetrievedProfile(TwitterOrigin(screenName, None, None), info));
    db.(origins := db.origins + [o], nextId := db.nextId + 1)
  }

  /**
   * `create_web_and_rss_origins`: a web origin whose three urls are `web`
   * and, when a feed is found, an RSS origin derived from it.
   */
  function CreateWebAndRssOriginsSpec(db: Db, entity: EntityId, web: string, feed: Option<string>): (r: Db)
    ensures feed.None? ==> r.origins == db.origins + [Origin(db.nextId, Some(entity), 0, None, true, WebOrigin(Some(web), Some(web), Some(web)))]
    ensures feed.Some? ==> r.origins == db.origins + [Origin(db.nextId, Some(entity), 0, None, true, WebOrigin(Some(web), Some(web), Some(web))),
                                                      Origin(db.nextId + 1, Some(entity), 0, None, true, RssOrigin(Some(web), feed, Some(db.nextId)))]
    ensures r.entities == db.entities
  {
    var w := Origin(db.nextId, Some(entity), 0, None, true, WebOrigin(Some(web), Some(web), Some(web)));
    match feed
    case None => db.(origins := db.origins + [w], nextId := db.nextId + 1)
    case Some(_) =>
      var rss := Origin(db.nextId + 1, Some(entity), 0, None, true, RssOrigin(Some(web), feed, Some(db.nextId)));
      db.(origins := db.origins + [w, rss], nextId := db.nextId + 2)
  }

  method CreateTwitterOrigin(s: Session, entity: EntityId, screenName: string, info: TwitterInfo)
    modifies s
    ensures s.State() == CreateTwitterOriginSpec(old(s.State()), entity, screenName, info)
  {
    var o := Origin(s.nextId, Some(entity), 0, None, true, RetrievedProfile(TwitterOrigin(screenName, None, None), info));
    s.origins := s.origins + [o];
    s.nextId := s.nextId + 1;
  }

  method CreateWebAndRssOrigins(s: Session, entity: EntityId, web: string, feed: Option<string>)
    modifies s
    ensures s.State() == CreateWebAndRssOriginsSpec(old(s.State()), entity, web, feed)
  {
    var w := Origin(s.nextId, Some(entity), 0, None, true, WebOrigin(Some(web), Some(web), Some(web)));
    if feed.Some? {
      var rss := Origin(s.nextId + 1, Some(entity), 0, None, true, RssOrigin(Some(web), feed, Some(s.nextId)));
      s.origins := s.origins + [w, rss];
      s.nextId := s.nextId + 2;
    } else {
      s.origins := s.origins + [w];
      s.nextId := s.nextId + 1;
    }
  }

  /** Creating origins (with no occurrence yet) leaves the evidence sum of every entity as it was. */
  lemma CreatedFeedIsNotEvidence(db: Db, entity: EntityId, web: string, feed: string, other: EntityId)
    ensures var r := CreateWebAndRssOriginsSpec(db, entity, web, Some(feed));
      EvidenceSum(r, other) == EvidenceSum(db, other)
  {
    var w := Origin(db.nextId, Some(entity), 0, None, true, WebOrigin(Some(web), Some(web), Some(web)));
    var rss := Origin(db.nextId + 1, Some(entity), 0, None, true, RssOrigin(Some(web), Some(feed), Some(db.nextId)));
    var r := CreateWebAndRssOriginsSpec(db, entity, web, Some(feed));
    assert r.origins == db.origins + [w, rss];
    OriginsOfConcat(db.origins, [w, rss], other);
    var added := OriginsOf([w, rss], other);
    assert forall o :: o in added ==> o.occurrences == 0;
    DistinctOriginsConcat(OriginsOf(db.origins, other), added);
  }

  lemma {:induction false} OfCategoryConcat(a: seq<Origin>, b: seq<Origin>, c: Category)
    ensures OfCategory(a + b, c) == OfCategory(a, c) + OfCategory(b, c)
    decreases |a|
  {
    if a == [] {
      assert a + b == b;
    } else {
      assert (a + b)[0] == a[0];
      assert (a + b)[1..] == a[1..] + b;
      OfCategoryConcat(a[1..], b, c);
    }
  }

  /** Origins that were never counted add nothing to the evidence. */
  lemma DistinctOriginsConcat(a: seq<Origin>, b: seq<Origin>)
    requires forall o :: o in b ==> o.occurrences == 0
    ensures SumOccurrences(DistinctOrigins(a + b)) == SumOccurrences(DistinctOrigins(a))
  {
    var sa, wa, ta := OfCategory(a, StandaloneRss), OfCategory(a, WebSite), OfCategory(a, TwitterAccount);
    var sb, wb, tb := OfCategory(b, StandaloneRss), OfCategory(b, WebSite), OfCategory(b, TwitterAccount);
    OfCategoryConcat(a, b, StandaloneRss);
    OfCategoryConcat(a, b, WebSite);
    OfCategoryConcat(a, b, TwitterAccount);
    ZeroSum(sb);
    ZeroSum(wb);
    ZeroSum(tb);
    var s := sa + sb;
    var w := wa + wb;
    var t := ta + tb;
    assert DistinctOrigins(a + b) == s + w + t;
    SumConcat(s + w, t);
    SumConcat(s, w);
    SumConcat(sa, sb);
    SumConcat(wa, wb);
    SumConcat(ta, tb);
    SumConcat(sa + wa, ta);
    SumConcat(sa, wa);
  }

  lemma {:induction false} ZeroSum(os: seq<Origin>)
    requires forall o :: o in os ==> o.occurrences == 0
    ensures SumOccurrences(os) == 0
    decreases |os|
  {
    if os != [] { ZeroSum(os[1..]); }
  }

  /* ---- the session ---- */

  /** The database session: one field per table, updated in place by the rules. */
  class Session {
    var entities: map<EntityId, Entity>
    var rows: seq<EntityId>
    var origins: seq<Origin>
    var edges: seq<OriginGroup>
    var groups: seq<Group>
    var contents: seq<Content>
    var contentOrigins: seq<ContentOrigin>
    var companies: seq<string>
    var synonyms: seq<CompanySynonym>
    var analysisCompanies: seq<Option<string>>
    var nextId: nat

    /** The tables as one value. */
    function State(): Db
      reads this
    {
      Db(entities, rows, origins, edges, groups, contents, contentOrigins,
         companies, synonyms, analysisCompanies, nextId)
    }

    constructor (db: Db)
      ensures State() == db
    {
      entities, rows, origins, edges := db.entities, db.rows, db.origins, db.edges;
      groups, contents, contentOrigins := db.groups, db.contents, db.contentOrigins;
      companies, synonyms, analysisCompanies, nextId := db.companies, db.synonyms, db.analysisCompanies, db.nextId;
    }

    /** `occ, refs = sum_entity_origin_occurrences(list_distinct_origins(entity))`, the sum part. */
    method SumDistinctOccurrences(id: EntityId) returns (occ: nat)
      ensures occ == EvidenceSum(State(), id)
    {
      var distinct := Evidence(State(), id);
      occ := OccurrenceTotal(distinct);
    }

    /** The summing loop of `sum_entity_origin_occurrences`. */
    static method OccurrenceTotal(os: seq<Origin>) returns (occ: nat)
      ensures occ == SumOccurrences(os)
    {
      occ := 0;
      for i := 0 to |os|
        invariant occ + SumOccurrences(os[i..]) == SumOccurrences(os)
      {
        assert os[i..][1..] == os[i + 1..];
        occ := occ + os[i].occurrences;
      }
    }

    /** `compute_distinct_groups_origins_came_from`: the group ids of all edges citing a distinct origin. */
    method DistinctGroupCount(id: EntityId) returns (n: nat)
      ensures n == EvidenceGroups(State(), id)
    {
      var distinct := Evidence(State(), id);
      var gs := CitingGroups(edges, OriginIds(distinct));
      n := |gs|;
    }

    /** The loop over the edges: the groups of the edges citing one of `ids`. */
    static method CitingGroups(edges: seq<OriginGroup>, ids: set<OriginId>) returns (gs: set<GroupId>)
      ensures gs == set e | e in edges && e.originId in ids :: e.groupId
    {
      gs := {};
      for i := 0 to |edges|
        invariant gs == set e | e in edges[..i] && e.originId in ids :: e.groupId
      {
        CitingGroupsSnoc(edges, ids, i);
        if edges[i].originId in ids {
          gs := gs + {edges[i].groupId};
        }
      }
      assert edges[..|edges|] == edges;
    }

    method FlagSourceCandidate(cfg: Config, id: EntityId)
      requires id in entities && entities[id].id == id
      modifies this
      ensures State() == WithEntity(old(State()), FlaggedSourceCandidate(old(State()), cfg, old(entities[id])))
    {
      var occ := SumDistinctOccurrences(id);
      if occ >= cfg.sourceCandidateThreshold {
        entities := entities[id := entities[id].(status := SOURCE_CANDIDATE)];
      }
    }

    method FlagTrustedCandidate(cfg: Config, id: EntityId)
      requires id in entities && entities[id].id == id
      modifies this
      ensures State() == WithEntity(old(State()), FlaggedTrusted(old(State()), cfg, old(entities[id])))
    {
      var occ := SumDistinctOccurrences(id);
      if occ >= cfg.trustedSourceOriginsThreshold {
        var groupCount := DistinctGroupCount(id);
        if groupCount >= cfg.trustedSourceGroupThreshold {
          entities := entities[id := entities[id].(trusted := true)];
        }
      }
    }

    /** `enrich_source`: the sum of the occurrences and the summary of the citations, stored on the entity. */
    method EnrichSource(id: EntityId)
      requires id in entities && entities[id].id == id
      modifies this
      ensures State() == EnrichSpec(old(State()), id)
    {
      var occ := SumDistinctOccurrences(id);
      var db := State();
      var references := CollectReferences(db, Evidence(db, id));
      var e := db.entities[id].(tOccurrences := Some(occ), tSourceReferences := Some(references));
      EnrichedIs(db, db.entities[id], e);
      entities := db.entities[id := e];
    }

    /** The outer loop of `enrich_source` over the distinct origins. */
    static method CollectReferences(db: Db, distinct: seq<Origin>) returns (references: map<string, Reference>)
      ensures references == References(db, VisitedEdges(db.edges, distinct))
    {
      references := map[];
      for i := 0 to |distinct|
        invariant references == References(db, VisitedEdges(db.edges, distinct[..i]))
      {
        var originGroups := EdgesCiting(db.edges, distinct[i].id);
        references := AddCitations(db, VisitedEdges(db.edges, distinct[..i]), references, originGroups);
        assert distinct[..i + 1] == distinct[..i] + [distinct[i]];
        VisitedEdgesSnoc(db.edges, distinct[..i], distinct[i]);
      }
      assert distinct[..|distinct|] == distinct;
    }

    /** The inner loop of `enrich_source`: one citation per edge, in order. */
    static method AddCitations(db: Db, visited: seq<OriginGroup>, refs: map<string, Reference>, originGroups: seq<OriginGroup>)
      returns (references: map<string, Reference>)
      requires refs == References(db, visited)
      ensures references == References(db, visited + originGroups)
    {
      references := refs;
      assert visited + originGroups[..0] == visited;
      for j := 0 to |originGroups|
        invariant references == References(db, visited + originGroups[..j])
      {
        var og := originGroups[j];
        var name := EntityName(db, og.entityId);
        ReferencesStep(db, visited, originGroups, j);
        if name !in references {
          references := references[name := Reference(1, [og.contentId], GroupName(db.groups, og.groupId))];
        } else {
          references := references[name := references[name].(number := references[name].number + 1,
                                                               content := references[name].content + [og.contentId])];
        }
      }
      assert originGroups[..|originGroups|] == originGroups;
    }

    /** The promotion rules re-run on the kept entity after a merge. */
    method Promote(cfg: Config, id: EntityId)
      requires id in entities && entities[id].id == id
      modifies this
      ensures State() == PromoteSpec(old(State()), cfg, id)
    {
      FlagSourceCandidate(cfg, id);
      FlagTrustedCandidate(cfg, id);
      if entities[id].status == SOURCE_CANDIDATE {
        EnrichSource(id);
      }
    }

    /** The `id_added` loop, run on the filtered suggestions. */
    static method DedupSuggestions(ss: seq<Suggestion>) returns (deduped: seq<Suggestion>)
      ensures deduped == FirstById(ss)
    {
      deduped := [];
      var idAdded: seq<EntityId> := [];
      for i := 0 to |ss|
        invariant deduped == FirstById(ss[..i])
        invariant forall x :: x in idAdded <==> x in SuggestionIds(deduped)
      {
        var x := ss[i];
        assert ss[..i + 1][..i] == ss[..i];
        if x.id !in idAdded {
          assert SuggestionIds(deduped + [x]) == SuggestionIds(deduped) + {x.id} by {
            assert forall y :: y in deduped + [x] <==> y in deduped || y == x;
          }
          idAdded := idAdded + [x.id];
          deduped := deduped + [x];
        }
      }
      assert ss[..|ss|] == ss;
    }

    /** Every origin of `wipe` (a snapshot of its collection) is given to `keep`. */
    method MoveOrigins(wipe: EntityId, keep: EntityId)
      modifies this
      ensures origins == ReassignOrigins(old(origins), wipe, keep)
      ensures entities == old(entities) && rows == old(rows) && edges == old(edges) && groups == old(groups)
      ensures contents == old(contents) && contentOrigins == old(contentOrigins) && nextId == old(nextId)
      ensures companies == old(companies) && synonyms == old(synonyms) && analysisCompanies == old(analysisCompanies)
    {
      var moved := ReownEach(OriginsOf(origins, wipe), keep);
      origins := NotOwnedBy(origins, wipe) + moved;
    }

    /** The loop `for o in snapshot: o.entity = keep`, over a copy of the collection. */
    static method ReownEach(toMove: seq<Origin>, keep: EntityId) returns (moved: seq<Origin>)
      ensures moved == Reowned(toMove, keep)
    {
      moved := [];
      for i := 0 to |toMove|
        invariant |moved| == i
        invariant forall k :: 0 <= k < i ==> moved[k] == toMove[k].(entity := Some(keep))
      {
        moved := moved + [toMove[i].(entity := Some(keep))];
      }
    }

    /** Lines 292-294 of `merge_entities`: the loop over the live collection, which re-owns every other origin. */
    method MoveOriginsAsWritten(wipe: EntityId, keep: EntityId)
      modifies this
      ensures origins == ReassignAsWritten(old(origins), wipe, keep)
      ensures entities == old(entities) && rows == old(rows) && edges == old(edges) && groups == old(groups)
      ensures contents == old(contents) && contentOrigins == old(contentOrigins) && nextId == old(nextId)
      ensures companies == old(companies) && synonyms == old(synonyms) && analysisCompanies == old(analysisCompanies)
    {
      var moved, left := ReassignWhileIterating(OriginsOf(origins, wipe), keep);
      origins := NotOwnedBy(origins, wipe) + left + moved;
    }

    /** Lines 240-290 of `merge_entities`, one field at a time. */
    static method ReconcileBeforeOrigins(k0: Entity, w: Entity) returns (k: Entity)
      ensures k == ReconciledBeforeOrigins(k0, w)
    {
      var suggested := MergeSuggestionLists(k0, w);
      var comments := k0.comments.GetOr([]) + w.comments.GetOr([]);
      var kept := if |comments| > 0 then Some(comments) else k0.comments;
      k := k0.(verificationState := MinState(k0.verificationState, w.verificationState),
               status := MaxStatus(k0.status, w.status),
               trusted := k0.trusted && w.trusted,
               merges := k0.merges + w.merges + 1,
               matchDone := k0.matchDone && w.matchDone,
               suggestedMerges := suggested,
               comments := kept);
    }

    /** Lines 262-282 of `merge_entities`: concatenate, filter, deduplicate, None if empty. */
    static method MergeSuggestionLists(k: Entity, w: Entity) returns (suggested: Option<seq<Suggestion>>)
      ensures suggested == MergedSuggestions(k, w)
    {
      var filtered := WithoutIds(k.suggestedMerges.GetOr([]) + w.suggestedMerges.GetOr([]), w.id, k.id);
      var deduped := DedupSuggestions(filtered);
      suggested := if |deduped| == 0 then None else Some(deduped);
    }

    /** Lines 296-311 of `merge_entities`. */
    static method ReconcileAfterOrigins(k0: Entity, k1: Entity, w: Entity, reason: string) returns (k: Entity)
      requires k1 == ReconciledBeforeOrigins(k0, w)
      ensures k == Reconciled(k0, w, reason)
    {
      k := k1;
      k := k.(mergesDetails := Some(k.mergesDetails.GetOr([]) + w.mergesDetails.GetOr([]) + [MergeDetail(w.id, reason)]));
      if w.groupId.Some? && k.groupId.None? {
        k := k.(groupId := w.groupId);
      }
      k := k.(matchDone := k.matchDone || w.matchDone);
    }

    /** `merge_entities(e1, e2, reason)`: checks, field rules, origins, promotion, deletion. */
    method MergeEntities(cfg: Config, e1: EntityId, e2: EntityId, reason: string) returns (ok: bool, message: string)
      requires KeysMatch(entities)
      modifies this
      ensures MergeOutcome(State(), ok, message) == MergeSpec(old(State()), cfg, e1, e2, reason)
    {
      if e1 !in entities { return false, MissingMessage(e1, e2, e1); }
      if e2 !in entities { return false, MissingMessage(e1, e2, e2); }
      if e1 == e2 { return false, IDENTICAL_MESSAGE; }
      if entities[e1].isReference && entities[e2].isReference { return false, BothReferencesMessage(e1, e2); }
      if GroupsConflict(entities[e1], entities[e2]) { return false, DifferentGroupsMessage(e1, e2); }
      var keep, wipe := KeptId(State(), e1, e2), WipedId(State(), e1, e2);
      MergeInto(cfg, keep, wipe, reason);
      return true, MergedMessage(wipe, keep);
    }

    /** `merge_entities` as intended: the same checks, with the origins re-owned from a snapshot of the list. */
    method MergeEntitiesIntended(cfg: Config, e1: EntityId, e2: EntityId, reason: string) returns (ok: bool, message: string)
      requires KeysMatch(entities)
      modifies this
      ensures MergeOutcome(State(), ok, message) == MergeIntended(old(State()), cfg, e1, e2, reason)
    {
      if e1 !in entities { return false, MissingMessage(e1, e2, e1); }
      if e2 !in entities { return false, MissingMessage(e1, e2, e2); }
      if e1 == e2 { return false, IDENTICAL_MESSAGE; }
      if entities[e1].isReference && entities[e2].isReference { return false, BothReferencesMessage(e1, e2); }
      if GroupsConflict(entities[e1], entities[e2]) { return false, DifferentGroupsMessage(e1, e2); }
      var keep, wipe := KeptId(State(), e1, e2), WipedId(State(), e1, e2);
      MergeIntoIntended(cfg, keep, wipe, reason);
      return true, MergedMessage(wipe, keep);
    }

    method MergeIntoIntended(cfg: Config, keep: EntityId, wipe: EntityId, reason: string)
      requires KeysMatch(entities) && keep in entities && wipe in entities
      modifies this
      ensures State() == MergedStoreIntended(old(State()), cfg, keep, wipe, reason)
    {
      var k0 := entities[keep];
      var w := entities[wipe];
      var k1 := ReconcileBeforeOrigins(k0, w);
      MoveOrigins(wipe, keep);
      var k := ReconcileAfterOrigins(k0, k1, w, reason);
      entities := entities[keep := k];
      if k.matchDone {
        Promote(cfg, keep);
      }
      entities := entities - {wipe};
      rows := WithoutRow(rows, wipe);
      origins := Orphaned(origins, wipe);
    }

    method MergeInto(cfg: Config, keep: EntityId, wipe: EntityId, reason: string)
      requires KeysMatch(entities) && keep in entities && wipe in entities
      modifies this
      ensures State() == MergedStore(old(State()), cfg, keep, wipe, reason)
    {
      ghost var db0 := State();
      var k0 := entities[keep];
      var w := entities[wipe];
      var k1 := ReconcileBeforeOrigins(k0, w);
      MoveOriginsAsWritten(wipe, keep);
      var k := ReconcileAfterOrigins(k0, k1, w, reason);
      entities := entities[keep := k];
      assert State() == MergeStep(db0, keep, wipe, reason);
      if k.matchDone {
        Promote(cfg, keep);
      }
      entities := entities - {wipe};
      rows := WithoutRow(rows, wipe);
      origins := Orphaned(origins, wipe);
    }
  }
}

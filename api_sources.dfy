// The sources import of the admin API (api/sources.py): the duplicate check
// on an uploaded sources sheet, the creation of its groups, and the upsert of
// every row as a SOURCE entity with its Twitter, web and RSS origins.
//
// The upload replaces every empty cell by None before these run, so a cell
// is an Option. Feed discovery, the Twitter profile lookup and regular
// expression search are the parameters in `Services`.
module ApiSources {
  import opened Wrappers
  import opened PyStrings
  import opened Orm
  import opened ApiUtils
  import Shared
  import SourceAcquisition

  const SOURCE_NAME_COLUMN := "Source"
  const GROUP_COLUMN := "Groupe"
  const IS_REFERENCE_COLUMN := "Reference"
  const TWITTER_COLUMN := "Twitter"
  const WEB_COLUMN := "Web"
  const IS_TRUSTED_COLUMN := "Trusted"
  const LOCATION_COLUMN := "Location"
  const ECOREGION_COLUMN := "Ecoregion"
  const TAGS_COLUMN := "Tags"

  /** One row of the sources sheet. */
  datatype SourceRow = SourceRow(
    source: string,
    group: Cell,
    isReference: Option<bool>,
    twitter: Cell,
    web: Cell,
    isTrusted: Option<bool>,
    location: Cell,
    ecoregion: Cell,
    tags: Cell)

  /** `find_rss_feed`, `get_twitter_infos` and `re.search` as functions. */
  datatype Services = Services(
    findFeed: string -> Option<string>,
    twitterInfos: string -> TwitterInfo,
    search: (string, string) -> bool)

  /* ---- check_sources_duplicates ---- */

  function SourceCells(rows: seq<SourceRow>): (r: seq<Cell>)
    ensures |r| == |rows| && forall i :: 0 <= i < |rows| ==> r[i] == Some(rows[i].source)
  {
    seq(|rows|, i requires 0 <= i < |rows| => Some(rows[i].source))
  }

  function TwitterCells(rows: seq<SourceRow>): (r: seq<Cell>)
    ensures |r| == |rows| && forall i :: 0 <= i < |rows| ==> r[i] == rows[i].twitter
  {
    seq(|rows|, i requires 0 <= i < |rows| => rows[i].twitter)
  }

  function WebCells(rows: seq<SourceRow>): (r: seq<Cell>)
    ensures |r| == |rows| && forall i :: 0 <= i < |rows| ==> r[i] == rows[i].web
  {
    seq(|rows|, i requires 0 <= i < |rows| => rows[i].web)
  }

  const SOURCES_DUPLICATED := "There are some duplicates in the " + SOURCE_NAME_COLUMN + " column"
  const TWITTER_DUPLICATED := "There are some duplicates in the " + TWITTER_COLUMN + " column"
  const WEB_DUPLICATED := "There are some duplicates in the " + WEB_COLUMN + " column"

  /**
   * `check_sources_duplicates(df)`: a 500 error with one entry per column
   * (Source, Twitter, Web, in that order) holding duplicates, else nothing.
   */
  function CheckSourcesDuplicates(rows: seq<SourceRow>): (r: Option<HttpException>)
    ensures r.None? <==>
      && ListDuplicates(SourceCells(rows)) == []
      && ListDuplicates(TwitterCells(rows)) == []
      && ListDuplicates(WebCells(rows)) == []
    ensures r.Some? ==> r.value.statusCode == 500 && r.value.detail.Errors?
    ensures r.Some? ==> 1 <= |r.value.detail.errors| <= 3
    ensures r.Some? ==> forall e :: e in r.value.detail.errors ==>
      || e == DuplicateError(SOURCES_DUPLICATED, ListDuplicates(SourceCells(rows)))
      || e == DuplicateError(TWITTER_DUPLICATED, ListDuplicates(TwitterCells(rows)))
      || e == DuplicateError(WEB_DUPLICATED, ListDuplicates(WebCells(rows)))
  {
    DuplicatesCheck(
      500,
      SOURCES_DUPLICATED, SourceCells(rows),
      TWITTER_DUPLICATED, TwitterCells(rows),
      WEB_DUPLICATED, WebCells(rows))
  }

  /** The sheet is refused exactly when a reportable source name, screen name or web site occurs twice. */
  lemma SourcesDuplicatesRule(rows: seq<SourceRow>)
    ensures CheckSourcesDuplicates(rows).Some? <==>
      || (exists s :: Reportable(Some(s)) && multiset(SourceCells(rows))[Some(s)] >= 2)
      || (exists s :: Reportable(Some(s)) && multiset(TwitterCells(rows))[Some(s)] >= 2)
      || (exists s :: Reportable(Some(s)) && multiset(WebCells(rows))[Some(s)] >= 2)
  {
    ListDuplicatesEmpty(SourceCells(rows));
    ListDuplicatesEmpty(TwitterCells(rows));
    ListDuplicatesEmpty(WebCells(rows));
  }

  /* ---- process_groups ---- */

  function GroupNames(groups: seq<Group>): (r: seq<string>)
    ensures |r| == |groups| && forall i :: 0 <= i < |groups| ==> r[i] == groups[i].name
  {
    seq(|groups|, i requires 0 <= i < |groups| => groups[i].name)
  }

  /** `db.query(Group).filter(Group.name == name).first()`, as the id of the first group with that name. */
  function FindGroup(groups: seq<Group>, name: string): (r: Option<GroupId>)
    ensures r.None? <==> name !in GroupNames(groups)
    ensures r.Some? ==> exists i :: 0 <= i < |groups| && groups[i] == Group(r.value, name)
    decreases |groups|
  {
    if groups == [] then None
    else if groups[0].name == name then Some(groups[0].id)
    else
      var rest := FindGroup(groups[1..], name);
      assert GroupNames(groups) == [groups[0].name] + GroupNames(groups[1..]);
      assert rest.Some? ==> exists i :: 0 <= i < |groups| && groups[i] == Group(rest.value, name) by {
        if rest.Some? {
          var i :| 0 <= i < |groups[1..]| && groups[1..][i] == Group(rest.value, name);
          assert groups[i + 1] == Group(rest.value, name);
        }
      }
      rest
  }

  /** The column of group cells. */
  function GroupCells(rows: seq<SourceRow>): (r: seq<Cell>)
    ensures |r| == |rows| && forall i :: 0 <= i < |rows| ==> r[i] == rows[i].group
  {
    seq(|rows|, i requires 0 <= i < |rows| => rows[i].group)
  }

  datatype GroupsRun = GroupsRun(db: Db, added: seq<string>)

  /**
   * `process_groups(db, groups)`: each non-null group name the store lacks
   * becomes a new group (visible to the lookups of the later names), and the
   * added names are returned in order.
   */
  function ProcessGroupsSpec(db: Db, gs: seq<Cell>): (r: GroupsRun)
    decreases |gs|
  {
    if gs == [] then GroupsRun(db, [])
    else if gs[0].None? || FindGroup(db.groups, gs[0].value).Some? then ProcessGroupsSpec(db, gs[1..])
    else
      var db1 := db.(groups := db.groups + [Group(db.nextId, gs[0].value)], nextId := db.nextId + 1);
      var rest := ProcessGroupsSpec(db1, gs[1..]);
      GroupsRun(rest.db, [gs[0].value] + rest.added)
  }

  /**
   * Afterwards every group name of the sheet is a stored group; the names
   * returned are exactly those of the sheet that were not stored before,
   * each once; the old groups are kept in place, and nothing but the groups
   * and the id counter changes.
   */
  lemma {:induction false} ProcessGroupsRules(db: Db, gs: seq<Cell>)
    ensures var r := ProcessGroupsSpec(db, gs);
      && (forall g :: Some(g) in gs ==> g in GroupNames(r.db.groups))
      && (forall g :: g in r.added <==> Some(g) in gs && g !in GroupNames(db.groups))
      && (forall i, j :: 0 <= i < j < |r.added| ==> r.added[i] != r.added[j])
      && db.groups <= r.db.groups
      && r.db == db.(groups := r.db.groups, nextId := r.db.nextId)
  {
    ProcessGroupsFrame(db, gs);
    ProcessGroupsStored(db, gs);
    ProcessGroupsAdded(db, gs);
  }

  lemma {:induction false} ProcessGroupsFrame(db: Db, gs: seq<Cell>)
    ensures var r := ProcessGroupsSpec(db, gs);
      db.groups <= r.db.groups && r.db == db.(groups := r.db.groups, nextId := r.db.nextId)
    decreases |gs|
  {
    if gs != [] {
      if gs[0].None? || FindGroup(db.groups, gs[0].value).Some? {
        ProcessGroupsFrame(db, gs[1..]);
      } else {
        var db1 := db.(groups := db.groups + [Group(db.nextId, gs[0].value)], nextId := db.nextId + 1);
        ProcessGroupsFrame(db1, gs[1..]);
      }
    }
  }

  lemma {:induction false} ProcessGroupsStored(db: Db, gs: seq<Cell>)
    ensures forall g :: Some(g) in gs ==> g in GroupNames(ProcessGroupsSpec(db, gs).db.groups)
    decreases |gs|
  {
    if gs != [] {
      assert forall x :: x in gs <==> x == gs[0] || x in gs[1..];
      var r := ProcessGroupsSpec(db, gs);
      if gs[0].None? || FindGroup(db.groups, gs[0].value).Some? {
        ProcessGroupsStored(db, gs[1..]);
        ProcessGroupsFrame(db, gs[1..]);
        GroupNamesGrow(db.groups, r.db.groups);
      } else {
        var db1 := db.(groups := db.groups + [Group(db.nextId, gs[0].value)], nextId := db.nextId + 1);
        ProcessGroupsStored(db1, gs[1..]);
        ProcessGroupsFrame(db1, gs[1..]);
        assert GroupNames(db1.groups)[|db.groups|] == gs[0].value;
        GroupNamesGrow(db1.groups, r.db.groups);
      }
    }
  }

  lemma {:induction false} ProcessGroupsAdded(db: Db, gs: seq<Cell>)
    ensures var r := ProcessGroupsSpec(db, gs);
      && (forall g :: g in r.added <==> Some(g) in gs && g !in GroupNames(db.groups))
      && (forall i, j :: 0 <= i < j < |r.added| ==> r.added[i] != r.added[j])
    decreases |gs|
  {
    if gs != [] {
      assert forall x :: x in gs <==> x == gs[0] || x in gs[1..];
      if gs[0].None? || FindGroup(db.groups, gs[0].value).Some? {
        ProcessGroupsAdded(db, gs[1..]);
      } else {
        var db1 := db.(groups := db.groups + [Group(db.nextId, gs[0].value)], nextId := db.nextId + 1);
        ProcessGroupsAdded(db1, gs[1..]);
        assert GroupNames(db1.groups) == GroupNames(db.groups) + [gs[0].value];
      }
    }
  }

  lemma GroupNamesGrow(a: seq<Group>, b: seq<Group>)
    requires a <= b
    ensures forall g :: g in GroupNames(a) ==> g in GroupNames(b)
  {
    forall g | g in GroupNames(a) ensures g in GroupNames(b) {
      var i :| 0 <= i < |a| && GroupNames(a)[i] == g;
      assert GroupNames(b)[i] == g;
    }
  }

  method ProcessGroups(s: Session, gs: seq<Cell>) returns (added: seq<string>)
    modifies s
    ensures GroupsRun(s.State(), added) == ProcessGroupsSpec(old(s.State()), gs)
  {
    added := [];
    for i := 0 to |gs|
      invariant ProcessGroupsSpec(old(s.State()), gs) ==
        var rest := ProcessGroupsSpec(s.State(), gs[i..]);
        GroupsRun(rest.db, added + rest.added)
    {
      assert gs[i..][0] == gs[i] && gs[i..][1..] == gs[i + 1..];
      var g := gs[i];
      if g.Some? {
        var found := FindGroup(s.groups, g.value);
        if found.None? {
          s.groups := s.groups + [Group(s.nextId, g.value)];
          s.nextId := s.nextId + 1;
          added := added + [g.value];
        }
      }
    }
  }

  /* ---- tags ---- */

  /** `for tag in tags: if tag not in entity.tags: entity.tags = entity.tags + [tag]`. */
  function AppendNew(existing: seq<string>, tags: seq<string>): (r: seq<string>)
    ensures existing <= r
    decreases |tags|
  {
    if tags == [] then existing
    else
      var before := AppendNew(existing, tags[..|tags| - 1]);
      if tags[|tags| - 1] in before then before else before + [tags[|tags| - 1]]
  }

  /**
   * The union keeps the existing tags first and in order, adds each new tag
   * at most once, and never repeats a tag when the existing list does not.
   */
  lemma {:induction false} AppendNewRules(existing: seq<string>, tags: seq<string>)
    ensures var r := AppendNew(existing, tags);
      && (forall t :: t in r <==> t in existing || t in tags)
      && ((forall i, j :: 0 <= i < j < |existing| ==> existing[i] != existing[j]) ==>
            forall i, j :: 0 <= i < j < |r| ==> r[i] != r[j])
    decreases |tags|
  {
    if tags != [] {
      AppendNewRules(existing, tags[..|tags| - 1]);
      assert forall x :: x in tags <==> x in tags[..|tags| - 1] || x == tags[|tags| - 1];
    }
  }

  /** Adding tags that are all already there changes nothing: the import is idempotent on tags. */
  lemma {:induction false} AppendNewIdempotent(existing: seq<string>, tags: seq<string>)
    ensures AppendNew(AppendNew(existing, tags), tags) == AppendNew(existing, tags)
  {
    var once := AppendNew(existing, tags);
    AppendNewRules(existing, tags);
    AppendNewKnown(once, tags);
  }

  lemma {:induction false} AppendNewKnown(existing: seq<string>, tags: seq<string>)
    requires forall t :: t in tags ==> t in existing
    ensures AppendNew(existing, tags) == existing
    decreases |tags|
  {
    if tags != [] {
      assert forall x :: x in tags[..|tags| - 1] ==> x in tags;
      AppendNewKnown(existing, tags[..|tags| - 1]);
      assert tags[|tags| - 1] in tags;
    }
  }

  /** The tag loop of `update_source`. */
  method AddTags(existing: seq<string>, tags: seq<string>) returns (r: seq<string>)
    ensures r == AppendNew(existing, tags)
  {
    r := existing;
    for i := 0 to |tags|
      invariant r == AppendNew(existing, tags[..i])
    {
      assert tags[..i + 1][..i] == tags[..i];
      if tags[i] !in r {
        r := r + [tags[i]];
      }
    }
    assert tags[..|tags|] == tags;
  }

  /** The tag assignment of `update_source`. */
  method RowTags(existing: Option<seq<string>>, cell: Cell) returns (tags: Option<seq<string>>)
    ensures tags == UpdatedTags(existing, cell)
  {
    if cell.Some? {
      if existing.Some? {
        var merged := AddTags(existing.value, Split(cell.value, ","));
        tags := Some(merged);
      } else {
        tags := Some(Split(cell.value, ","));
      }
    } else {
      tags := Some([]);
    }
  }

  /** The tags `update_source` leaves: the union with the sheet's, the sheet's alone on an untagged entity, [] for an empty cell. */
  function UpdatedTags(existing: Option<seq<string>>, cell: Cell): (r: Option<seq<string>>)
    ensures r.Some?
    ensures cell.None? ==> r == Some([])
    ensures cell.Some? && existing.None? ==> r == Some(Split(cell.value, ","))
  {
    if cell.None? then Some([])
    else if existing.Some? then Some(AppendNew(existing.value, Split(cell.value, ",")))
    else Some(Split(cell.value, ","))
  }

  /** With tags on both sides, the result holds the old tags first, then the new ones not yet present. */
  lemma UpdatedTagsUnion(existing: seq<string>, cell: string)
    ensures var r := UpdatedTags(Some(existing), Some(cell)).value;
      && existing <= r
      && forall t :: t in r <==> t in existing || t in Split(cell, ",")
  {
    AppendNewRules(existing, Split(cell, ","));
  }

  /* ---- create_source ---- */

  /** `pd.isna(x)`-free truthiness of a Reference or Trusted cell; an empty cell counts as false. */
  predicate Truthy(cell: Option<bool>)
  {
    cell == Some(true)
  }

  /** The group a cell names, when it is non-null and stored. */
  function GroupOf(groups: seq<Group>, cell: Cell): (r: Option<GroupId>)
    ensures r.Some? ==> cell.Some? && cell.value in GroupNames(groups)
    ensures cell.Some? && cell.value in GroupNames(groups) ==> r.Some?
  {
    if cell.None? then None else FindGroup(groups, cell.value)
  }

  /** The entity `create_source` builds, before its origins. */
  function NewSource(db: Db, row: SourceRow): (e: Entity)
  {
    NewEntity(db.nextId, row.source, Truthy(row.isReference)).(
      status := SOURCE, trusted := Truthy(row.isTrusted),
      location := row.location, ecoregion := row.ecoregion,
      tags := if row.tags.Some? then Some(Split(row.tags.value, ",")) else None,
      groupId := GroupOf(db.groups, row.group))
  }

  /** The store with `e` added as its newest row. */
  function Added(db: Db, e: Entity): (r: Db)
  {
    db.(entities := db.entities[e.id := e], rows := db.rows + [e.id], nextId := db.nextId + 1)
  }

  /**
   * `create_source`: a new SOURCE entity with the row's name, flags,
   * location, ecoregion, split tags and (if stored) group; then a Twitter
   * origin for a screen name and a web origin (with its feed, when one is
   * found) for a web site.
   */
  function CreateSourceSpec(db: Db, row: SourceRow, sv: Services): (r: Db)
  {
    var e := NewSource(db, row);
    var db1 := Added(db, e);
    var db2 := if row.twitter.Some? then CreateTwitterOriginSpec(db1, e.id, row.twitter.value, sv.twitterInfos(row.twitter.value)) else db1;
    if row.web.Some? then CreateWebAndRssOriginsSpec(db2, e.id, row.web.value, sv.findFeed(row.web.value)) else db2
  }

  /**
   * The created entity is a SOURCE carrying the row's values; its new
   * origins are the Twitter account, then the web site and its feed, all
   * owned by it; no existing entity or origin changes.
   */
  lemma CreateSourceRecords(db: Db, row: SourceRow, sv: Services)
    ensures var r := CreateSourceSpec(db, row, sv); var id := db.nextId;
      && id in r.entities && r.entities == db.entities[id := r.entities[id]]
      && r.rows == db.rows + [id]
      && db.origins <= r.origins
      && (forall o :: o in r.origins[|db.origins|..] ==> o.entity == Some(id) && o.occurrences == 0)
      && |r.origins| - |db.origins| == (if row.twitter.Some? then 1 else 0) + (if row.web.Some? then (if sv.findFeed(row.web.value).Some? then 2 else 1) else 0)
  {
  }

  /** The field rules of a created source. */
  lemma CreateSourceFields(db: Db, row: SourceRow, sv: Services)
    ensures var e := CreateSourceSpec(db, row, sv).entities[db.nextId];
      && e.name == row.source && e.status == SOURCE
      && e.isReference == (row.isReference == Some(true)) && e.trusted == (row.isTrusted == Some(true))
      && e.location == row.location && e.ecoregion == row.ecoregion
      && (row.tags.Some? <==> e.tags.Some?)
      && (row.tags.Some? ==> Join(e.tags.value, ",") == row.tags.value)
      && (e.groupId.Some? <==> row.group.Some? && row.group.value in GroupNames(db.groups))
  {
    if row.tags.Some? {
      JoinSplit(row.tags.value, ",");
    }
  }

  method CreateSource(s: Session, row: SourceRow, sv: Services)
    modifies s
    ensures s.State() == CreateSourceSpec(old(s.State()), row, sv)
  {
    var e := NewSource(s.State(), row);
    s.entities := s.entities[e.id := e];
    s.rows := s.rows + [e.id];
    s.nextId := s.nextId + 1;
    if row.twitter.Some? {
      CreateTwitterOrigin(s, e.id, row.twitter.value, sv.twitterInfos(row.twitter.value));
    }
    if row.web.Some? {
      CreateWebAndRssOrigins(s, e.id, row.web.value, sv.findFeed(row.web.value));
    }
  }

  /* ---- update_source ---- */

  /** The three origin subclasses, as `isinstance` tests them. */
  datatype Kind = TwitterKind | WebKind | RssKind

  predicate IsKind(o: Origin, k: Kind)
  {
    match k
    case TwitterKind => o.detail.TwitterOrigin?
    case WebKind => o.detail.WebOrigin?
    case RssKind => o.detail.RssOrigin?
  }

  predicate OwnedOfKind(o: Origin, id: EntityId, k: Kind)
  {
    o.entity == Some(id) && IsKind(o, k)
  }

  /** `list(filter(lambda o: isinstance(o, K), entity.origins))[0]`, as a position in the origins table. */
  function FirstOwned(os: seq<Origin>, id: EntityId, k: Kind): (r: Option<nat>)
    ensures r.Some? ==> r.value < |os| && OwnedOfKind(os[r.value], id, k)
    ensures r.Some? ==> forall j :: 0 <= j < r.value ==> !OwnedOfKind(os[j], id, k)
    ensures r.None? <==> forall j :: 0 <= j < |os| ==> !OwnedOfKind(os[j], id, k)
  {
    if os == [] then None
    else if OwnedOfKind(os[0], id, k) then Some(0)
    else
      match FirstOwned(os[1..], id, k)
      case None => None
      case Some(i) => Some(i + 1)
  }

  /**
   * The entity fields `update_source` sets: status SOURCE; the group when the
   * cell names a stored one; the reference and trusted flags only ever
   * raised; location and ecoregion when the cell has one; the tags merged.
   */
  function UpdatedFields(groups: seq<Group>, e: Entity, row: SourceRow): (r: Entity)
    ensures r.id == e.id && r.name == e.name && r.status == SOURCE
    ensures r.isReference == (e.isReference || Truthy(row.isReference))
    ensures r.trusted == (e.trusted || Truthy(row.isTrusted))
    ensures r.groupId == if GroupOf(groups, row.group).Some? then GroupOf(groups, row.group) else e.groupId
    ensures r.location == if row.location.Some? then row.location else e.location
    ensures r.ecoregion == if row.ecoregion.Some? then row.ecoregion else e.ecoregion
    ensures r.tags == UpdatedTags(e.tags, row.tags)
    ensures r == e.(status := r.status, groupId := r.groupId, isReference := r.isReference, trusted := r.trusted,
                    location := r.location, ecoregion := r.ecoregion, tags := r.tags)
  {
    var g := GroupOf(groups, row.group);
    e.(status := SOURCE,
       groupId := if g.Some? then g else e.groupId,
       isReference := if Truthy(row.isReference) then true else e.isReference,
       trusted := if Truthy(row.isTrusted) then true else e.trusted,
       location := if row.location.Some? then row.location else e.location,
       ecoregion := if row.ecoregion.Some? then row.ecoregion else e.ecoregion,
       tags := UpdatedTags(e.tags, row.tags))
  }

  /** A renamed Twitter origin: the new screen name, then its profile refreshed (the existing one) or fetched (none yet). */
  function Renamed(d: OriginDetail, screenName: string, info: TwitterInfo): (r: OriginDetail)
    requires d.TwitterOrigin?
    ensures r.TwitterOrigin? && r.screenName == screenName
  {
    var d1 := d.(screenName := screenName);
    if d1.profile.Some? then UpdatedProfile(d1, info).value else RetrievedProfile(d1, info)
  }

  /**
   * The Twitter part of `update_source`: with no Twitter origin one is
   * created; a first Twitter origin under another name is renamed, unless
   * an origin with the new name exists, in which case nothing changes.
   */
  function UpdateTwitterSpec(db: Db, id: EntityId, screenName: string, sv: Services): (r: Db)
    ensures r.entities == db.entities && r.rows == db.rows && r.groups == db.groups
  {
    match FirstOwned(db.origins, id, TwitterKind)
    case None => CreateTwitterOriginSpec(db, id, screenName, sv.twitterInfos(screenName))
    case Some(i) =>
      var o := db.origins[i];
      if o.detail.screenName == screenName then db
      else if SourceAcquisition.Lookup(db.origins, SourceAcquisition.ScreenName(screenName)).Some? then db
      else db.(origins := db.origins[i := o.(detail := Renamed(o.detail, screenName, sv.twitterInfos(screenName)))])
  }

  /** The database's `unique=True` on `TwitterOrigin.screen_name`: no two Twitter origins share a screen name. */
  predicate ScreenNamesUnique(os: seq<Origin>)
  {
    forall i, j :: 0 <= i < j < |os| && os[i].detail.TwitterOrigin? && os[j].detail.TwitterOrigin? ==>
      os[i].detail.screenName != os[j].detail.screenName
  }

  /** The Twitter origin `create_twitter_origin` would add for an entity that has none clashes with one already stored. */
  predicate CreatesHeldName(db: Db, id: EntityId, screenName: string)
  {
    FirstOwned(db.origins, id, TwitterKind).None? &&
    SourceAcquisition.Lookup(db.origins, SourceAcquisition.ScreenName(screenName)).Some?
  }

  /**
   * The Twitter step keeps the screen names unique exactly when it does not
   * create an origin under a name another origin holds; that one case is the
   * origin the database refuses at the next flush.
   */
  lemma {:induction false} UpdateTwitterKeepsScreenNamesUnique(db: Db, id: EntityId, screenName: string, sv: Services)
    requires ScreenNamesUnique(db.origins)
    ensures ScreenNamesUnique(UpdateTwitterSpec(db, id, screenName, sv).origins) <==> !CreatesHeldName(db, id, screenName)
  {
    var r := UpdateTwitterSpec(db, id, screenName, sv);
    var n := |db.origins|;
    var held := SourceAcquisition.Lookup(db.origins, SourceAcquisition.ScreenName(screenName));
    if held.None? {
      forall k | 0 <= k < n && db.origins[k].detail.TwitterOrigin?
        ensures db.origins[k].detail.screenName != screenName
      {
        assert SourceAcquisition.KeyOf(db.origins[k]) != SourceAcquisition.ScreenName(screenName);
      }
    } else {
      assert SourceAcquisition.KeyOf(db.origins[held.value]) == SourceAcquisition.ScreenName(screenName);
    }
    var first := FirstOwned(db.origins, id, TwitterKind);
    if first.None? {
      assert r.origins[n].detail.TwitterOrigin? && r.origins[n].detail.screenName == screenName;
      assert forall k :: 0 <= k < n ==> r.origins[k] == db.origins[k];
    } else {
      var i := first.value;
      var o := db.origins[i];
      if o.detail.screenName != screenName && held.None? {
        assert r.origins == db.origins[i := o.(detail := Renamed(o.detail, screenName, sv.twitterInfos(screenName)))];
      }
    }
  }

  /** `web_origin.rss_origin = []`: every RSS origin derived from the web origin loses its link. */
  function Unlinked(os: seq<Origin>, webId: OriginId): (r: seq<Origin>)
    ensures |r| == |os|
    ensures forall k :: 0 <= k < |os| ==>
      r[k] == if os[k].detail.RssOrigin? && os[k].detail.originWeb == Some(webId)
              then os[k].(detail := os[k].detail.(originWeb := None)) else os[k]
  {
    seq(|os|, k requires 0 <= k < |os| =>
      if os[k].detail.RssOrigin? && os[k].detail.originWeb == Some(webId)
      then os[k].(detail := os[k].detail.(originWeb := None)) else os[k])
  }

  /**
   * The feed step after a web site changed: a found feed overwrites the
   * entity's first RSS origin, or becomes a new RSS origin derived from the
   * web origin; no feed unlinks the RSS origins derived from it.
   */
  function RelinkFeed(db: Db, id: EntityId, webId: OriginId, web: string, feed: Option<string>): (r: Db)
    ensures r.entities == db.entities && r.rows == db.rows && r.groups == db.groups
    ensures |db.origins| <= |r.origins|
    ensures forall k :: 0 <= k < |db.origins| && !db.origins[k].detail.RssOrigin? ==> r.origins[k] == db.origins[k]
  {
    match feed
    case Some(_) =>
      (match FirstOwned(db.origins, id, RssKind)
       case Some(j) =>
         var o := db.origins[j];
         db.(origins := db.origins[j := o.(detail := o.detail.(rss := feed, rssBaseUrl := Some(web)))])
       case None =>
         db.(origins := db.origins + [Origin(db.nextId, Some(id), 0, None, true, RssOrigin(Some(web), feed, Some(webId)))],
             nextId := db.nextId + 1))
    case None => db.(origins := Unlinked(db.origins, webId))
  }

  /**
   * The web part of `update_source`: with no web origin one is created with
   * its feed; a first web origin with another raw url gets the new url as
   * raw, expanded and base url, and then, unless the url matches
   * `ignore_for_rss_search`, its feed is looked for again.
   */
  function UpdateWebSpec(db: Db, cfg: Config, id: EntityId, web: string, sv: Services): (r: Db)
    ensures r.entities == db.entities && r.rows == db.rows && r.groups == db.groups
  {
    match FirstOwned(db.origins, id, WebKind)
    case None => CreateWebAndRssOriginsSpec(db, id, web, sv.findFeed(web))
    case Some(i) =>
      if db.origins[i].detail.rawUrl == Some(web) then db
      else
        var o := db.origins[i].(detail := WebOrigin(Some(web), Some(web), Some(web)));
        var db1 := db.(origins := db.origins[i := o]);
        if Shared.CheckIfUrlMatchPattern(web, cfg.ignoreForRssSearch, sv.search) then db1
        else RelinkFeed(db1, id, o.id, web, sv.findFeed(web))
  }

  /** `update_source(db, entity, ...)`: the entity fields, then the Twitter origin, then the web origin. */
  function UpdateSourceSpec(db: Db, cfg: Config, id: EntityId, row: SourceRow, sv: Services): (r: Db)
    requires id in db.entities
    ensures r.entities == db.entities[id := UpdatedFields(db.groups, db.entities[id], row)]
    ensures r.rows == db.rows && r.groups == db.groups
  {
    var db1 := db.(entities := db.entities[id := UpdatedFields(db.groups, db.entities[id], row)]);
    var db2 := if row.twitter.Some? then UpdateTwitterSpec(db1, id, row.twitter.value, sv) else db1;
    assert db2.entities == db1.entities && db2.groups == db.groups;
    if row.web.Some? then UpdateWebSpec(db2, cfg, id, row.web.value, sv) else db2
  }

  /** The flags are one-way: an update never clears `is_reference` or `trusted`, and always leaves a SOURCE. */
  lemma UpdateSourceOneWay(db: Db, cfg: Config, id: EntityId, row: SourceRow, sv: Services)
    requires id in db.entities
    ensures var e := UpdateSourceSpec(db, cfg, id, row, sv).entities[id];
      && e.status == SOURCE
      && (db.entities[id].isReference ==> e.isReference)
      && (db.entities[id].trusted ==> e.trusted)
      && (e.isReference <==> db.entities[id].isReference || row.isReference == Some(true))
      && (e.trusted <==> db.entities[id].trusted || row.isTrusted == Some(true))
  {
  }

  /** No other entity is touched by an update. */
  lemma UpdateSourceOnlyThisEntity(db: Db, cfg: Config, id: EntityId, row: SourceRow, sv: Services, other: EntityId)
    requires id in db.entities && other in db.entities && other != id
    ensures UpdateSourceSpec(db, cfg, id, row, sv).entities[other] == db.entities[other]
  {
  }

  /** A screen name already held by another origin leaves the Twitter origins as they were. */
  lemma TwitterRenameConflict(db: Db, id: EntityId, screenName: string, sv: Services, i: nat)
    requires FirstOwned(db.origins, id, TwitterKind) == Some(i)
    requires db.origins[i].detail.screenName != screenName
    requires exists k :: 0 <= k < |db.origins| && db.origins[k].detail.TwitterOrigin? && db.origins[k].detail.screenName == screenName
    ensures UpdateTwitterSpec(db, id, screenName, sv) == db
  {
    var k :| 0 <= k < |db.origins| && db.origins[k].detail.TwitterOrigin? && db.origins[k].detail.screenName == screenName;
    assert SourceAcquisition.KeyOf(db.origins[k]) == SourceAcquisition.ScreenName(screenName);
  }

  /** A free new screen name renames the entity's first Twitter origin, in place. */
  lemma TwitterRenameFree(db: Db, id: EntityId, screenName: string, sv: Services, i: nat)
    requires FirstOwned(db.origins, id, TwitterKind) == Some(i)
    requires forall k :: 0 <= k < |db.origins| ==> !(db.origins[k].detail.TwitterOrigin? && db.origins[k].detail.screenName == screenName)
    ensures var r := UpdateTwitterSpec(db, id, screenName, sv);
      && |r.origins| == |db.origins|
      && r.origins[i].detail.TwitterOrigin? && r.origins[i].detail.screenName == screenName
      && r.origins[i].id == db.origins[i].id && r.origins[i].entity == Some(id)
      && forall k :: 0 <= k < |db.origins| && k != i ==> r.origins[k] == db.origins[k]
  {
    assert SourceAcquisition.Lookup(db.origins, SourceAcquisition.ScreenName(screenName)).None? by {
      forall k | 0 <= k < |db.origins|
        ensures SourceAcquisition.KeyOf(db.origins[k]) != SourceAcquisition.ScreenName(screenName)
      {
      }
    }
  }

  /** A changed web site sets all three urls of the entity's first web origin together, whatever happens to its feed. */
  lemma WebChangeSetsAllUrls(db: Db, cfg: Config, id: EntityId, web: string, sv: Services, i: nat)
    requires FirstOwned(db.origins, id, WebKind) == Some(i)
    requires db.origins[i].detail.rawUrl != Some(web)
    ensures var r := UpdateWebSpec(db, cfg, id, web, sv);
      && i < |r.origins|
      && r.origins[i] == db.origins[i].(detail := WebOrigin(Some(web), Some(web), Some(web)))
  {
  }

  /** An unchanged web site changes nothing, not even the feed. */
  lemma WebUnchangedKeepsStore(db: Db, cfg: Config, id: EntityId, web: string, sv: Services, i: nat)
    requires FirstOwned(db.origins, id, WebKind) == Some(i)
    requires db.origins[i].detail.rawUrl == Some(web)
    ensures UpdateWebSpec(db, cfg, id, web, sv) == db
  {
  }

  /** With no feed found for the new site, no RSS origin stays derived from the web origin. */
  lemma WebChangeWithoutFeedUnlinks(db: Db, cfg: Config, id: EntityId, web: string, sv: Services, i: nat)
    requires FirstOwned(db.origins, id, WebKind) == Some(i)
    requires db.origins[i].detail.rawUrl != Some(web)
    requires !Shared.CheckIfUrlMatchPattern(web, cfg.ignoreForRssSearch, sv.search)
    requires sv.findFeed(web).None?
    ensures var r := UpdateWebSpec(db, cfg, id, web, sv);
      forall k :: 0 <= k < |r.origins| && r.origins[k].detail.RssOrigin? ==> r.origins[k].detail.originWeb != Some(db.origins[i].id)
  {
  }

  method UpdateTwitter(s: Session, id: EntityId, screenName: string, sv: Services)
    modifies s
    ensures s.State() == UpdateTwitterSpec(old(s.State()), id, screenName, sv)
  {
    var first := FirstOwned(s.origins, id, TwitterKind);
    if first.None? {
      CreateTwitterOrigin(s, id, screenName, sv.twitterInfos(screenName));
    } else {
      var i := first.value;
      var o := s.origins[i];
      if o.detail.screenName != screenName {
        var existing := SourceAcquisition.Lookup(s.origins, SourceAcquisition.ScreenName(screenName));
        if existing.None? {
          s.origins := s.origins[i := o.(detail := Renamed(o.detail, screenName, sv.twitterInfos(screenName)))];
        }
      }
    }
  }

  method UpdateWeb(s: Session, cfg: Config, id: EntityId, web: string, sv: Services)
    modifies s
    ensures s.State() == UpdateWebSpec(old(s.State()), cfg, id, web, sv)
  {
    var first := FirstOwned(s.origins, id, WebKind);
    if first.None? {
      CreateWebAndRssOrigins(s, id, web, sv.findFeed(web));
    } else {
      var i := first.value;
      if s.origins[i].detail.rawUrl != Some(web) {
        var o := s.origins[i].(detail := WebOrigin(Some(web), Some(web), Some(web)));
        s.origins := s.origins[i := o];
        if !Shared.CheckIfUrlMatchPattern(web, cfg.ignoreForRssSearch, sv.search) {
          var feed := sv.findFeed(web);
          if feed.Some? {
            var rssAt := FirstOwned(s.origins, id, RssKind);
            if rssAt.Some? {
              var j := rssAt.value;
              s.origins := s.origins[j := s.origins[j].(detail := s.origins[j].detail.(rss := feed, rssBaseUrl := Some(web)))];
            } else {
              s.origins := s.origins + [Origin(s.nextId, Some(id), 0, None, true, RssOrigin(Some(web), feed, Some(o.id)))];
              s.nextId := s.nextId + 1;
            }
          } else {
            s.origins := Unlinked(s.origins, o.id);
          }
        }
      }
    }
  }

  /** The field assignments of `update_source`, with the tag loop. */
  method UpdateFields(s: Session, id: EntityId, row: SourceRow)
    requires id in s.entities
    modifies s
    ensures s.State() == old(s.State()).(entities := old(s.entities)[id := UpdatedFields(old(s.groups), old(s.entities[id]), row)])
  {
    var e := s.entities[id];
    var tags := RowTags(e.tags, row.tags);
    var g := GroupOf(s.groups, row.group);
    var e1 := e.(status := SOURCE,
                 groupId := if g.Some? then g else e.groupId,
                 isReference := if Truthy(row.isReference) then true else e.isReference,
                 trusted := if Truthy(row.isTrusted) then true else e.trusted,
                 location := if row.location.Some? then row.location else e.location,
                 ecoregion := if row.ecoregion.Some? then row.ecoregion else e.ecoregion,
                 tags := tags);
    assert e1 == UpdatedFields(s.groups, e, row);
    s.entities := s.entities[id := e1];
  }

  method UpdateSource(s: Session, cfg: Config, id: EntityId, row: SourceRow, sv: Services)
    requires id in s.entities
    modifies s
    ensures s.State() == UpdateSourceSpec(old(s.State()), cfg, id, row, sv)
  {
    UpdateFields(s, id, row);
    if row.twitter.Some? {
      UpdateTwitter(s, id, row.twitter.value, sv);
    }
    if row.web.Some? {
      UpdateWeb(s, cfg, id, row.web.value, sv);
    }
  }

  /* ---- process_sources ---- */

  /** `db.query(Entity).filter(Entity.name == name).first()`, over the entity rows in query order. */
  function EntityNamed(entities: map<EntityId, Entity>, rows: seq<EntityId>, name: string): (r: Option<EntityId>)
    ensures r.Some? ==> r.value in entities && entities[r.value].name == name && r.value in rows
    ensures r.None? <==> forall i :: 0 <= i < |rows| ==> rows[i] !in entities || entities[rows[i]].name != name
    decreases |rows|
  {
    if rows == [] then None
    else if rows[0] in entities && entities[rows[0]].name == name then Some(rows[0])
    else
      var rest := EntityNamed(entities, rows[1..], name);
      assert forall i :: 1 <= i < |rows| ==> rows[i] == rows[1..][i - 1];
      rest
  }

  /** The origin a row's screen name finds, if the cell has one. */
  function TwitterNamed(db: Db, twitter: Cell): (r: Option<nat>)
    ensures r.Some? ==> twitter.Some? && r.value < |db.origins|
    ensures r.Some? ==> db.origins[r.value].detail.TwitterOrigin? && db.origins[r.value].detail.screenName == twitter.value
    ensures r.None? <==> twitter.None? || forall k :: 0 <= k < |db.origins| ==>
      !(db.origins[k].detail.TwitterOrigin? && db.origins[k].detail.screenName == twitter.value)
  {
    if twitter.None? then None
    else
      var r := SourceAcquisition.Lookup(db.origins, SourceAcquisition.ScreenName(twitter.value));
      assert r.None? <==> forall k :: 0 <= k < |db.origins| ==>
        !(db.origins[k].detail.TwitterOrigin? && db.origins[k].detail.screenName == twitter.value) by {
        if r.None? {
          forall k | 0 <= k < |db.origins|
            ensures !(db.origins[k].detail.TwitterOrigin? && db.origins[k].detail.screenName == twitter.value)
          {
            assert SourceAcquisition.KeyOf(db.origins[k]) != SourceAcquisition.ScreenName(twitter.value);
          }
        }
      }
      r
  }

  /** What `process_sources` does with a row. */
  datatype Target =
    | ByName(id: EntityId)      // an entity has the row's name: it is updated
    | ByTwitter(id: EntityId)   // none has, but the owner of the row's screen name is updated
    | Fresh                     // neither exists: a source is created
    | Orphan                    // the screen name's origin has no stored owner: `update_source(None)` raises
    | Clash(id: EntityId)       // the named entity has no Twitter origin and another origin holds the screen name:
                                // the origin `update_source` creates breaks the unique screen name, and the flush raises

  function TargetOf(db: Db, row: SourceRow): (r: Target)
    ensures (r.ByName? || r.ByTwitter? || r.Clash?) ==> r.id in db.entities
  {
    match EntityNamed(db.entities, db.rows, row.source)
    case Some(id) => if row.twitter.Some? && CreatesHeldName(db, id, row.twitter.value) then Clash(id) else ByName(id)
    case None =>
      match TwitterNamed(db, row.twitter)
      case None => Fresh
      case Some(k) =>
        var owner := db.origins[k].entity;
        if owner.Some? && owner.value in db.entities then ByTwitter(owner.value) else Orphan
  }

  /**
   * A row creates a source exactly when no entity has its name and no
   * Twitter origin has its screen name; it updates the entity with its name
   * whenever there is one.
   */
  lemma TargetRule(db: Db, row: SourceRow)
    ensures TargetOf(db, row).Fresh? <==>
      && (forall i :: 0 <= i < |db.rows| ==> db.rows[i] !in db.entities || db.entities[db.rows[i]].name != row.source)
      && (row.twitter.Some? ==> forall k :: 0 <= k < |db.origins| ==>
            !(db.origins[k].detail.TwitterOrigin? && db.origins[k].detail.screenName == row.twitter.value))
    ensures EntityNamed(db.entities, db.rows, row.source).Some? ==>
      var id := EntityNamed(db.entities, db.rows, row.source).value;
      TargetOf(db, row) == if row.twitter.Some? && CreatesHeldName(db, id, row.twitter.value) then Clash(id) else ByName(id)
  {
  }

  /** The rows that end the import with an exception. */
  predicate Raises(t: Target)
  {
    t.Orphan? || t.Clash?
  }

  datatype Mark = Created | Updated

  datatype SourcesRun = SourcesRun(db: Db, marks: seq<Mark>, raised: bool)

  /** The row loop of `process_sources`: each row (in order) is created or updated and marked. */
  function SourceRowsSpec(db: Db, cfg: Config, rows: seq<SourceRow>, sv: Services): (r: SourcesRun)
    ensures !r.raised ==> |r.marks| == |rows|
    ensures r.raised ==> |r.marks| < |rows|
    decreases |rows|
  {
    if rows == [] then SourcesRun(db, [], false)
    else
      match TargetOf(db, rows[0])
      case Orphan => SourcesRun(db, [], true)
      case Clash(_) => SourcesRun(db, [], true)
      case Fresh =>
        var rest := SourceRowsSpec(CreateSourceSpec(db, rows[0], sv), cfg, rows[1..], sv);
        SourcesRun(rest.db, [Created] + rest.marks, rest.raised)
      case ByName(id) =>
        var rest := SourceRowsSpec(UpdateSourceSpec(db, cfg, id, rows[0], sv), cfg, rows[1..], sv);
        SourcesRun(rest.db, [Updated] + rest.marks, rest.raised)
      case ByTwitter(id) =>
        var rest := SourceRowsSpec(UpdateSourceSpec(db, cfg, id, rows[0], sv), cfg, rows[1..], sv);
        SourcesRun(rest.db, [Updated] + rest.marks, rest.raised)
  }

  /** `process_sources(db, df)`: the groups of the sheet first, then its rows. */
  function ProcessSourcesSpec(db: Db, cfg: Config, rows: seq<SourceRow>, sv: Services): (r: SourcesRun)
  {
    SourceRowsSpec(ProcessGroupsSpec(db, Unique(GroupCells(rows))).db, cfg, rows, sv)
  }

  /** The mark a row that does not raise gets. */
  function MarkOf(t: Target): Mark
  {
    if t.Fresh? then Created else Updated
  }

  /**
   * The row loop unrolled once: an orphan or clashing row raises with the
   * store as it was; any other row is marked Created exactly when it was new to the
   * store the rows before it left, and the loop goes on from the store it
   * leaves.
   */
  lemma SourceRowsStep(db: Db, cfg: Config, rows: seq<SourceRow>, sv: Services)
    requires rows != []
    ensures Raises(TargetOf(db, rows[0])) ==> SourceRowsSpec(db, cfg, rows, sv) == SourcesRun(db, [], true)
    ensures !Raises(TargetOf(db, rows[0])) ==>
      var rest := SourceRowsSpec(StepDb(db, cfg, rows[0], sv), cfg, rows[1..], sv);
      SourceRowsSpec(db, cfg, rows, sv) == SourcesRun(rest.db, [MarkOf(TargetOf(db, rows[0]))] + rest.marks, rest.raised)
  {
  }

  /**
   * A row naming a stored entity that has no Twitter origin, with a screen
   * name another origin holds, ends the import with the database's
   * IntegrityError: nothing of it is reported.
   */
  lemma ImportClashRaises(db: Db, cfg: Config, row: SourceRow, rows: seq<SourceRow>, sv: Services, id: EntityId, k: nat)
    requires EntityNamed(db.entities, db.rows, row.source) == Some(id)
    requires FirstOwned(db.origins, id, TwitterKind).None?
    requires row.twitter.Some? && k < |db.origins|
    requires db.origins[k].detail.TwitterOrigin? && db.origins[k].detail.screenName == row.twitter.value
    ensures SourceRowsSpec(db, cfg, [row] + rows, sv) == SourcesRun(db, [], true)
  {
    assert SourceAcquisition.KeyOf(db.origins[k]) == SourceAcquisition.ScreenName(row.twitter.value);
    assert TargetOf(db, row) == Clash(id);
    assert ([row] + rows)[0] == row;
  }

  /** The store after one row that does not raise. */
  function StepDb(db: Db, cfg: Config, row: SourceRow, sv: Services): Db
  {
    match TargetOf(db, row)
    case Orphan => db
    case Clash(_) => db
    case Fresh => CreateSourceSpec(db, row, sv)
    case ByName(id) => UpdateSourceSpec(db, cfg, id, row, sv)
    case ByTwitter(id) => UpdateSourceSpec(db, cfg, id, row, sv)
  }

  /** One row of `process_sources`; None when it raises. */
  method ProcessSourceRow(s: Session, cfg: Config, row: SourceRow, sv: Services) returns (mark: Option<Mark>)
    modifies s
    ensures mark.None? <==> Raises(TargetOf(old(s.State()), row))
    ensures mark.Some? ==> mark.value == MarkOf(TargetOf(old(s.State()), row))
    ensures s.State() == StepDb(old(s.State()), cfg, row, sv)
  {
    var target := TargetOf(s.State(), row);
    match target {
      case Orphan =>
        mark := None;
      case Clash(_) =>
        mark := None;
      case Fresh =>
        CreateSource(s, row, sv);
        mark := Some(Created);
      case ByName(id) =>
        UpdateSource(s, cfg, id, row, sv);
        mark := Some(Updated);
      case ByTwitter(id) =>
        UpdateSource(s, cfg, id, row, sv);
        mark := Some(Updated);
    }
  }

  method ProcessSources(s: Session, cfg: Config, rows: seq<SourceRow>, sv: Services) returns (marks: seq<Mark>, raised: bool)
    modifies s
    ensures SourcesRun(s.State(), marks, raised) == ProcessSourcesSpec(old(s.State()), cfg, rows, sv)
  {
    var addedGroups := ProcessGroups(s, Unique(GroupCells(rows)));
    marks, raised := ProcessSourceRows(s, cfg, rows, sv);
  }

  /** The row loop of `process_sources`. */
  method ProcessSourceRows(s: Session, cfg: Config, rows: seq<SourceRow>, sv: Services) returns (marks: seq<Mark>, raised: bool)
    modifies s
    ensures SourcesRun(s.State(), marks, raised) == SourceRowsSpec(old(s.State()), cfg, rows, sv)
  {
    marks := [];
    raised := false;
    var i := 0;
    while i < |rows|
      invariant 0 <= i <= |rows|
      invariant SourceRowsSpec(old(s.State()), cfg, rows, sv) ==
        var rest := SourceRowsSpec(s.State(), cfg, rows[i..], sv);
        SourcesRun(rest.db, marks + rest.marks, rest.raised)
    {
      SourceRowsStepAt(s.State(), cfg, rows, sv, i);
      var mark := ProcessSourceRow(s, cfg, rows[i], sv);
      if mark.None? {
        assert marks + [] == marks;
        raised := true;
        return;
      }
      MarkAssoc(marks, mark.value, SourceRowsSpec(s.State(), cfg, rows[i + 1..], sv).marks);
      marks := marks + [mark.value];
      i := i + 1;
    }
    assert marks + [] == marks;
  }

  /** `SourceRowsStep` from row `i`. */
  lemma SourceRowsStepAt(db: Db, cfg: Config, rows: seq<SourceRow>, sv: Services, i: nat)
    requires i < |rows|
    ensures Raises(TargetOf(db, rows[i])) ==> SourceRowsSpec(db, cfg, rows[i..], sv) == SourcesRun(db, [], true)
    ensures !Raises(TargetOf(db, rows[i])) ==>
      var rest := SourceRowsSpec(StepDb(db, cfg, rows[i], sv), cfg, rows[i + 1..], sv);
      SourceRowsSpec(db, cfg, rows[i..], sv) == SourcesRun(rest.db, [MarkOf(TargetOf(db, rows[i]))] + rest.marks, rest.raised)
  {
    assert rows[i..][0] == rows[i] && rows[i..][1..] == rows[i + 1..];
    SourceRowsStep(db, cfg, rows[i..], sv);
  }

  lemma MarkAssoc(marks: seq<Mark>, m: Mark, rest: seq<Mark>)
    ensures marks + ([m] + rest) == (marks + [m]) + rest
  {
  }

  /* ---- compute_sources_kpis ---- */

  datatype SourceKpis = SourceKpis(
    nbAdded: nat, nbUpdated: nat, nbDeletedOrSuspended: nat,
    added: seq<string>, updated: seq<string>, deletedOrSuspended: seq<string>)

  /** The Source cells of the rows carrying `mark`, in row order. */
  function MarkedNames(names: seq<string>, marks: seq<Mark>, mark: Mark): (r: seq<string>)
    requires |names| == |marks|
    ensures |r| <= |names|
    ensures forall n :: n in r <==> exists i :: 0 <= i < |names| && marks[i] == mark && names[i] == n
    decreases |names|
  {
    if names == [] then []
    else
      var rest := MarkedNames(names[1..], marks[1..], mark);
      assert forall i :: 1 <= i < |names| ==> names[i] == names[1..][i - 1] && marks[i] == marks[1..][i - 1];
      (if marks[0] == mark then [names[0]] else []) + rest
  }

  /**
   * `compute_sources_kpis(df)`: the names marked Created, marked Updated and
   * marked Deleted, with their counts. No step of the import writes the
   * Deleted column, so that list is empty.
   */
  function ComputeSourcesKpis(names: seq<string>, marks: seq<Mark>): (k: SourceKpis)
    requires |names| == |marks|
    ensures k.nbAdded == |k.added| && k.nbUpdated == |k.updated| && k.nbDeletedOrSuspended == |k.deletedOrSuspended|
    ensures k.deletedOrSuspended == []
    ensures forall n :: n in k.added <==> exists i :: 0 <= i < |names| && marks[i] == Created && names[i] == n
    ensures forall n :: n in k.updated <==> exists i :: 0 <= i < |names| && marks[i] == Updated && names[i] == n
  {
    var added := MarkedNames(names, marks, Created);
    var updated := MarkedNames(names, marks, Updated);
    SourceKpis(|added|, |updated|, 0, added, updated, [])
  }

  /** Every row is either added or updated: the two counts sum to the number of rows. */
  lemma {:induction false} SourcesKpisCoverRows(names: seq<string>, marks: seq<Mark>)
    requires |names| == |marks|
    ensures var k := ComputeSourcesKpis(names, marks); k.nbAdded + k.nbUpdated == |names|
    decreases |names|
  {
    if names != [] {
      SourcesKpisCoverRows(names[1..], marks[1..]);
    }
  }

  /** The Source column of the sheet. */
  function SourceNames(rows: seq<SourceRow>): (r: seq<string>)
    ensures |r| == |rows| && forall i :: 0 <= i < |rows| ==> r[i] == rows[i].source
  {
    seq(|rows|, i requires 0 <= i < |rows| => rows[i].source)
  }

  /** An import that does not raise reports every row of the sheet, once. */
  lemma ImportReportsEveryRow(db: Db, cfg: Config, rows: seq<SourceRow>, sv: Services)
    requires !ProcessSourcesSpec(db, cfg, rows, sv).raised
    ensures var r := ProcessSourcesSpec(db, cfg, rows, sv);
      && |r.marks| == |rows|
      && var k := ComputeSourcesKpis(SourceNames(rows), r.marks); k.nbAdded + k.nbUpdated == |rows|
  {
    var r := ProcessSourcesSpec(db, cfg, rows, sv);
    SourcesKpisCoverRows(SourceNames(rows), r.marks);
  }
}

// Source tagging (source_tagging/main.py): three passes over the entities
// table. Entities still at ENTITY status are flagged as source candidates,
// untrusted entities are checked for trust, and every source candidate gets
// its contributor summary rebuilt.
module SourceTagging {
  import opened Wrappers
  import opened Orm

  /* ---- the queries ---- */

  /** The `filter(...)` clause of each query of the step. */
  datatype Filter =
    | StatusIs(status: EntityStatus)
    /** `and_(or_(... three statuses ...), Entity.trusted is False)`: the Python `is` yields `False`. */
    | TrustedCandidateAsWritten
    /** The evidently intended clause: any of the three statuses and not yet trusted. */
    | TrustedCandidate

  predicate Keeps(f: Filter, e: Entity)
  {
    match f
    case StatusIs(st) => e.status == st
    case TrustedCandidateAsWritten => (e.status == ENTITY || e.status == SOURCE_CANDIDATE || e.status == SOURCE) && false
    case TrustedCandidate => (e.status == ENTITY || e.status == SOURCE_CANDIDATE || e.status == SOURCE) && !e.trusted
  }

  /** `query.all()`: the listed ids whose row passes the filter, in row order. */
  function Select(entities: map<EntityId, Entity>, rows: seq<EntityId>, f: Filter): (r: seq<EntityId>)
    ensures forall x :: x in r <==> x in rows && x in entities && Keeps(f, entities[x])
    ensures |r| <= |rows|
  {
    if rows == [] then []
    else
      var id := rows[|rows| - 1];
      Select(entities, rows[..|rows| - 1], f) + (if id in entities && Keeps(f, entities[id]) then [id] else [])
  }

  method Query(s: Session, f: Filter) returns (ids: seq<EntityId>)
    ensures ids == Select(s.entities, s.rows, f)
  {
    ids := [];
    for i := 0 to |s.rows|
      invariant ids == Select(s.entities, s.rows[..i], f)
    {
      assert s.rows[..i + 1][..i] == s.rows[..i];
      var id := s.rows[i];
      if id in s.entities && Keeps(f, s.entities[id]) {
        ids := ids + [id];
      }
    }
    assert s.rows[..|s.rows|] == s.rows;
  }

  /* ---- the per-entity updates ---- */

  datatype Update = FlagCandidate | FlagTrust | Enrich

  /** `flag_source_candidate`, `flag_trusted_candidate` or `enrich_source` on one entity. */
  function Apply(u: Update, cfg: Config, db: Db, e: Entity): (r: Entity)
    ensures r.id == e.id && r.name == e.name
  {
    match u
    case FlagCandidate => FlaggedSourceCandidate(db, cfg, e)
    case FlagTrust => FlaggedTrusted(db, cfg, e)
    case Enrich => Enriched(db, e)
  }

  /** What the updates read: origins, edges, groups and the names of the entities. */
  ghost predicate SameBasis(d1: Db, d2: Db)
  {
    && d1.origins == d2.origins && d1.edges == d2.edges && d1.groups == d2.groups
    && d1.entities.Keys == d2.entities.Keys
    && forall id :: id in d1.entities ==> d2.entities[id].name == d1.entities[id].name
  }

  /** An update computes the same entity on any store with the same basis. */
  lemma ApplyLocal(u: Update, cfg: Config, d1: Db, d2: Db, e: Entity)
    requires SameBasis(d1, d2)
    ensures Apply(u, cfg, d1, e) == Apply(u, cfg, d2, e)
  {
    if u == Enrich {
      NamesUnchanged(d1, d2, VisitedEdges(d1.edges, Evidence(d1, e.id)));
    }
  }

  /** Applying an update twice is applying it once. */
  lemma ApplyIdempotent(u: Update, cfg: Config, db: Db, e: Entity)
    ensures Apply(u, cfg, db, Apply(u, cfg, db, e)) == Apply(u, cfg, db, e)
  {
  }

  /** The `for e in entities` loop, as a fold over the selected ids. */
  function UpdateEach(db: Db, cfg: Config, u: Update, ids: seq<EntityId>): (r: Db)
    requires KeysMatch(db.entities)
    ensures KeysMatch(r.entities) && r == db.(entities := r.entities) && r.entities.Keys == db.entities.Keys
    decreases |ids|
  {
    if ids == [] then db
    else
      var d := UpdateEach(db, cfg, u, ids[..|ids| - 1]);
      var id := ids[|ids| - 1];
      if id in d.entities then WithEntity(d, Apply(u, cfg, d, d.entities[id])) else d
  }

  /** The fold renames nothing. */
  lemma {:induction false} UpdateEachKeepsBasis(db: Db, cfg: Config, u: Update, ids: seq<EntityId>)
    requires KeysMatch(db.entities)
    ensures SameBasis(db, UpdateEach(db, cfg, u, ids))
    decreases |ids|
  {
    if ids != [] {
      UpdateEachKeepsBasis(db, cfg, u, ids[..|ids| - 1]);
    }
  }

  /** The fold updates each selected entity once, from the store it started on, and no other. */
  lemma {:induction false} UpdateEachPointwise(db: Db, cfg: Config, u: Update, ids: seq<EntityId>)
    requires KeysMatch(db.entities)
    ensures forall x :: x in db.entities ==>
      UpdateEach(db, cfg, u, ids).entities[x] == if x in ids then Apply(u, cfg, db, db.entities[x]) else db.entities[x]
  {
    forall x | x in db.entities
      ensures UpdateEach(db, cfg, u, ids).entities[x] == if x in ids then Apply(u, cfg, db, db.entities[x]) else db.entities[x]
    {
      UpdateEachAt(db, cfg, u, ids, x);
    }
  }

  lemma {:induction false} UpdateEachAt(db: Db, cfg: Config, u: Update, ids: seq<EntityId>, x: EntityId)
    requires KeysMatch(db.entities) && x in db.entities
    ensures UpdateEach(db, cfg, u, ids).entities[x] == if x in ids then Apply(u, cfg, db, db.entities[x]) else db.entities[x]
    decreases |ids|
  {
    if ids != [] {
      var init := ids[..|ids| - 1];
      var id := ids[|ids| - 1];
      UpdateEachAt(db, cfg, u, init, x);
      var d := UpdateEach(db, cfg, u, init);
      assert x in ids <==> x in init || x == id;
      if id == x {
        UpdateEachKeepsBasis(db, cfg, u, init);
        ApplyLocal(u, cfg, d, db, d.entities[id]);
        if id in init {
          ApplyIdempotent(u, cfg, db, db.entities[id]);
        }
      }
    }
  }

  /* ---- main ---- */

  /** The two flagging passes, with the given clause for the trust query. */
  function FlagPasses(db: Db, cfg: Config, trust: Filter): (r: Db)
    requires KeysMatch(db.entities)
    ensures KeysMatch(r.entities) && r == db.(entities := r.entities) && r.entities.Keys == db.entities.Keys
  {
    var db1 := UpdateEach(db, cfg, FlagCandidate, Select(db.entities, db.rows, StatusIs(ENTITY)));
    UpdateEach(db1, cfg, FlagTrust, Select(db1.entities, db1.rows, trust))
  }

  /** The three passes, with the given clause for the trust query. */
  function TaggingWith(db: Db, cfg: Config, trust: Filter): (r: Db)
    requires KeysMatch(db.entities)
    ensures KeysMatch(r.entities) && r == db.(entities := r.entities) && r.entities.Keys == db.entities.Keys
  {
    var db2 := FlagPasses(db, cfg, trust);
    UpdateEach(db2, cfg, Enrich, Select(db2.entities, db2.rows, StatusIs(SOURCE_CANDIDATE)))
  }

  /** `main`, with the trust query as intended. */
  function TaggingSpec(db: Db, cfg: Config): (r: Db)
    requires KeysMatch(db.entities)
    ensures KeysMatch(r.entities) && r == db.(entities := r.entities) && r.entities.Keys == db.entities.Keys
  {
    TaggingWith(db, cfg, TrustedCandidate)
  }

  /** `main` as written: the trust query selects nothing. */
  function TaggingAsWritten(db: Db, cfg: Config): (r: Db)
    requires KeysMatch(db.entities)
    ensures KeysMatch(r.entities) && r == db.(entities := r.entities) && r.entities.Keys == db.entities.Keys
  {
    TaggingWith(db, cfg, TrustedCandidateAsWritten)
  }

  /** Every entity of the store is listed in `rows`. */
  predicate AllListed(db: Db)
  {
    forall x :: x in db.entities ==> x in db.rows
  }

  /** One pass on a store whose entities are all listed: each entity the filter keeps is updated, the others are not. */
  lemma PassPointwise(db: Db, cfg: Config, u: Update, f: Filter, x: EntityId)
    requires KeysMatch(db.entities) && AllListed(db) && x in db.entities
    ensures var r := UpdateEach(db, cfg, u, Select(db.entities, db.rows, f));
      && AllListed(r)
      && r.entities[x] == if Keeps(f, db.entities[x]) then Apply(u, cfg, db, db.entities[x]) else db.entities[x]
  {
    UpdateEachAt(db, cfg, u, Select(db.entities, db.rows, f), x);
  }

  /** The first pass: only an ENTITY can become a candidate, and only its status changes. */
  lemma FlagPassOutcome(db: Db, cfg: Config, x: EntityId)
    requires KeysMatch(db.entities) && AllListed(db) && x in db.entities
    ensures var e := db.entities[x];
      UpdateEach(db, cfg, FlagCandidate, Select(db.entities, db.rows, StatusIs(ENTITY))).entities[x]
      == e.(status := if e.status == ENTITY && EvidenceSum(db, x) >= cfg.sourceCandidateThreshold then SOURCE_CANDIDATE else e.status)
  {
    PassPointwise(db, cfg, FlagCandidate, StatusIs(ENTITY), x);
    FlagSourceCandidateRule(db, cfg, db.entities[x]);
  }

  /** The intended trust pass, on a store with the basis of `db`: trust is gained from the evidence, and only trust changes. */
  lemma TrustPassOutcome(db: Db, db1: Db, cfg: Config, x: EntityId)
    requires KeysMatch(db1.entities) && AllListed(db1) && x in db1.entities && SameBasis(db, db1)
    ensures var e := db1.entities[x];
      UpdateEach(db1, cfg, FlagTrust, Select(db1.entities, db1.rows, TrustedCandidate)).entities[x]
      == e.(trusted := e.trusted || TrustEvidence(db, cfg, x))
  {
    var e := db1.entities[x];
    PassPointwise(db1, cfg, FlagTrust, TrustedCandidate, x);
    TrustStep(db, db1, cfg, e);
  }

  /** The trust step on one entity: a selected entity gains trust from the evidence, an unselected one is already trusted. */
  lemma TrustStep(db: Db, db1: Db, cfg: Config, e: Entity)
    requires SameBasis(db, db1)
    ensures (if Keeps(TrustedCandidate, e) then Apply(FlagTrust, cfg, db1, e) else e)
      == e.(trusted := e.trusted || TrustEvidence(db, cfg, e.id))
  {
    if !e.trusted {
      ApplyLocal(FlagTrust, cfg, db1, db, e);
      FlagTrustedRule(db, cfg, e);
    }
  }

  /** The enrich pass, on a store with the basis of `db`: every candidate is enriched, no other entity changes. */
  lemma EnrichPassOutcome(db: Db, db2: Db, cfg: Config, x: EntityId)
    requires KeysMatch(db2.entities) && AllListed(db2) && x in db2.entities && SameBasis(db, db2)
    ensures var e := db2.entities[x];
      UpdateEach(db2, cfg, Enrich, Select(db2.entities, db2.rows, StatusIs(SOURCE_CANDIDATE))).entities[x]
      == if e.status == SOURCE_CANDIDATE then Enriched(db, e) else e
  {
    PassPointwise(db2, cfg, Enrich, StatusIs(SOURCE_CANDIDATE), x);
    ApplyLocal(Enrich, cfg, db2, db, db2.entities[x]);
  }

  /**
   * The intended step for one entity, defined directly: ENTITY becomes
   * SOURCE_CANDIDATE exactly when the evidence reaches the threshold, trust is
   * gained from the evidence and never lost, and a candidate gets the
   * evidence sum and a fresh summary.
   */
  function TaggedEntity(db: Db, cfg: Config, e: Entity): (r: Entity)
    ensures r.status == (if e.status == ENTITY && EvidenceSum(db, e.id) >= cfg.sourceCandidateThreshold then SOURCE_CANDIDATE else e.status)
    ensures r.trusted <==> e.trusted || TrustEvidence(db, cfg, e.id)
    ensures r.status == SOURCE_CANDIDATE ==>
      r.tOccurrences == Some(EvidenceSum(db, e.id))
      && r.tSourceReferences == Some(References(db, VisitedEdges(db.edges, Evidence(db, e.id))))
    ensures r.status != SOURCE_CANDIDATE ==> r.tOccurrences == e.tOccurrences && r.tSourceReferences == e.tSourceReferences
    ensures r == e.(status := r.status, trusted := r.trusted, tOccurrences := r.tOccurrences, tSourceReferences := r.tSourceReferences)
  {
    var status := if e.status == ENTITY && EvidenceSum(db, e.id) >= cfg.sourceCandidateThreshold then SOURCE_CANDIDATE else e.status;
    var flagged := e.(status := status, trusted := e.trusted || TrustEvidence(db, cfg, e.id));
    if status == SOURCE_CANDIDATE then Enriched(db, flagged) else flagged
  }

  /** The two flagging passes set the status and the trust of `TaggedEntity` and change nothing else. */
  lemma FlagPassesOutcome(db: Db, cfg: Config, x: EntityId)
    requires KeysMatch(db.entities) && AllListed(db) && x in db.entities
    ensures var e := db.entities[x];
      var db2 := FlagPasses(db, cfg, TrustedCandidate);
      && AllListed(db2) && SameBasis(db, db2)
      && db2.entities[x] == e.(status := if e.status == ENTITY && EvidenceSum(db, x) >= cfg.sourceCandidateThreshold then SOURCE_CANDIDATE else e.status,
                               trusted := e.trusted || TrustEvidence(db, cfg, x))
  {
    var db1 := UpdateEach(db, cfg, FlagCandidate, Select(db.entities, db.rows, StatusIs(ENTITY)));
    UpdateEachKeepsBasis(db, cfg, FlagCandidate, Select(db.entities, db.rows, StatusIs(ENTITY)));
    PassPointwise(db, cfg, FlagCandidate, StatusIs(ENTITY), x);
    FlagPassOutcome(db, cfg, x);
    UpdateEachKeepsBasis(db1, cfg, FlagTrust, Select(db1.entities, db1.rows, TrustedCandidate));
    PassPointwise(db1, cfg, FlagTrust, TrustedCandidate, x);
    TrustPassOutcome(db, db1, cfg, x);
  }

  /** The three passes over the store do to each entity what `TaggedEntity` says. */
  lemma TaggingOutcome(db: Db, cfg: Config, x: EntityId)
    requires KeysMatch(db.entities) && AllListed(db) && x in db.entities
    ensures TaggingSpec(db, cfg).entities[x] == TaggedEntity(db, cfg, db.entities[x])
  {
    var db2 := FlagPasses(db, cfg, TrustedCandidate);
    FlagPassesOutcome(db, cfg, x);
    EnrichPassOutcome(db, db2, cfg, x);
    assert db.entities[x].id == x;
  }

  /** No status goes down: an ENTITY can only move up to SOURCE_CANDIDATE, the others keep theirs. */
  lemma TaggingNeverLowersStatus(db: Db, cfg: Config, x: EntityId)
    requires KeysMatch(db.entities) && AllListed(db) && x in db.entities
    ensures TaggingSpec(db, cfg).entities[x].status.Value() >= db.entities[x].status.Value()
    ensures db.entities[x].status != ENTITY ==> TaggingSpec(db, cfg).entities[x].status == db.entities[x].status
  {
    TaggingOutcome(db, cfg, x);
    TaggedEntityNeverLowers(db, cfg, db.entities[x]);
  }

  /** The same for one entity tagged on its own. */
  lemma TaggedEntityNeverLowers(db: Db, cfg: Config, e: Entity)
    ensures TaggedEntity(db, cfg, e).status.Value() >= e.status.Value()
    ensures e.status != ENTITY ==> TaggedEntity(db, cfg, e).status == e.status
  {
  }

  /** The step renames nothing and reads the same origins, edges and groups afterwards. */
  lemma TaggingKeepsBasis(db: Db, cfg: Config)
    requires KeysMatch(db.entities)
    ensures SameBasis(db, TaggingSpec(db, cfg))
  {
    var db1 := UpdateEach(db, cfg, FlagCandidate, Select(db.entities, db.rows, StatusIs(ENTITY)));
    var db2 := UpdateEach(db1, cfg, FlagTrust, Select(db1.entities, db1.rows, TrustedCandidate));
    UpdateEachKeepsBasis(db, cfg, FlagCandidate, Select(db.entities, db.rows, StatusIs(ENTITY)));
    UpdateEachKeepsBasis(db1, cfg, FlagTrust, Select(db1.entities, db1.rows, TrustedCandidate));
    UpdateEachKeepsBasis(db2, cfg, Enrich, Select(db2.entities, db2.rows, StatusIs(SOURCE_CANDIDATE)));
  }

  /** A tagged entity, tagged again on a store with the same basis, stays as it is. */
  lemma TaggedEntityStable(db: Db, db1: Db, cfg: Config, e: Entity)
    requires SameBasis(db, db1)
    ensures TaggedEntity(db1, cfg, TaggedEntity(db, cfg, e)) == TaggedEntity(db, cfg, e)
  {
    var t := TaggedEntity(db, cfg, e);
    assert Evidence(db1, e.id) == Evidence(db, e.id);
    NamesUnchanged(db, db1, VisitedEdges(db.edges, Evidence(db, e.id)));
    var again := TaggedEntity(db1, cfg, t);
    assert again.status == t.status;
    assert again.trusted == t.trusted;
  }

  /** Running the step a second time leaves each entity as the first run left it. */
  lemma TaggingIdempotentAt(db: Db, cfg: Config, x: EntityId)
    requires KeysMatch(db.entities) && AllListed(db) && x in db.entities
    ensures TaggingSpec(TaggingSpec(db, cfg), cfg).entities[x] == TaggingSpec(db, cfg).entities[x]
  {
    var r1 := TaggingSpec(db, cfg);
    assert AllListed(r1);
    TaggingKeepsBasis(db, cfg);
    TaggingOutcome(db, cfg, x);
    TaggingOutcome(r1, cfg, x);
    TaggedEntityStable(db, r1, cfg, db.entities[x]);
  }

  /** Running the step a second time changes nothing. */
  lemma TaggingIdempotent(db: Db, cfg: Config)
    requires KeysMatch(db.entities) && AllListed(db)
    ensures TaggingSpec(TaggingSpec(db, cfg), cfg) == TaggingSpec(db, cfg)
  {
    var r1 := TaggingSpec(db, cfg);
    var r2 := TaggingSpec(r1, cfg);
    forall x | x in r1.entities ensures r2.entities[x] == r1.entities[x] {
      TaggingIdempotentAt(db, cfg, x);
    }
    SameEntitiesSameStore(r1, r2);
  }

  /** Two stores that differ at most in their entities, and agree on every entity, are the same. */
  lemma SameEntitiesSameStore(r1: Db, r2: Db)
    requires r2 == r1.(entities := r2.entities) && r2.entities.Keys == r1.entities.Keys
    requires forall x :: x in r1.entities ==> r2.entities[x] == r1.entities[x]
    ensures r2 == r1
  {
    assert r2.entities == r1.entities;
  }

  /** As written, the trust query selects nothing. */
  lemma {:induction false} AsWrittenTrustQueryEmpty(entities: map<EntityId, Entity>, rows: seq<EntityId>)
    ensures Select(entities, rows, TrustedCandidateAsWritten) == []
    decreases |rows|
  {
    if rows != [] {
      AsWrittenTrustQueryEmpty(entities, rows[..|rows| - 1]);
    }
  }

  /** So, as written, no entity's trust changes in this step. */
  lemma AsWrittenNeverTrusts(db: Db, cfg: Config, x: EntityId)
    requires KeysMatch(db.entities) && AllListed(db) && x in db.entities
    ensures TaggingAsWritten(db, cfg).entities[x].trusted == db.entities[x].trusted
  {
    var db1 := UpdateEach(db, cfg, FlagCandidate, Select(db.entities, db.rows, StatusIs(ENTITY)));
    FlagPassOutcome(db, cfg, x);
    PassPointwise(db, cfg, FlagCandidate, StatusIs(ENTITY), x);
    AsWrittenTrustQueryEmpty(db1.entities, db1.rows);
    UpdateEachKeepsBasis(db, cfg, FlagCandidate, Select(db.entities, db.rows, StatusIs(ENTITY)));
    EnrichPassOutcome(db, db1, cfg, x);
  }

  /** The step as written for one entity: the status and enrichment rules of `TaggedEntity`, with trust left as it was. */
  function TaggedEntityAsWritten(db: Db, cfg: Config, e: Entity): (r: Entity)
    ensures r.status == (if e.status == ENTITY && EvidenceSum(db, e.id) >= cfg.sourceCandidateThreshold then SOURCE_CANDIDATE else e.status)
    ensures r.trusted == e.trusted
    ensures r.status == SOURCE_CANDIDATE ==>
      r.tOccurrences == Some(EvidenceSum(db, e.id))
      && r.tSourceReferences == Some(References(db, VisitedEdges(db.edges, Evidence(db, e.id))))
    ensures r.status != SOURCE_CANDIDATE ==> r.tOccurrences == e.tOccurrences && r.tSourceReferences == e.tSourceReferences
    ensures r == e.(status := r.status, tOccurrences := r.tOccurrences, tSourceReferences := r.tSourceReferences)
  {
    var status := if e.status == ENTITY && EvidenceSum(db, e.id) >= cfg.sourceCandidateThreshold then SOURCE_CANDIDATE else e.status;
    var flagged := e.(status := status);
    if status == SOURCE_CANDIDATE then Enriched(db, flagged) else flagged
  }

  /** The three passes as written do to each entity what `TaggedEntityAsWritten` says. */
  lemma TaggingAsWrittenOutcome(db: Db, cfg: Config, x: EntityId)
    requires KeysMatch(db.entities) && AllListed(db) && x in db.entities
    ensures TaggingAsWritten(db, cfg).entities[x] == TaggedEntityAsWritten(db, cfg, db.entities[x])
  {
    var db1 := UpdateEach(db, cfg, FlagCandidate, Select(db.entities, db.rows, StatusIs(ENTITY)));
    FlagPassOutcome(db, cfg, x);
    PassPointwise(db, cfg, FlagCandidate, StatusIs(ENTITY), x);
    AsWrittenTrustQueryEmpty(db1.entities, db1.rows);
    UpdateEachKeepsBasis(db, cfg, FlagCandidate, Select(db.entities, db.rows, StatusIs(ENTITY)));
    EnrichPassOutcome(db, db1, cfg, x);
    assert db.entities[x].id == x;
  }

  /** An untrusted entity with enough evidence: as written it stays untrusted, as intended it becomes trusted. */
  lemma TrustQueryDiscrepancy(db: Db, cfg: Config, x: EntityId)
    requires KeysMatch(db.entities) && AllListed(db) && x in db.entities
    requires !db.entities[x].trusted && TrustEvidence(db, cfg, x)
    ensures !TaggingAsWritten(db, cfg).entities[x].trusted
    ensures TaggingSpec(db, cfg).entities[x].trusted
  {
    AsWrittenNeverTrusts(db, cfg, x);
    TaggingOutcome(db, cfg, x);
  }

  /* ---- the methods ---- */

  /** The body of the `for e in entities` loop; an id no longer in the store is skipped. */
  method ApplyOne(s: Session, cfg: Config, u: Update, id: EntityId)
    requires KeysMatch(s.entities)
    modifies s
    ensures KeysMatch(s.entities)
    ensures s.State() == UpdateEach(old(s.State()), cfg, u, [id])
  {
    ghost var d := s.State();
    assert UpdateEach(d, cfg, u, [id]) == if id in d.entities then WithEntity(d, Apply(u, cfg, d, d.entities[id])) else d by {
      assert [id][..0] == [];
    }
    if id in s.entities {
      match u
      case FlagCandidate => s.FlagSourceCandidate(cfg, id);
      case FlagTrust => s.FlagTrustedCandidate(cfg, id);
      case Enrich => s.EnrichSource(id);
    }
  }

  /** Folding over `ids + [id]` is folding over `ids`, then over `[id]`. */
  lemma UpdateEachSnoc(db: Db, cfg: Config, u: Update, ids: seq<EntityId>, id: EntityId)
    requires KeysMatch(db.entities)
    ensures UpdateEach(db, cfg, u, ids + [id]) == UpdateEach(UpdateEach(db, cfg, u, ids), cfg, u, [id])
  {
    assert (ids + [id])[..|ids|] == ids;
    assert [id][..0] == [];
  }

  /** The `for e in entities` loop over the selected ids. */
  method UpdateAll(s: Session, cfg: Config, u: Update, ids: seq<EntityId>)
    requires KeysMatch(s.entities)
    modifies s
    ensures KeysMatch(s.entities)
    ensures s.State() == UpdateEach(old(s.State()), cfg, u, ids)
  {
    ghost var db0 := s.State();
    for i := 0 to |ids|
      invariant KeysMatch(s.entities)
      invariant s.State() == UpdateEach(db0, cfg, u, ids[..i])
    {
      UpdateEachSnoc(db0, cfg, u, ids[..i], ids[i]);
      assert ids[..i] + [ids[i]] == ids[..i + 1];
      ApplyOne(s, cfg, u, ids[i]);
    }
    assert ids[..|ids|] == ids;
  }

  /** One pass: run the query, then the update on each selected entity. */
  method UpdateSelected(s: Session, cfg: Config, u: Update, f: Filter)
    requires KeysMatch(s.entities)
    modifies s
    ensures KeysMatch(s.entities)
    ensures s.State() == UpdateEach(old(s.State()), cfg, u, Select(old(s.entities), old(s.rows), f))
  {
    var ids := Query(s, f);
    UpdateAll(s, cfg, u, ids);
  }

  /** `main` as written: flag source candidates, then the trusted candidates its query selects, then enrich the candidates. */
  method RunTagging(s: Session, cfg: Config)
    requires KeysMatch(s.entities)
    modifies s
    ensures s.State() == TaggingAsWritten(old(s.State()), cfg)
  {
    RunTaggingWith(s, cfg, TrustedCandidateAsWritten);
  }

  /** `main` as intended, with the trusted-candidate query selecting the untrusted entities. */
  method RunTaggingAsIntended(s: Session, cfg: Config)
    requires KeysMatch(s.entities)
    modifies s
    ensures s.State() == TaggingSpec(old(s.State()), cfg)
  {
    RunTaggingWith(s, cfg, TrustedCandidate);
  }

  /** The three passes of `main`, with `trust` selecting the entities of the second. */
  method RunTaggingWith(s: Session, cfg: Config, trust: Filter)
    requires KeysMatch(s.entities)
    modifies s
    ensures s.State() == TaggingWith(old(s.State()), cfg, trust)
  {
    UpdateSelected(s, cfg, FlagCandidate, StatusIs(ENTITY));
    UpdateSelected(s, cfg, FlagTrust, trust);
    UpdateSelected(s, cfg, Enrich, StatusIs(SOURCE_CANDIDATE));
  }
}

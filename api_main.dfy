// The endpoint rules of the admin API (api/main.py) that are more than
// routing: the Swagger basic-auth check, the spreadsheet filename guard,
// the company listing, the reply of the merge endpoint, and the batch that
// fetches the location of unlocated Twitter origins.
module ApiMain {
  import opened Wrappers
  import opened PyStrings
  import opened Orm
  import opened ApiUtils

  /* ---- check_basic_auth ---- */

  datatype Credentials = Credentials(username: string, password: string)

  const INCORRECT_CREDENTIALS := "Incorrect credentials"

  /** Basic auth protects Swagger only when both variables are set and non-empty. */
  predicate BasicAuthConfigured(username: Option<string>, password: Option<string>)
  {
    username.Some? && username.value != "" && password.Some? && password.value != ""
  }

  /** Every character is ASCII. */
  predicate IsAscii(s: string)
  {
    forall k :: 0 <= k < |s| ==> s[k] <= '\U{7F}'
  }

  /**
   * `secrets.compare_digest(a, b)` on two `str`: a TypeError (None here)
   * unless both are ASCII, and otherwise whether they are equal.
   */
  function CompareDigest(a: string, b: string): (r: Option<bool>)
    ensures r.None? <==> !(IsAscii(a) && IsAscii(b))
    ensures r.Some? ==> (r.value <==> a == b)
  {
    if IsAscii(a) && IsAscii(b) then Some(a == b) else None
  }

  /** The reply the server gives when an endpoint raises something other than an `HTTPException`. */
  const INTERNAL_SERVER_ERROR := "Internal Server Error"

  /**
   * `check_basic_auth(credentials)`: passes when basic auth is not
   * configured; otherwise a 401 unless both the user name and the password
   * equal the configured ones, and a 500 when `compare_digest` raises on a
   * non-ASCII value.
   */
  function CheckBasicAuth(username: Option<string>, password: Option<string>, credentials: Credentials): (r: Option<HttpException>)
    ensures r.None? <==> (!BasicAuthConfigured(username, password) ||
      (AllAscii(username, password, credentials) &&
       credentials.username == username.value && credentials.password == password.value))
    ensures r.Some? ==> BasicAuthConfigured(username, password)
    ensures r.Some? && AllAscii(username, password, credentials) ==> r.value == HttpException(401, Text(INCORRECT_CREDENTIALS))
    ensures r.Some? && !AllAscii(username, password, credentials) ==> r.value == HttpException(500, Text(INTERNAL_SERVER_ERROR))
  {
    if !BasicAuthConfigured(username, password) then None
    else
      match CompareDigest(credentials.username, username.value)
      case None => Some(HttpException(500, Text(INTERNAL_SERVER_ERROR)))
      case Some(correctUsername) =>
        match CompareDigest(credentials.password, password.value)
        case None => Some(HttpException(500, Text(INTERNAL_SERVER_ERROR)))
        case Some(correctPassword) =>
          if !correctUsername || !correctPassword then Some(HttpException(401, Text(INCORRECT_CREDENTIALS)))
          else None
  }

  /** The four values `check_basic_auth` hands to `compare_digest` are all ASCII. */
  predicate AllAscii(username: Option<string>, password: Option<string>, credentials: Credentials)
    requires BasicAuthConfigured(username, password)
  {
    IsAscii(credentials.username) && IsAscii(username.value) && IsAscii(credentials.password) && IsAscii(password.value)
  }

  /** Only the configured pair opens Swagger once basic auth is set: a wrong password is refused whatever the user name. */
  lemma WrongPasswordRefused(username: string, password: string, credentials: Credentials)
    requires username != "" && password != "" && credentials.password != password
    ensures CheckBasicAuth(Some(username), Some(password), credentials).Some?
  {
  }

  /** A configured password with a non-ASCII character makes every request fail with a 500. */
  lemma NonAsciiPasswordAlwaysFails(username: string, password: string, credentials: Credentials, k: nat)
    requires username != "" && k < |password| && password[k] > '\U{7F}'
    ensures CheckBasicAuth(Some(username), Some(password), credentials) == Some(HttpException(500, Text(INTERNAL_SERVER_ERROR)))
  {
    assert !IsAscii(password);
  }

  /* ---- the .xlsx filename guard ---- */

  const EXPECTING_XLSX := "Expecting an xlsx file."

  /** `if not file.filename.endswith(".xlsx")`: a 400 for any other file name. */
  function XlsxGuard(filename: string): (r: Option<HttpException>)
    ensures r.None? <==> EndsWith(filename, ".xlsx")
    ensures r.Some? ==> r.value == HttpException(400, Text(EXPECTING_XLSX))
  {
    if EndsWith(filename, ".xlsx") then None else Some(HttpException(400, Text(EXPECTING_XLSX)))
  }

  /** The test is on the exact lower-case suffix: an old `.xls` sheet and an upper-case `.XLSX` name are refused. */
  lemma XlsxGuardIsExact()
    ensures XlsxGuard("companies.xlsx").None?
    ensures XlsxGuard("companies.xls").Some?
    ensures XlsxGuard("companies.XLSX").Some?
  {
    assert "companies.xls"[|"companies.xls"| - 5..] != ".xlsx";
    assert "companies.XLSX"[|"companies.XLSX"| - 5..] != ".xlsx";
  }

  /* ---- get_companies_wrapped ---- */

  /** One row of the outer join of the companies with their synonyms. */
  datatype JoinedRow = JoinedRow(company: string, synonym: Option<string>)

  datatype CompanyDto = CompanyDto(name: string, synonyms: seq<string>)

  function CompanyColumn(joined: seq<JoinedRow>): (r: seq<string>)
    ensures |r| == |joined| && forall i :: 0 <= i < |joined| ==> r[i] == joined[i].company
  {
    seq(|joined|, i requires 0 <= i < |joined| => joined[i].company)
  }

  /** The non-null synonyms the join lists for `company`, in row order. */
  function SynonymsFor(joined: seq<JoinedRow>, company: string): (r: seq<string>)
    decreases |joined|
  {
    if joined == [] then []
    else
      var last := joined[|joined| - 1];
      SynonymsFor(joined[..|joined| - 1], company) +
        (if last.company == company && last.synonym.Some? then [last.synonym.value] else [])
  }

  /** A synonym is listed under a company exactly when some joined row pairs them. */
  lemma {:induction false} SynonymsForMembers(joined: seq<JoinedRow>, company: string)
    ensures forall s :: s in SynonymsFor(joined, company) <==> JoinedRow(company, Some(s)) in joined
    decreases |joined|
  {
    if joined != [] {
      SynonymsForMembers(joined[..|joined| - 1], company);
      assert forall x :: x in joined <==> x in joined[..|joined| - 1] || x == joined[|joined| - 1];
    }
  }

  /**
   * What `get_companies_wrapped` returns: one DTO per distinct company, in
   * order of first appearance, each with its non-null synonyms in row order.
   */
  function CompanyDtos(joined: seq<JoinedRow>): (r: seq<CompanyDto>)
    ensures |r| == |Unique(CompanyColumn(joined))|
    ensures forall c :: (exists i :: 0 <= i < |r| && r[i].name == c) <==> c in CompanyColumn(joined)
    ensures forall i, j :: 0 <= i < j < |r| ==> r[i].name != r[j].name
    ensures forall i :: 0 <= i < |r| ==> r[i].synonyms == SynonymsFor(joined, r[i].name)
  {
    var names := Unique(CompanyColumn(joined));
    var r := seq(|names|, i requires 0 <= i < |names| => CompanyDto(names[i], SynonymsFor(joined, names[i])));
    assert forall c :: (exists i :: 0 <= i < |r| && r[i].name == c) <==> c in names by {
      forall c | c in names ensures exists i :: 0 <= i < |r| && r[i].name == c {
        var i :| 0 <= i < |names| && names[i] == c;
        assert r[i].name == c;
      }
    }
    r
  }

  lemma UniqueSnoc(xs: seq<string>, x: string)
    ensures Unique(xs + [x]) == if x in Unique(xs) then Unique(xs) else Unique(xs) + [x]
  {
    assert (xs + [x])[..|xs|] == xs;
  }

  lemma SynonymsForSnoc(joined: seq<JoinedRow>, row: JoinedRow, company: string)
    ensures SynonymsFor(joined + [row], company) ==
      SynonymsFor(joined, company) + (if row.company == company && row.synonym.Some? then [row.synonym.value] else [])
  {
    assert (joined + [row])[..|joined|] == joined;
  }

  /** What the dictionary holds after the loop has read `joined`: a key per company, in insertion order. */
  ghost predicate DictHolds(joined: seq<JoinedRow>, companies: map<string, CompanyDto>, order: seq<string>)
  {
    && order == Unique(CompanyColumn(joined))
    && (forall c :: c in companies <==> c in order)
    && (forall c :: c in companies ==> companies[c] == CompanyDto(c, SynonymsFor(joined, c)))
  }

  /** The dictionary after one more joined row. */
  function DictAdd(companies: map<string, CompanyDto>, row: JoinedRow): map<string, CompanyDto>
  {
    if row.company !in companies then
      companies[row.company := CompanyDto(row.company, if row.synonym.Some? then [row.synonym.value] else [])]
    else if row.synonym.Some? then
      companies[row.company := companies[row.company].(synonyms := companies[row.company].synonyms + [row.synonym.value])]
    else companies
  }

  lemma DictKeyStep(joined: seq<JoinedRow>, row: JoinedRow, companies: map<string, CompanyDto>, c: string)
    requires c in companies ==> companies[c] == CompanyDto(c, SynonymsFor(joined, c))
    requires c !in companies ==> c !in CompanyColumn(joined)
    requires c in DictAdd(companies, row)
    ensures DictAdd(companies, row)[c] == CompanyDto(c, SynonymsFor(joined + [row], c))
  {
    SynonymsForSnoc(joined, row, c);
    if c !in companies {
      SynonymsForUnlisted(joined, c);
    }
  }

  /** A company absent from the join has no synonyms. */
  lemma {:induction false} SynonymsForUnlisted(joined: seq<JoinedRow>, c: string)
    requires c !in CompanyColumn(joined)
    ensures SynonymsFor(joined, c) == []
    decreases |joined|
  {
    if joined != [] {
      var init := joined[..|joined| - 1];
      assert CompanyColumn(joined) == CompanyColumn(init) + [joined[|joined| - 1].company];
      SynonymsForUnlisted(init, c);
    }
  }

  lemma DictStep(joined: seq<JoinedRow>, row: JoinedRow, companies: map<string, CompanyDto>, order: seq<string>)
    requires DictHolds(joined, companies, order)
    ensures DictHolds(joined + [row], DictAdd(companies, row),
      if row.company in companies then order else order + [row.company])
  {
    assert CompanyColumn(joined + [row]) == CompanyColumn(joined) + [row.company];
    OrderStep(CompanyColumn(joined), row.company, companies, order);
    DictMembersStep(companies, row, order);
    var next := DictAdd(companies, row);
    forall c | c in next ensures next[c] == CompanyDto(c, SynonymsFor(joined + [row], c)) {
      DictKeyStep(joined, row, companies, c);
    }
    DictHoldsIntro(joined + [row], next, if row.company in companies then order else order + [row.company]);
  }

  lemma DictHoldsIntro(joined: seq<JoinedRow>, companies: map<string, CompanyDto>, order: seq<string>)
    requires order == Unique(CompanyColumn(joined))
    requires forall c :: c in companies <==> c in order
    requires forall c :: c in companies ==> companies[c] == CompanyDto(c, SynonymsFor(joined, c))
    ensures DictHolds(joined, companies, order)
  {
  }

  lemma OrderStep(col: seq<string>, x: string, companies: map<string, CompanyDto>, order: seq<string>)
    requires order == Unique(col) && forall c :: c in companies <==> c in order
    ensures (if x in companies then order else order + [x]) == Unique(col + [x])
  {
    UniqueSnoc(col, x);
  }

  lemma DictMembersStep(companies: map<string, CompanyDto>, row: JoinedRow, order: seq<string>)
    requires forall c :: c in companies <==> c in order
    ensures var next := if row.company in companies then order else order + [row.company];
      forall c :: c in DictAdd(companies, row) <==> c in next
  {
  }

  /** The dictionary loop of `get_companies_wrapped`. */
  method CompaniesDict(joined: seq<JoinedRow>) returns (companies: map<string, CompanyDto>, order: seq<string>)
    ensures DictHolds(joined, companies, order)
  {
    companies := map[];
    order := [];
    for i := 0 to |joined|
      invariant DictHolds(joined[..i], companies, order)
    {
      var row := joined[i];
      assert joined[..i + 1] == joined[..i] + [row];
      DictStep(joined[..i], row, companies, order);
      if row.company !in companies {
        companies := companies[row.company := CompanyDto(row.company, [])];
        order := order + [row.company];
        if row.synonym.Some? {
          companies := companies[row.company := CompanyDto(row.company, [row.synonym.value])];
        }
      } else if row.synonym.Some? {
        var dto := companies[row.company];
        companies := companies[row.company := dto.(synonyms := dto.synonyms + [row.synonym.value])];
      }
    }
    assert joined[..|joined|] == joined;
  }

  /** `get_companies_wrapped()`: the dictionary, then its values in key order. */
  method GetCompaniesWrapped(joined: seq<JoinedRow>) returns (dtos: seq<CompanyDto>)
    ensures dtos == CompanyDtos(joined)
  {
    var companies, order := CompaniesDict(joined);
    dtos := [];
    for k := 0 to |order|
      invariant |dtos| == k
      invariant forall j :: 0 <= j < k ==> dtos[j] == CompanyDto(order[j], SynonymsFor(joined, order[j]))
    {
      assert order[k] in order;
      dtos := dtos + [companies[order[k]]];
    }
  }

  /** A company joined with no synonym is listed with an empty list, not with a null entry. */
  lemma CompanyWithoutSynonyms(c: string)
    ensures CompanyDtos([JoinedRow(c, None)]) == [CompanyDto(c, [])]
  {
    assert CompanyColumn([JoinedRow(c, None)]) == [c];
    assert Unique([c]) == [c] by {
      assert [c][..0] == [];
    }
    assert SynonymsFor([JoinedRow(c, None)], c) == [] by {
      assert [JoinedRow(c, None)][..0] == [];
    }
  }

  /* ---- merge_two_entities ---- */

  datatype MergeReply = Merged(message: string) | Refused(error: HttpException)

  /**
   * The endpoint's handling of `merge_entities`' result: a success is
   * committed and returns the message; a refusal is a 409 carrying the
   * message, without a commit.
   */
  function MergeReplyOf(outcome: MergeOutcome): (r: (MergeReply, bool))
    ensures r.1 <==> outcome.ok
    ensures r.0.Merged? <==> outcome.ok
    ensures r.0.Merged? ==> r.0.message == outcome.message
    ensures r.0.Refused? ==> r.0.error == HttpException(409, ErrorMessage(outcome.message))
  {
    if outcome.ok then (Merged(outcome.message), true)
    else (Refused(HttpException(409, ErrorMessage(outcome.message))), false)
  }

  /** A refused merge answers 409, commits nothing and leaves the store as it was. */
  lemma RefusedMergeChangesNothing(db: Db, cfg: Config, id1: EntityId, id2: EntityId, comment: string)
    requires KeysMatch(db.entities) && !MergeSpec(db, cfg, id1, id2, comment).ok
    ensures var out := MergeSpec(db, cfg, id1, id2, comment);
      && out.db == db
      && MergeReplyOf(out).0.Refused? && MergeReplyOf(out).0.error.statusCode == 409
      && !MergeReplyOf(out).1
  {
    MergeRefusedWritesNothing(db, cfg, id1, id2, comment);
  }

  /** `merge_two_entities(id1, id2, comment)`; `committed` says whether the session is committed. */
  method MergeTwoEntities(s: Session, cfg: Config, id1: EntityId, id2: EntityId, comment: string)
      returns (reply: MergeReply, committed: bool)
    requires KeysMatch(s.entities)
    modifies s
    ensures var out := MergeSpec(old(s.State()), cfg, id1, id2, comment);
      s.State() == out.db && (reply, committed) == MergeReplyOf(out)
  {
    var ok, message := s.MergeEntities(cfg, id1, id2, comment);
    if !ok {
      reply, committed := Refused(HttpException(409, ErrorMessage(message))), false;
    } else {
      reply, committed := Merged(message), true;
    }
  }

  /* ---- get_twitter_location ---- */

  /** The per-call cap of user lookups (the Twitter rate limit is 300 per 15 minutes). */
  const LOOKUP_LIMIT := 200

  /** `TwitterOrigin.location == None`. */
  predicate Unlocated(o: Origin)
  {
    o.detail.TwitterOrigin? && o.detail.location.None?
  }

  /** The positions the query returns, in table order. */
  function UnlocatedPositions(os: seq<Origin>): (r: seq<nat>)
    ensures forall p: nat :: p in r <==> p < |os| && Unlocated(os[p])
    ensures forall i, j :: 0 <= i < j < |r| ==> r[i] < r[j]
    ensures forall i :: 0 <= i < |r| ==> r[i] < |os|
    decreases |os|
  {
    if os == [] then []
    else
      var rest := UnlocatedPositions(os[..|os| - 1]);
      if Unlocated(os[|os| - 1]) then rest + [|os| - 1] else rest
  }

  /** `origins_unlocated[:200]`. */
  function Handled(os: seq<Origin>): (r: seq<nat>)
    ensures |r| == Min(|UnlocatedPositions(os)|, LOOKUP_LIMIT)
    ensures r <= UnlocatedPositions(os)
  {
    var ps := UnlocatedPositions(os);
    if |ps| <= LOOKUP_LIMIT then ps else ps[..LOOKUP_LIMIT]
  }

  function Min(a: nat, b: nat): nat
  {
    if a <= b then a else b
  }

  /** One lookup: a returned location is stored; a missing url marks the extraction invalid. */
  function Located(o: Origin, info: TwitterInfo): (r: Origin)
    requires o.detail.TwitterOrigin?
    ensures r.id == o.id && r.entity == o.entity && r.occurrences == o.occurrences
    ensures r.detail.TwitterOrigin? && r.detail.screenName == o.detail.screenName && r.detail.profile == o.detail.profile
    ensures r.detail.location == if info.location.Some? then info.location else o.detail.location
    ensures r.validExtraction == (info.url.Some? && o.validExtraction)
  {
    var o1 := if info.location.Some? then o.(detail := o.detail.(location := info.location)) else o;
    if info.url.None? then o1.(validExtraction := false) else o1
  }

  /** The screen names of the handled origins whose lookup found no url, in order. */
  function Failed(os: seq<Origin>, handled: seq<nat>, lookup: string -> TwitterInfo): (r: seq<string>)
    requires forall i :: 0 <= i < |handled| ==> handled[i] < |os| && os[handled[i]].detail.TwitterOrigin?
    ensures |r| <= |handled|
    decreases |handled|
  {
    if handled == [] then []
    else
      var last := os[handled[|handled| - 1]];
      Failed(os, handled[..|handled| - 1], lookup) + (if lookup(last.detail.screenName).url.None? then [last.detail.screenName] else [])
  }

  datatype LocationReport = LocationReport(updated: nat, left: nat, nbDeletedOrSuspended: nat, deletedOrSuspended: seq<string>)

  function LocatedOrigins(os: seq<Origin>, handled: seq<nat>, lookup: string -> TwitterInfo): (r: seq<Origin>)
    requires forall i :: 0 <= i < |handled| ==> handled[i] < |os| && os[handled[i]].detail.TwitterOrigin?
    ensures |r| == |os|
  {
    seq(|os|, k requires 0 <= k < |os| =>
      if k in handled then Located(os[k], lookup(os[k].detail.screenName)) else os[k])
  }

  /**
   * `get_twitter_location()`: the first 200 unlocated Twitter origins are
   * looked up; the report counts them, the unlocated ones left for a later
   * call, and the accounts that failed.
   */
  function TwitterLocationSpec(db: Db, lookup: string -> TwitterInfo): (r: (Db, LocationReport))
    ensures r.1.updated == Min(|UnlocatedPositions(db.origins)|, LOOKUP_LIMIT)
    ensures r.1.updated + r.1.left == |UnlocatedPositions(db.origins)|
    ensures r.1.nbDeletedOrSuspended == |r.1.deletedOrSuspended| <= r.1.updated
    ensures r.0 == db.(origins := r.0.origins) && |r.0.origins| == |db.origins|
  {
    var h := Handled(db.origins);
    var n := |UnlocatedPositions(db.origins)|;
    var failed := Failed(db.origins, h, lookup);
    (db.(origins := LocatedOrigins(db.origins, h, lookup)),
     LocationReport(Min(n, LOOKUP_LIMIT), n - Min(n, LOOKUP_LIMIT), |failed|, failed))
  }

  /**
   * Only the handled origins change. Each keeps its id, owner and name; its
   * location is overwritten only by a returned one; it is marked invalid
   * exactly when its lookup finds no url. An origin beyond the first 200 is
   * left for a later call.
   */
  lemma TwitterLocationRules(db: Db, lookup: string -> TwitterInfo, k: nat)
    requires k < |db.origins|
    ensures var os := TwitterLocationSpec(db, lookup).0.origins; var o := db.origins[k];
      && (k !in Handled(db.origins) ==> os[k] == o)
      && (k in Handled(db.origins) ==>
            var info := lookup(o.detail.screenName);
            && os[k].detail.location == (if info.location.Some? then info.location else None)
            && (os[k].validExtraction <==> info.url.Some? && o.validExtraction)
            && os[k].id == o.id && os[k].entity == o.entity)
  {
  }

  /** When there are more than 200 unlocated origins, exactly 200 are handled and the rest is reported as left. */
  lemma TwitterLocationCap(db: Db, lookup: string -> TwitterInfo)
    requires |UnlocatedPositions(db.origins)| > LOOKUP_LIMIT
    ensures TwitterLocationSpec(db, lookup).1.updated == 200
    ensures TwitterLocationSpec(db, lookup).1.left == |UnlocatedPositions(db.origins)| - 200
  {
  }

  lemma {:induction false} FailedSnoc(os: seq<Origin>, handled: seq<nat>, p: nat, lookup: string -> TwitterInfo)
    requires forall i :: 0 <= i < |handled| ==> handled[i] < |os| && os[handled[i]].detail.TwitterOrigin?
    requires p < |os| && os[p].detail.TwitterOrigin?
    ensures Failed(os, handled + [p], lookup) ==
      Failed(os, handled, lookup) + (if lookup(os[p].detail.screenName).url.None? then [os[p].detail.screenName] else [])
  {
    assert (handled + [p])[..|handled|] == handled;
  }

  /** Needed by GetTwitterLocation: looking up one more, not yet handled, position changes that origin only. */
  lemma LocatedOriginsSnoc(os: seq<Origin>, handled: seq<nat>, p: nat, lookup: string -> TwitterInfo)
    requires forall i :: 0 <= i < |handled| ==> handled[i] < |os| && os[handled[i]].detail.TwitterOrigin?
    requires p < |os| && os[p].detail.TwitterOrigin? && p !in handled
    ensures LocatedOrigins(os, handled + [p], lookup) ==
      LocatedOrigins(os, handled, lookup)[p := Located(os[p], lookup(os[p].detail.screenName))]
    ensures LocatedOrigins(os, handled, lookup)[p] == os[p]
  {
  }

  /** The handled positions are increasing positions of Twitter origins. */
  lemma HandledPositions(os: seq<Origin>)
    ensures var h := Handled(os);
      && (forall i :: 0 <= i < |h| ==> h[i] < |os| && os[h[i]].detail.TwitterOrigin?)
      && (forall i, j :: 0 <= i < j < |h| ==> h[i] < h[j])
  {
    var h := Handled(os);
    assert forall i :: 0 <= i < |h| ==> h[i] == UnlocatedPositions(os)[i];
  }

  /** The loop of `get_twitter_location` over the handled origins. */
  method LocateHandled(s: Session, h: seq<nat>, lookup: string -> TwitterInfo) returns (failed: seq<string>)
    requires forall i :: 0 <= i < |h| ==> h[i] < |s.origins| && s.origins[h[i]].detail.TwitterOrigin?
    requires forall i, j :: 0 <= i < j < |h| ==> h[i] < h[j]
    modifies s
    ensures s.State() == old(s.State()).(origins := LocatedOrigins(old(s.origins), h, lookup))
    ensures failed == Failed(old(s.origins), h, lookup)
  {
    ghost var os := s.origins;
    failed := [];
    for j := 0 to |h|
      invariant s.State() == old(s.State()).(origins := s.origins)
      invariant s.origins == LocatedOrigins(os, h[..j], lookup)
      invariant failed == Failed(os, h[..j], lookup)
    {
      var k := h[j];
      assert h[..j + 1] == h[..j] + [k];
      assert k !in h[..j];
      FailedSnoc(os, h[..j], k, lookup);
      LocatedOriginsSnoc(os, h[..j], k, lookup);
      var o := s.origins[k];
      var info := lookup(o.detail.screenName);
      if info.location.Some? {
        o := o.(detail := o.detail.(location := info.location));
      }
      if info.url.None? {
        o := o.(validExtraction := false);
        failed := failed + [o.detail.screenName];
      }
      s.origins := s.origins[k := o];
    }
    assert h[..|h|] == h;
  }

  method GetTwitterLocation(s: Session, lookup: string -> TwitterInfo) returns (report: LocationReport)
    modifies s
    ensures (s.State(), report) == TwitterLocationSpec(old(s.State()), lookup)
  {
    var unlocated := UnlocatedPositions(s.origins);
    var h := Handled(s.origins);
    HandledPositions(s.origins);
    var failed := LocateHandled(s, h, lookup);
    var n := |unlocated|;
    report := LocationReport(Min(n, LOOKUP_LIMIT), n - Min(n, LOOKUP_LIMIT), |failed|, failed);
  }
}

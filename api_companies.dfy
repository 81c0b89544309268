// The company import of the admin API (api/companies.py). An uploaded sheet
// lists company names and their comma-separated synonyms. It is refused when
// a name, a synonym cell, or a value across the two columns repeats; the
// companies no analysis refers to are deleted; each row then creates its
// company or replaces the synonyms of the existing one; and the sheet's
// markers are summed up into the figures the endpoint returns.
module ApiCompanies {
  import opened Wrappers
  import opened PyStrings
  import opened Orm
  import opened ApiUtils

  const COMPANY_NAME_COLUMN := "Company_Name"
  const SYNONYM_COLUMN := "Synonyms"

  /* ---- clean_company_value ---- */

  predicate Opening(c: char) { c == '(' || c == '[' }

  predicate Closing(c: char) { c == ')' || c == ']' }

  /**
   * The first index j >= 1 with a closing bracket at t[j] and no newline
   * strictly between 0 and j: where the lazy `.*?` of `[\(\[].*?[\)\]]` stops.
   */
  function BracketClose(t: string): (r: Option<nat>)
    requires |t| >= 1
    ensures r.Some? ==> 1 <= r.value < |t| && Closing(t[r.value])
    decreases |t|
  {
    if |t| == 1 then None
    else if Closing(t[1]) then Some(1)
    else if t[1] == '\n' then None
    else
      match BracketClose(t[1..])
      case None => None
      case Some(j) => Some(j + 1)
  }

  /**
   * `re.sub("[\(\[].*?[\)\]]", "", s)`: scanning left to right, an opening
   * bracket up to the nearest closing bracket on the same line is removed;
   * any other character is kept.
   */
  function RemoveBracketed(s: string): (r: string)
    ensures forall c :: c in r ==> c in s
    decreases |s|
  {
    if s == [] then []
    else if Opening(s[0]) && BracketClose(s).Some? then
      var r := RemoveBracketed(s[BracketClose(s).value + 1..]);
      assert forall c :: c in s[BracketClose(s).value + 1..] ==> c in s;
      r
    else
      var r := RemoveBracketed(s[1..]);
      assert forall c :: c in s[1..] ==> c in s;
      [s[0]] + r
  }

  /** The match that starts at an opening bracket ends at the first closing bracket after it. */
  lemma {:induction false} BracketCloseFirst(o: char, m: string, c: char, q: string)
    requires Closing(c)
    requires forall k :: 0 <= k < |m| ==> !Closing(m[k]) && m[k] != '\n'
    ensures BracketClose([o] + m + [c] + q) == Some(|m| + 1)
    decreases |m|
  {
    var t := [o] + m + [c] + q;
    if m == [] {
      assert t[1] == c;
    } else {
      assert t[1] == m[0];
      assert t[1..] == [m[0]] + m[1..] + [c] + q;
      BracketCloseFirst(m[0], m[1..], c, q);
    }
  }

  /** A text with no opening bracket is left as it is. */
  lemma {:induction false} RemoveBracketedPlain(s: string)
    requires forall k :: 0 <= k < |s| ==> !Opening(s[k])
    ensures RemoveBracketed(s) == s
    decreases |s|
  {
    if s != [] {
      RemoveBracketedPlain(s[1..]);
    }
  }

  /**
   * The shortest bracketed span after a bracket-free prefix is cut out, and
   * the scan goes on after it.
   */
  lemma {:induction false} RemoveBracketedSpan(p: string, o: char, m: string, c: char, q: string)
    requires forall k :: 0 <= k < |p| ==> !Opening(p[k])
    requires Opening(o) && Closing(c)
    requires forall k :: 0 <= k < |m| ==> !Closing(m[k]) && m[k] != '\n'
    ensures RemoveBracketed(p + [o] + m + [c] + q) == p + RemoveBracketed(q)
    decreases |p|
  {
    var s := p + [o] + m + [c] + q;
    if p == [] {
      assert s == [o] + m + [c] + q;
      BracketCloseFirst(o, m, c, q);
      assert s[|m| + 2..] == q;
    } else {
      assert s[0] == p[0];
      assert s[1..] == p[1..] + [o] + m + [c] + q;
      RemoveBracketedSpan(p[1..], o, m, c, q);
    }
  }

  /**
   * `clean_company_value(comp)`: bracketed spans removed, surrounding
   * whitespace stripped, and every '/' turned into ',' (so that it separates
   * synonyms). The result holds no '/', does not start or end with
   * whitespace, and every character comes from the input or is a ','.
   */
  function CleanCompanyValue(comp: string): (r: string)
    ensures '/' !in r
    ensures r == [] || (!IsSpace(r[0]) && !IsSpace(r[|r| - 1]))
    ensures forall c :: c in r ==> c in comp || c == ','
  {
    var t := Strip(RemoveBracketed(comp));
    StripKeepsChars(RemoveBracketed(comp));
    SlashToComma(t);
    Replace(t, "/", ",")
  }

  lemma StripKeepsChars(s: string)
    ensures forall c :: c in Strip(s) ==> c in s
  {
    var l := LStrip(s);
    assert forall c :: c in l ==> c in s;
    assert forall c :: c in RStrip(l) ==> c in l;
  }

  /** `t.replace("/", ",")`, character by character. */
  lemma SlashToComma(t: string)
    ensures var r := Replace(t, "/", ",");
      && '/' !in r
      && (t == [] || (!IsSpace(t[0]) && !IsSpace(t[|t| - 1])) ==> r == [] || (!IsSpace(r[0]) && !IsSpace(r[|r| - 1])))
      && forall c :: c in r ==> c in t || c == ','
  {
    ReplaceChar(t, '/', ',');
    var r := MapChar(t, '/', ',');
    forall c | c in r ensures c != '/' && (c in t || c == ',') {
      var i :| 0 <= i < |r| && r[i] == c;
      assert c == (if t[i] == '/' then ',' else t[i]);
    }
  }

  /** A name with no bracket, no '/' and no surrounding whitespace is already clean. */
  lemma CleanCompanyValuePlain(comp: string)
    requires forall k :: 0 <= k < |comp| ==> !Opening(comp[k]) && comp[k] != '/'
    requires comp == [] || (!IsSpace(comp[0]) && !IsSpace(comp[|comp| - 1]))
    ensures CleanCompanyValue(comp) == comp
  {
    RemoveBracketedPlain(comp);
    assert Strip(comp) == comp;
    ReplaceChar(comp, '/', ',');
    assert MapChar(comp, '/', ',') == comp;
  }

  /* ---- the sheet ---- */

  /** One row of the companies sheet: the name cell and the synonyms cell. */
  datatype CompanyRow = CompanyRow(name: Cell, synonyms: Cell)

  function Names(rows: seq<CompanyRow>): (r: seq<Cell>)
    ensures |r| == |rows| && forall i :: 0 <= i < |rows| ==> r[i] == rows[i].name
  {
    seq(|rows|, i requires 0 <= i < |rows| => rows[i].name)
  }

  function SynonymCells(rows: seq<CompanyRow>): (r: seq<Cell>)
    ensures |r| == |rows| && forall i :: 0 <= i < |rows| ==> r[i] == rows[i].synonyms
  {
    seq(|rows|, i requires 0 <= i < |rows| => rows[i].synonyms)
  }

  function Pieces(ps: seq<string>): (r: seq<Cell>)
    ensures |r| == |ps| && forall i :: 0 <= i < |ps| ==> r[i] == Some(ps[i])
  {
    seq(|ps|, i requires 0 <= i < |ps| => Some(ps[i]))
  }

  /** The comma-split pieces of every present synonyms cell, in row order. */
  function SplitSynonyms(rows: seq<CompanyRow>): (r: seq<Cell>)
    ensures forall v :: v in r ==> v.Some?
    decreases |rows|
  {
    if rows == [] then []
    else
      (if rows[0].synonyms.Some? then Pieces(Split(rows[0].synonyms.value, ",")) else [])
      + SplitSynonyms(rows[1..])
  }

  /**
   * `get_all_values`: the distinct names followed by the distinct synonyms.
   * Python lists the two sets in an unspecified order; here both come in
   * order of first appearance, which no caller depends on.
   */
  function AllValues(rows: seq<CompanyRow>): (r: seq<Cell>)
    ensures forall v :: v in r <==> v in Names(rows) || v in SplitSynonyms(rows)
  {
    Unique(Names(rows)) + Unique(SplitSynonyms(rows))
  }

  /** In a sequence without repeats, every value occurs at most once. */
  lemma {:induction false} DistinctCount<T>(s: seq<T>, x: T)
    requires forall i, j :: 0 <= i < j < |s| ==> s[i] != s[j]
    ensures multiset(s)[x] == if x in s then 1 else 0
    decreases |s|
  {
    if s != [] {
      assert s == [s[0]] + s[1..];
      assert s[0] !in s[1..];
      DistinctCount(s[1..], x);
    }
  }

  /** A value repeats across the two columns exactly when it is both a name and a synonym. */
  lemma AllValuesRepeat(rows: seq<CompanyRow>, v: Cell)
    ensures multiset(AllValues(rows))[v] >= 2 <==> v in Names(rows) && v in SplitSynonyms(rows)
  {
    DistinctCount(Unique(Names(rows)), v);
    DistinctCount(Unique(SplitSynonyms(rows)), v);
  }

  /* ---- check_companies_duplicates ---- */

  const NAMES_DUPLICATED := "There are some duplicates in the " + COMPANY_NAME_COLUMN + " column"
  const SYNONYMS_DUPLICATED := "There are some duplicates in the " + SYNONYM_COLUMN + " column"
  const VALUES_DUPLICATED := "There are some duplicates across the two columns"

  /**
   * `check_companies_duplicates`: a 409 error with one entry per check that
   * found duplicates (names, synonym cells, values across the two columns).
   */
  function CheckCompaniesDuplicates(rows: seq<CompanyRow>): (r: Option<HttpException>)
    ensures r.None? <==>
      && ListDuplicates(Names(rows)) == []
      && ListDuplicates(SynonymCells(rows)) == []
      && ListDuplicates(AllValues(rows)) == []
    ensures r.Some? ==> r.value.statusCode == 409 && r.value.detail.Errors?
  {
    DuplicatesCheck(
      409,
      NAMES_DUPLICATED, Names(rows),
      SYNONYMS_DUPLICATED, SynonymCells(rows),
      VALUES_DUPLICATED, AllValues(rows))
  }

  /** Each entry of the 409 error names one of the three checks and carries its non-empty findings. */
  lemma CompaniesDuplicatesEntries(rows: seq<CompanyRow>)
    ensures var r := CheckCompaniesDuplicates(rows);
      r.Some? ==> r.value.detail.Errors? && 1 <= |r.value.detail.errors| <= 3
    ensures var r := CheckCompaniesDuplicates(rows);
      r.Some? && r.value.detail.Errors? ==> forall e :: e in r.value.detail.errors ==>
        || (e == DuplicateError(NAMES_DUPLICATED, ListDuplicates(Names(rows))) && |e.duplicates| > 0)
        || (e == DuplicateError(SYNONYMS_DUPLICATED, ListDuplicates(SynonymCells(rows))) && |e.duplicates| > 0)
        || (e == DuplicateError(VALUES_DUPLICATED, ListDuplicates(AllValues(rows))) && |e.duplicates| > 0)
  {
  }

  /**
   * The sheet is refused exactly when a reportable name repeats, a
   * reportable synonym cell repeats, or a reportable value is both a name
   * and one of the comma-split synonyms.
   */
  lemma CompaniesDuplicatesRule(rows: seq<CompanyRow>)
    ensures CheckCompaniesDuplicates(rows).Some? <==>
      || (exists s :: Reportable(Some(s)) && multiset(Names(rows))[Some(s)] >= 2)
      || (exists s :: Reportable(Some(s)) && multiset(SynonymCells(rows))[Some(s)] >= 2)
      || (exists s :: Reportable(Some(s)) && Some(s) in Names(rows) && Some(s) in SplitSynonyms(rows))
  {
    ListDuplicatesEmpty(Names(rows));
    ListDuplicatesEmpty(SynonymCells(rows));
    ListDuplicatesEmpty(AllValues(rows));
    forall s ensures multiset(AllValues(rows))[Some(s)] >= 2 <==> Some(s) in Names(rows) && Some(s) in SplitSynonyms(rows) {
      AllValuesRepeat(rows, Some(s));
    }
  }

  /** Two one-letter synonyms in one cell split into the two letters. */
  lemma SplitTwoLetters(a: char, b: char)
    requires a != ',' && b != ','
    ensures Split([a, ',', b], ",") == [[a], [b]]
  {
    var s := [a, ',', b];
    assert s[0..1] == [a];
    assert s[1..2] == ",";
    assert FindFirst(s, ",") == Some(1);
    assert s[2..] == [b] && s[..1] == [a];
    assert FindFirst([b], ",").None?;
  }

  /** The split synonyms of a two-row sheet whose cells hold two letters each. */
  lemma SplitSynonymsOfPairs(n1: string, a: char, b: char, n2: string, c: char, d: char)
    requires a != ',' && b != ',' && c != ',' && d != ','
    ensures SplitSynonyms([CompanyRow(Some(n1), Some([a, ',', b])), CompanyRow(Some(n2), Some([c, ',', d]))])
      == [Some([a]), Some([b]), Some([c]), Some([d])]
  {
    var rows := [CompanyRow(Some(n1), Some([a, ',', b])), CompanyRow(Some(n2), Some([c, ',', d]))];
    SplitTwoLetters(a, b);
    SplitTwoLetters(c, d);
    assert rows[1..] == [rows[1]];
    assert rows[1..][1..] == [];
    assert SplitSynonyms(rows[1..][1..]) == [];
    assert SplitSynonyms(rows[1..]) == Pieces([[c], [d]]) + [];
    assert SplitSynonyms(rows) == Pieces([[a], [b]]) + SplitSynonyms(rows[1..]);
    assert Pieces([[a], [b]]) == [Some([a]), Some([b])];
    assert Pieces([[c], [d]]) == [Some([c]), Some([d])];
  }

  /**
   * The check compares whole synonym cells and the set of the split
   * synonyms, so a synonym `b` shared by two cells is not reported, although
   * `process_companies` then inserts it twice under the primary key
   * `CompanySynonym.name`.
   */
  lemma SharedSynonymPassesCheck(x: char, y: char, a: char, b: char, c: char)
    requires x != y && a != b && b != c
    requires x !in {a, b, c} && y !in {a, b, c} && ',' !in {a, b, c}
    ensures var rows := [CompanyRow(Some([x]), Some([a, ',', b])), CompanyRow(Some([y]), Some([b, ',', c]))];
      && CheckCompaniesDuplicates(rows).None?
      && multiset(SplitSynonyms(rows))[Some([b])] == 2
  {
    var r1, r2 := CompanyRow(Some([x]), Some([a, ',', b])), CompanyRow(Some([y]), Some([b, ',', c]));
    SplitSynonymsOfPairs([x], a, b, [y], b, c);
    NotAmong(x, a, b, c);
    NotAmong(y, a, b, c);
    assert [x] != [y] by { assert [x][0] != [y][0]; }
    assert [a, ',', b] != [b, ',', c] by { assert [a, ',', b][0] != [b, ',', c][0]; }
    TwoRowsPass(r1, r2);
    RepeatedInFour(Some([a]), Some([b]), Some([c]));
  }

  lemma NotAmong(x: char, a: char, b: char, c: char)
    requires x !in {a, b, c}
    ensures Some([x]) !in [Some([a]), Some([b]), Some([b]), Some([c])]
  {
    assert [x] != [a] && [x] != [b] && [x] != [c] by {
      assert [x][0] == x;
    }
  }

  lemma RepeatedInFour<T>(p: T, q: T, r: T)
    requires p != q && r != q
    ensures multiset([p, q, q, r])[q] == 2
  {
    assert [p, q, q, r] == [p] + [q] + [q] + [r];
  }

  /** A two-row sheet with different names, different synonym cells and no name among the synonyms passes the check. */
  lemma TwoRowsPass(r1: CompanyRow, r2: CompanyRow)
    requires r1.name != r2.name && r1.synonyms != r2.synonyms
    requires r1.name !in SplitSynonyms([r1, r2]) && r2.name !in SplitSynonyms([r1, r2])
    ensures CheckCompaniesDuplicates([r1, r2]).None?
  {
    var rows := [r1, r2];
    assert Names(rows) == [r1.name, r2.name];
    assert SynonymCells(rows) == [r1.synonyms, r2.synonyms];
    NoRepeatInPair(r1.name, r2.name);
    NoRepeatInPair(r1.synonyms, r2.synonyms);
    ColumnsDisjoint(rows);
  }

  /** Names and split synonyms with no value in common repeat nothing across the two columns. */
  lemma ColumnsDisjoint(rows: seq<CompanyRow>)
    requires forall v :: v in Names(rows) ==> v !in SplitSynonyms(rows)
    ensures ListDuplicates(AllValues(rows)) == []
  {
    ListDuplicatesEmpty(AllValues(rows));
    forall s ensures multiset(AllValues(rows))[Some(s)] <= 1 {
      AllValuesRepeat(rows, Some(s));
    }
  }

  /** Two different cells hold no duplicate. */
  lemma NoRepeatInPair(x: Cell, y: Cell)
    requires x != y
    ensures ListDuplicates([x, y]) == []
  {
    ListDuplicatesEmpty([x, y]);
  }

  /* ---- delete_companies_not_used_by_analysis ---- */

  /** The companies the join `Analysis.company == Company.name` yields, one per joined analysis. */
  function AnalysedCompanies(companies: seq<string>, analyses: seq<Option<string>>): (r: seq<string>)
    ensures forall c :: c in r <==> c in companies && Some(c) in analyses
    decreases |analyses|
  {
    if analyses == [] then []
    else
      var rest := AnalysedCompanies(companies, analyses[..|analyses| - 1]);
      var a := analyses[|analyses| - 1];
      assert forall x :: x in analyses <==> x in analyses[..|analyses| - 1] || x == a;
      if a.Some? && a.value in companies then rest + [a.value] else rest
  }

  /** `list(set(companies_to_be_updated_only))`: the companies some analysis refers to, each once. */
  function UsedCompanies(db: Db): (r: seq<string>)
    ensures forall c :: c in r <==> c in db.companies && Some(c) in db.analysisCompanies
    ensures forall i, j :: 0 <= i < j < |r| ==> r[i] != r[j]
  {
    Unique(AnalysedCompanies(db.companies, db.analysisCompanies))
  }

  /** The companies of `cs` that are in `used`, in store order. */
  function KeptCompanies(cs: seq<string>, used: seq<string>): (r: seq<string>)
    decreases |cs|
  {
    if cs == [] then []
    else
      var rest := KeptCompanies(cs[..|cs| - 1], used);
      if cs[|cs| - 1] in used then rest + [cs[|cs| - 1]] else rest
  }

  lemma {:induction false} KeptMembers(cs: seq<string>, used: seq<string>)
    ensures forall c :: c in KeptCompanies(cs, used) <==> c in cs && c in used
    decreases |cs|
  {
    if cs != [] {
      KeptMembers(cs[..|cs| - 1], used);
      assert forall x :: x in cs <==> x in cs[..|cs| - 1] || x == cs[|cs| - 1];
    }
  }

  /** The companies of `cs` that are not in `used`, in store order. */
  function UnusedCompanies(cs: seq<string>, used: seq<string>): (r: seq<string>)
    decreases |cs|
  {
    if cs == [] then []
    else
      var rest := UnusedCompanies(cs[..|cs| - 1], used);
      if cs[|cs| - 1] !in used then rest + [cs[|cs| - 1]] else rest
  }

  lemma {:induction false} UnusedMembers(cs: seq<string>, used: seq<string>)
    ensures forall c :: c in UnusedCompanies(cs, used) <==> c in cs && c !in used
    decreases |cs|
  {
    if cs != [] {
      UnusedMembers(cs[..|cs| - 1], used);
      assert forall x :: x in cs <==> x in cs[..|cs| - 1] || x == cs[|cs| - 1];
    }
  }

  /** The synonym rows that survive deleting the companies `names` (the synonyms cascade with their company). */
  function WithoutSynonymsOf(ss: seq<CompanySynonym>, names: seq<string>): (r: seq<CompanySynonym>)
    decreases |ss|
  {
    if ss == [] then []
    else (if ss[0].companyName in names then [] else [ss[0]]) + WithoutSynonymsOf(ss[1..], names)
  }

  lemma {:induction false} WithoutMembers(ss: seq<CompanySynonym>, names: seq<string>)
    ensures forall x :: x in WithoutSynonymsOf(ss, names) <==> x in ss && x.companyName !in names
    decreases |ss|
  {
    if ss != [] {
      WithoutMembers(ss[1..], names);
      assert forall x :: x in ss <==> x == ss[0] || x in ss[1..];
    }
  }

  lemma {:induction false} WithoutNothing(ss: seq<CompanySynonym>)
    ensures WithoutSynonymsOf(ss, []) == ss
    decreases |ss|
  {
    if ss != [] {
      WithoutNothing(ss[1..]);
    }
  }

  lemma {:induction false} WithoutSynonymsOfSnoc(ss: seq<CompanySynonym>, names: seq<string>, c: string)
    ensures WithoutSynonymsOf(WithoutSynonymsOf(ss, names), [c]) == WithoutSynonymsOf(ss, names + [c])
    decreases |ss|
  {
    if ss != [] {
      WithoutSynonymsOfSnoc(ss[1..], names, c);
      var head := if ss[0].companyName in names then [] else [ss[0]];
      assert WithoutSynonymsOf(ss, names) == head + WithoutSynonymsOf(ss[1..], names);
      WithoutSynonymsOfConcat(head, WithoutSynonymsOf(ss[1..], names), [c]);
    }
  }

  lemma {:induction false} WithoutSynonymsOfConcat(a: seq<CompanySynonym>, b: seq<CompanySynonym>, names: seq<string>)
    ensures WithoutSynonymsOf(a + b, names) == WithoutSynonymsOf(a, names) + WithoutSynonymsOf(b, names)
    decreases |a|
  {
    if a == [] {
      assert a + b == b;
    } else {
      assert (a + b)[0] == a[0];
      assert (a + b)[1..] == a[1..] + b;
      WithoutSynonymsOfConcat(a[1..], b, names);
    }
  }

  /** What the deletion leaves: the used companies, and the synonyms of the companies kept. */
  datatype Cleanup = Cleanup(db: Db, deleted: seq<string>, kept: seq<string>)

  /**
   * `delete_companies_not_used_by_analysis`: every company no analysis names
   * is deleted with its synonyms; it returns the deleted names (store order)
   * and the distinct names of the companies kept.
   */
  function DeleteUnusedSpec(db: Db): (r: Cleanup)
    ensures forall c :: c in r.deleted <==> c in db.companies && Some(c) !in db.analysisCompanies
    ensures forall c :: c in r.db.companies <==> c in db.companies && Some(c) in db.analysisCompanies
    ensures forall c :: c in r.kept <==> c in db.companies && Some(c) in db.analysisCompanies
    ensures forall i, j :: 0 <= i < j < |r.kept| ==> r.kept[i] != r.kept[j]
    ensures forall x :: x in r.db.synonyms <==> x in db.synonyms && x.companyName !in r.deleted
    ensures r.db == db.(companies := r.db.companies, synonyms := r.db.synonyms)
  {
    var used := UsedCompanies(db);
    var deleted := UnusedCompanies(db.companies, used);
    KeptMembers(db.companies, used);
    UnusedMembers(db.companies, used);
    WithoutMembers(db.synonyms, deleted);
    Cleanup(db.(companies := KeptCompanies(db.companies, used), synonyms := WithoutSynonymsOf(db.synonyms, deleted)),
            deleted, used)
  }

  /** Each stored company is either kept or deleted, never both. */
  lemma DeleteUnusedPartitions(db: Db, c: string)
    requires c in db.companies
    ensures var r := DeleteUnusedSpec(db); (c in r.deleted) != (c in r.db.companies)
  {
  }

  lemma KeptStep(cs: seq<string>, i: nat, used: seq<string>)
    requires i < |cs|
    ensures cs[i] !in used ==>
      var w := KeptCompanies(cs[..i], used);
      var cur := w + cs[i..];
      && cur[..|w|] + cur[|w| + 1..] == KeptCompanies(cs[..i + 1], used) + cs[i + 1..]
      && UnusedCompanies(cs[..i + 1], used) == UnusedCompanies(cs[..i], used) + [cs[i]]
    ensures cs[i] in used ==>
      && KeptCompanies(cs[..i], used) + cs[i..] == KeptCompanies(cs[..i + 1], used) + cs[i + 1..]
      && UnusedCompanies(cs[..i + 1], used) == UnusedCompanies(cs[..i], used)
  {
    assert cs[..i + 1][..i] == cs[..i];
    assert cs[i..][1..] == cs[i + 1..];
    if cs[i] !in used {
      DropAtSeam(KeptCompanies(cs[..i], used), cs[i..]);
    } else {
      assert cs[i..] == [cs[i]] + cs[i + 1..];
    }
  }

  /** The query `companies_to_be_updated_only`: the companies joined to some analysis, each once. */
  method CompaniesUsedByAnalysis(s: Session) returns (used: seq<string>)
    ensures used == UsedCompanies(s.State())
  {
    var analysed := [];
    for i := 0 to |s.analysisCompanies|
      invariant analysed == AnalysedCompanies(s.companies, s.analysisCompanies[..i])
    {
      assert s.analysisCompanies[..i + 1][..i] == s.analysisCompanies[..i];
      var a := s.analysisCompanies[i];
      if a.Some? && a.value in s.companies {
        analysed := analysed + [a.value];
      }
    }
    assert s.analysisCompanies[..|s.analysisCompanies|] == s.analysisCompanies;
    used := Unique(analysed);
  }

  /** The deletion loop over the snapshot `cs` of the companies: each one not in `kept` goes, with its synonyms. */
  method DeleteAllBut(s: Session, kept: seq<string>) returns (deleted: seq<string>)
    modifies s
    ensures s.companies == KeptCompanies(old(s.companies), kept)
    ensures deleted == UnusedCompanies(old(s.companies), kept)
    ensures s.synonyms == WithoutSynonymsOf(old(s.synonyms), deleted)
    ensures s.State() == old(s.State()).(companies := s.companies, synonyms := s.synonyms)
  {
    var cs := s.companies;
    var ss := s.synonyms;
    deleted := [];
    WithoutNothing(ss);
    for i := 0 to |cs|
      invariant s.companies == KeptCompanies(cs[..i], kept) + cs[i..]
      invariant deleted == UnusedCompanies(cs[..i], kept)
      invariant s.synonyms == WithoutSynonymsOf(ss, deleted)
      invariant s.State() == old(s.State()).(companies := s.companies, synonyms := s.synonyms)
    {
      KeptStep(cs, i, kept);
      var c := cs[i];
      if c !in kept {
        var k := |KeptCompanies(cs[..i], kept)|;
        s.companies := s.companies[..k] + s.companies[k + 1..];
        WithoutSynonymsOfSnoc(ss, deleted, c);
        s.synonyms := WithoutSynonymsOf(s.synonyms, [c]);
        deleted := deleted + [c];
      }
    }
    assert cs[..|cs|] == cs;
  }

  /** `delete_companies_not_used_by_analysis(db)`. */
  method DeleteCompaniesNotUsedByAnalysis(s: Session) returns (deleted: seq<string>, kept: seq<string>)
    modifies s
    ensures Cleanup(s.State(), deleted, kept) == DeleteUnusedSpec(old(s.State()))
  {
    kept := CompaniesUsedByAnalysis(s);
    deleted := DeleteAllBut(s, kept);
  }

  /* ---- process_companies ---- */

  /** The cells `process_companies` writes into a row: Created, Updated, Deleted_Synonyms, Added_Synonyms. */
  datatype CompanyMarks = CompanyMarks(created: bool, updated: bool, deletedSynonyms: Option<string>, addedSynonyms: Option<string>)

  /** The names of the synonyms of `company`, in store order. */
  function SynonymsOf(ss: seq<CompanySynonym>, company: string): (r: seq<string>)
    ensures |r| <= |ss|
    decreases |ss|
  {
    if ss == [] then []
    else (if ss[0].companyName == company then [ss[0].name] else []) + SynonymsOf(ss[1..], company)
  }

  /** A marker cell built by `cell + "," + value`, starting from the first value: None until a value is written. */
  function JoinedCell(parts: seq<string>): (r: Option<string>)
    ensures r.None? <==> parts == []
  {
    if parts == [] then None else Some(Join(parts, ","))
  }

  /** New synonym rows attached to `company`. */
  function Attached(names: seq<string>, company: string): (r: seq<CompanySynonym>)
    ensures |r| == |names| && forall i :: 0 <= i < |names| ==> r[i] == CompanySynonym(names[i], company)
  {
    seq(|names|, i requires 0 <= i < |names| => CompanySynonym(names[i], company))
  }

  /** The cleaned and comma-split synonyms of a row, None when the cell is empty. */
  function RowSynonyms(row: CompanyRow): (r: Option<seq<string>>)
    ensures r.Some? <==> row.synonyms.Some?
    ensures r.Some? ==> |r.value| >= 1 && forall p :: p in r.value ==> '/' !in p
  {
    if row.synonyms.None? then None
    else
      var t := CleanCompanyValue(row.synonyms.value);
      var ps := Split(t, ",");
      assert forall p :: p in ps ==> '/' !in p by {
        SplitPiecesKeepChars(t, ",");
      }
      Some(ps)
  }

  lemma SplitPiecesKeepChars(s: string, sep: string)
    requires sep != []
    ensures forall p :: p in Split(s, sep) ==> forall c :: c in p ==> c in s
    decreases |s|
  {
    match FindFirst(s, sep)
    case None =>
    case Some(i) =>
      SplitStep(s, sep, i);
      SplitPiecesKeepChars(s[i + |sep|..], sep);
      assert forall c :: c in s[..i] ==> c in s;
      assert forall c :: c in s[i + |sep|..] ==> c in s;
  }

  /** Every synonym belongs to a stored company (the foreign key of the synonyms table). */
  predicate SynonymsOwned(db: Db)
  {
    forall x :: x in db.synonyms ==> x.companyName in db.companies
  }

  /**
   * One row of `process_companies`: the cleaned name is created when unknown;
   * a known company loses all its synonyms (recorded in Deleted_Synonyms);
   * then the row's synonyms are attached (recorded in Added_Synonyms).
   */
  function ProcessCompanyRowSpec(db: Db, name: string, synonyms: Option<seq<string>>): (r: (Db, CompanyMarks))
    ensures r.1.created != r.1.updated
    ensures r.1.created <==> name !in db.companies
    ensures r.1.addedSynonyms == (if synonyms.Some? then JoinedCell(synonyms.value) else None)
    ensures r.0.entities == db.entities && r.0.origins == db.origins && r.0.analysisCompanies == db.analysisCompanies
  {
    var (db1, m) :=
      if name in db.companies then
        (db.(synonyms := WithoutSynonymsOf(db.synonyms, [name])),
         CompanyMarks(false, true, JoinedCell(SynonymsOf(db.synonyms, name)), None))
      else
        (db.(companies := db.companies + [name]), CompanyMarks(true, false, None, None));
    match synonyms
    case None => (db1, m)
    case Some(ps) => (db1.(synonyms := db1.synonyms + Attached(ps, name)), m.(addedSynonyms := JoinedCell(ps)))
  }

  lemma {:induction false} SynonymsOfConcat(a: seq<CompanySynonym>, b: seq<CompanySynonym>, company: string)
    ensures SynonymsOf(a + b, company) == SynonymsOf(a, company) + SynonymsOf(b, company)
    decreases |a|
  {
    if a == [] {
      assert a + b == b;
    } else {
      var h := if a[0].companyName == company then [a[0].name] else [];
      assert (a + b)[0] == a[0];
      assert (a + b)[1..] == a[1..] + b;
      assert SynonymsOf(a + b, company) == h + SynonymsOf(a[1..] + b, company);
      SynonymsOfConcat(a[1..], b, company);
      assert h + (SynonymsOf(a[1..], company) + SynonymsOf(b, company))
          == (h + SynonymsOf(a[1..], company)) + SynonymsOf(b, company);
    }
  }

  lemma {:induction false} SynonymsOfWithout(ss: seq<CompanySynonym>, name: string, company: string)
    ensures SynonymsOf(WithoutSynonymsOf(ss, [name]), company) == if company == name then [] else SynonymsOf(ss, company)
    decreases |ss|
  {
    if ss != [] {
      SynonymsOfWithout(ss[1..], name, company);
      var head := if ss[0].companyName in [name] then [] else [ss[0]];
      assert WithoutSynonymsOf(ss, [name]) == head + WithoutSynonymsOf(ss[1..], [name]);
      SynonymsOfConcat(head, WithoutSynonymsOf(ss[1..], [name]), company);
    }
  }

  lemma {:induction false} SynonymsOfAttached(ps: seq<string>, name: string, company: string)
    ensures SynonymsOf(Attached(ps, name), company) == if company == name then ps else []
    decreases |ps|
  {
    if ps != [] {
      assert Attached(ps, name)[1..] == Attached(ps[1..], name);
      SynonymsOfAttached(ps[1..], name, company);
    }
  }

  lemma {:induction false} SynonymsOfNone(ss: seq<CompanySynonym>, company: string)
    requires forall x :: x in ss ==> x.companyName != company
    ensures SynonymsOf(ss, company) == []
    decreases |ss|
  {
    if ss != [] {
      assert ss[0] in ss;
      assert forall x :: x in ss[1..] ==> x in ss;
      SynonymsOfNone(ss[1..], company);
    }
  }

  /** The synonyms left once a row's company has been looked up: all of them for a new company, none of its own otherwise. */
  function RowBase(db: Db, name: string): seq<CompanySynonym>
  {
    if name in db.companies then WithoutSynonymsOf(db.synonyms, [name]) else db.synonyms
  }

  lemma RowSpecSynonyms(db: Db, name: string, synonyms: Option<seq<string>>)
    ensures ProcessCompanyRowSpec(db, name, synonyms).0.synonyms ==
      RowBase(db, name) + (if synonyms.Some? then Attached(synonyms.value, name) else [])
    ensures forall c :: c in ProcessCompanyRowSpec(db, name, synonyms).0.companies <==> c in db.companies || c == name
  {
  }

  lemma RowBaseSynonyms(db: Db, name: string, other: string)
    requires SynonymsOwned(db)
    ensures SynonymsOf(RowBase(db, name), name) == []
    ensures other != name ==> SynonymsOf(RowBase(db, name), other) == SynonymsOf(db.synonyms, other)
  {
    if name in db.companies {
      SynonymsOfWithout(db.synonyms, name, name);
      SynonymsOfWithout(db.synonyms, name, other);
    } else {
      SynonymsOfNone(db.synonyms, name);
    }
  }

  /**
   * After its row, a company holds exactly the row's synonyms (none when the
   * cell is empty), whether it was created or updated; the synonyms of every
   * other company are untouched.
   */
  lemma ProcessCompanyRowSynonyms(db: Db, name: string, synonyms: Option<seq<string>>, other: string)
    requires SynonymsOwned(db)
    requires other != name
    ensures SynonymsOf(ProcessCompanyRowSpec(db, name, synonyms).0.synonyms, name) == synonyms.GetOr([])
    ensures SynonymsOf(ProcessCompanyRowSpec(db, name, synonyms).0.synonyms, other) == SynonymsOf(db.synonyms, other)
  {
    RowSpecSynonyms(db, name, synonyms);
    RowBaseSynonyms(db, name, other);
    var base := RowBase(db, name);
    var added := if synonyms.Some? then Attached(synonyms.value, name) else [];
    SynonymsOfConcat(base, added, name);
    SynonymsOfConcat(base, added, other);
    if synonyms.Some? {
      SynonymsOfAttached(synonyms.value, name, name);
      SynonymsOfAttached(synonyms.value, name, other);
    }
  }

  /** A row keeps every synonym attached to a stored company, and its own company is stored afterwards. */
  lemma ProcessCompanyRowKeepsOwned(db: Db, name: string, synonyms: Option<seq<string>>)
    requires SynonymsOwned(db)
    ensures name in ProcessCompanyRowSpec(db, name, synonyms).0.companies
    ensures SynonymsOwned(ProcessCompanyRowSpec(db, name, synonyms).0)
  {
    RowSpecSynonyms(db, name, synonyms);
    WithoutMembers(db.synonyms, [name]);
  }

  /** The outcome of `process_companies`: the store, one marker record per row done, and whether a row raised. */
  datatype CompaniesRun = CompaniesRun(db: Db, marks: seq<CompanyMarks>, raised: bool)

  /**
   * `process_companies(db, df)`: the rows in order. An empty name cell makes
   * `re.sub` raise, which ends the import after the rows before it.
   */
  function ProcessCompaniesSpec(db: Db, rows: seq<CompanyRow>): (r: CompaniesRun)
    ensures r.raised <==> exists i :: 0 <= i < |rows| && rows[i].name.None?
    ensures !r.raised ==> |r.marks| == |rows|
    ensures forall i :: 0 <= i < |r.marks| ==> r.marks[i].created != r.marks[i].updated
    decreases |rows|
  {
    if rows == [] then CompaniesRun(db, [], false)
    else if rows[0].name.None? then CompaniesRun(db, [], true)
    else
      var step := ProcessCompanyRowSpec(db, CleanCompanyValue(rows[0].name.value), RowSynonyms(rows[0]));
      var rest := ProcessCompaniesSpec(step.0, rows[1..]);
      RowsTail(rows);
      MarksCons(step.1, rest.marks);
      CompaniesRun(rest.db, [step.1] + rest.marks, rest.raised)
  }

  lemma MarksCons(m: CompanyMarks, rest: seq<CompanyMarks>)
    requires m.created != m.updated
    requires forall i :: 0 <= i < |rest| ==> rest[i].created != rest[i].updated
    ensures forall i :: 0 <= i < |[m] + rest| ==> ([m] + rest)[i].created != ([m] + rest)[i].updated
  {
    forall i | 0 <= i < |[m] + rest| ensures ([m] + rest)[i].created != ([m] + rest)[i].updated {
      if i > 0 { assert ([m] + rest)[i] == rest[i - 1]; }
    }
  }

  lemma RowsTail(rows: seq<CompanyRow>)
    requires rows != [] && rows[0].name.Some?
    ensures (exists i :: 0 <= i < |rows| && rows[i].name.None?) <==> exists i :: 0 <= i < |rows[1..]| && rows[1..][i].name.None?
  {
    if exists i :: 0 <= i < |rows| && rows[i].name.None? {
      var i :| 0 <= i < |rows| && rows[i].name.None?;
      assert rows[1..][i - 1].name.None?;
    }
  }

  lemma {:induction false} JoinSnoc(parts: seq<string>, x: string, sep: string)
    requires parts != []
    ensures Join(parts + [x], sep) == Join(parts, sep) + sep + x
    decreases |parts|
  {
    if |parts| == 1 {
      assert (parts + [x])[1..] == [x];
    } else {
      assert (parts + [x])[1..] == parts[1..] + [x];
      JoinSnoc(parts[1..], x, sep);
    }
  }

  /** The try/except append of a marker cell: the first value alone, later ones after a ','. */
  function Appended(cell: Option<string>, value: string): (r: Option<string>)
  {
    if cell.Some? then Some(cell.value + "," + value) else Some(value)
  }

  lemma AppendedJoins(parts: seq<string>, x: string)
    ensures Appended(JoinedCell(parts), x) == JoinedCell(parts + [x])
  {
    if parts != [] {
      JoinSnoc(parts, x, ",");
    }
  }

  lemma {:induction false} SynonymsOfSnoc(ss: seq<CompanySynonym>, x: CompanySynonym, company: string)
    ensures SynonymsOf(ss + [x], company) == SynonymsOf(ss, company) + (if x.companyName == company then [x.name] else [])
  {
    SynonymsOfConcat(ss, [x], company);
  }

  /** Dropping the element at the seam of `w + [x] + rest`. */
  lemma DropAtSeam<T>(w: seq<T>, rest: seq<T>)
    requires rest != []
    ensures var cur := w + rest; cur[..|w|] + cur[|w| + 1..] == w + rest[1..]
  {
    var cur := w + rest;
    assert cur[..|w|] == w;
    assert cur[|w| + 1..] == rest[1..];
  }

  lemma DeleteStep(ss: seq<CompanySynonym>, i: nat, name: string)
    requires i < |ss|
    ensures ss[i].companyName == name ==>
      var w := WithoutSynonymsOf(ss[..i], [name]);
      var cur := w + ss[i..];
      cur[..|w|] + cur[|w| + 1..] == WithoutSynonymsOf(ss[..i + 1], [name]) + ss[i + 1..]
    ensures ss[i].companyName != name ==>
      WithoutSynonymsOf(ss[..i], [name]) + ss[i..] == WithoutSynonymsOf(ss[..i + 1], [name]) + ss[i + 1..]
  {
    assert ss[..i + 1] == ss[..i] + [ss[i]];
    assert ss[i..][1..] == ss[i + 1..];
    WithoutSynonymsOfConcat(ss[..i], [ss[i]], [name]);
    var w := WithoutSynonymsOf(ss[..i], [name]);
    if ss[i].companyName == name {
      assert WithoutSynonymsOf([ss[i]], [name]) == [];
      DropAtSeam(w, ss[i..]);
    } else {
      assert WithoutSynonymsOf([ss[i]], [name]) == [ss[i]];
      assert ss[i..] == [ss[i]] + ss[i + 1..];
    }
  }

  lemma DeleteStepCell(ss: seq<CompanySynonym>, i: nat, name: string)
    requires i < |ss|
    ensures ss[i].companyName == name ==>
      Appended(JoinedCell(SynonymsOf(ss[..i], name)), ss[i].name) == JoinedCell(SynonymsOf(ss[..i + 1], name))
    ensures ss[i].companyName != name ==> SynonymsOf(ss[..i + 1], name) == SynonymsOf(ss[..i], name)
  {
    assert ss[..i + 1] == ss[..i] + [ss[i]];
    SynonymsOfSnoc(ss[..i], ss[i], name);
    if ss[i].companyName == name {
      AppendedJoins(SynonymsOf(ss[..i], name), ss[i].name);
    }
  }

  /** The deletion loop: every synonym of `name` is deleted and its name appended to the marker cell. */
  method DeleteSynonymsOf(s: Session, name: string) returns (cell: Option<string>)
    modifies s
    ensures s.State() == old(s.State()).(synonyms := WithoutSynonymsOf(old(s.synonyms), [name]))
    ensures cell == JoinedCell(SynonymsOf(old(s.synonyms), name))
  {
    var ss := s.synonyms;
    cell := None;
    for i := 0 to |ss|
      invariant s.synonyms == WithoutSynonymsOf(ss[..i], [name]) + ss[i..]
      invariant cell == JoinedCell(SynonymsOf(ss[..i], name))
      invariant s.entities == old(s.entities) && s.rows == old(s.rows) && s.origins == old(s.origins)
      invariant s.edges == old(s.edges) && s.groups == old(s.groups) && s.contents == old(s.contents)
      invariant s.contentOrigins == old(s.contentOrigins) && s.nextId == old(s.nextId)
      invariant s.companies == old(s.companies) && s.analysisCompanies == old(s.analysisCompanies)
    {
      DeleteStep(ss, i, name);
      DeleteStepCell(ss, i, name);
      var k := |WithoutSynonymsOf(ss[..i], [name])|;
      if ss[i].companyName == name {
        s.synonyms := s.synonyms[..k] + s.synonyms[k + 1..];
        cell := Appended(cell, ss[i].name);
      }
    }
    assert ss[..|ss|] == ss;
  }

  /** The adding loop: one synonym row per name, each appended to the marker cell. */
  method AttachSynonyms(s: Session, names: seq<string>, company: string) returns (cell: Option<string>)
    modifies s
    ensures s.State() == old(s.State()).(synonyms := old(s.synonyms) + Attached(names, company))
    ensures cell == JoinedCell(names)
  {
    cell := None;
    for i := 0 to |names|
      invariant s.State() == old(s.State()).(synonyms := old(s.synonyms) + Attached(names[..i], company))
      invariant cell == JoinedCell(names[..i])
    {
      assert Attached(names[..i + 1], company) == Attached(names[..i], company) + [CompanySynonym(names[i], company)];
      assert names[..i + 1] == names[..i] + [names[i]];
      s.synonyms := s.synonyms + [CompanySynonym(names[i], company)];
      AppendedJoins(names[..i], names[i]);
      cell := Appended(cell, names[i]);
    }
    assert names[..|names|] == names;
  }

  method ProcessCompanyRow(s: Session, name: string, synonyms: Option<seq<string>>) returns (m: CompanyMarks)
    modifies s
    ensures (s.State(), m) == ProcessCompanyRowSpec(old(s.State()), name, synonyms)
  {
    if name !in s.companies {
      s.companies := s.companies + [name];
      m := CompanyMarks(true, false, None, None);
    } else {
      var deleted := DeleteSynonymsOf(s, name);
      m := CompanyMarks(false, true, deleted, None);
    }
    if synonyms.Some? {
      var added := AttachSynonyms(s, synonyms.value, name);
      m := m.(addedSynonyms := added);
    }
  }

  method ProcessCompanies(s: Session, rows: seq<CompanyRow>) returns (marks: seq<CompanyMarks>, raised: bool)
    modifies s
    ensures CompaniesRun(s.State(), marks, raised) == ProcessCompaniesSpec(old(s.State()), rows)
  {
    marks := [];
    raised := false;
    var i := 0;
    while i < |rows|
      invariant 0 <= i <= |rows|
      invariant ProcessCompaniesSpec(old(s.State()), rows) ==
        var rest := ProcessCompaniesSpec(s.State(), rows[i..]);
        CompaniesRun(rest.db, marks + rest.marks, rest.raised)
    {
      ProcessCompaniesStep(s.State(), rows, i);
      if rows[i].name.None? {
        assert marks + [] == marks;
        raised := true;
        return;
      }
      var m := ProcessCompanyRow(s, CleanCompanyValue(rows[i].name.value), RowSynonyms(rows[i]));
      MarksAssoc(marks, m, ProcessCompaniesSpec(s.State(), rows[i + 1..]).marks);
      marks := marks + [m];
      i := i + 1;
    }
    assert marks + [] == marks;
  }

  /** One turn of the loop of `process_companies`, from row `i`. */
  lemma ProcessCompaniesStep(db: Db, rows: seq<CompanyRow>, i: nat)
    requires i < |rows|
    ensures rows[i].name.None? ==> ProcessCompaniesSpec(db, rows[i..]) == CompaniesRun(db, [], true)
    ensures rows[i].name.Some? ==>
      var step := ProcessCompanyRowSpec(db, CleanCompanyValue(rows[i].name.value), RowSynonyms(rows[i]));
      var rest := ProcessCompaniesSpec(step.0, rows[i + 1..]);
      ProcessCompaniesSpec(db, rows[i..]) == CompaniesRun(rest.db, [step.1] + rest.marks, rest.raised)
  {
    assert rows[i..][0] == rows[i] && rows[i..][1..] == rows[i + 1..];
  }

  lemma MarksAssoc(marks: seq<CompanyMarks>, m: CompanyMarks, rest: seq<CompanyMarks>)
    ensures marks + ([m] + rest) == (marks + [m]) + rest
  {
  }

  /* ---- compute_companies_kpis ---- */

  /** A processed row as the figures see it: its name cell as uploaded, and its markers. */
  datatype MarkedCompany = MarkedCompany(name: string, marks: CompanyMarks)

  function FrameNames(frame: seq<MarkedCompany>): (r: seq<string>)
    ensures forall c :: c in r <==> exists i :: 0 <= i < |frame| && frame[i].name == c
    decreases |frame|
  {
    if frame == [] then []
    else
      var rest := FrameNames(frame[1..]);
      assert forall i :: 1 <= i < |frame| ==> frame[i] == frame[1..][i - 1];
      [frame[0].name] + rest
  }

  /** `list(df[df[created_column] == 1][company_name_column])`; a missing column gives the same (empty) list. */
  function CreatedNames(frame: seq<MarkedCompany>): (r: seq<string>)
    ensures forall c :: c in r <==> exists i :: 0 <= i < |frame| && frame[i].marks.created && frame[i].name == c
    decreases |frame|
  {
    if frame == [] then []
    else
      var rest := CreatedNames(frame[1..]);
      assert forall i :: 1 <= i < |frame| ==> frame[i] == frame[1..][i - 1];
      (if frame[0].marks.created then [frame[0].name] else []) + rest
  }

  function UpdatedNames(frame: seq<MarkedCompany>): (r: seq<string>)
    ensures forall c :: c in r <==> exists i :: 0 <= i < |frame| && frame[i].marks.updated && frame[i].name == c
    decreases |frame|
  {
    if frame == [] then []
    else
      var rest := UpdatedNames(frame[1..]);
      assert forall i :: 1 <= i < |frame| ==> frame[i] == frame[1..][i - 1];
      (if frame[0].marks.updated then [frame[0].name] else []) + rest
  }

  /** `list(set(a) - set(b))`, in order of first appearance in `a`. */
  function Minus(a: seq<string>, b: seq<string>): (r: seq<string>)
    ensures forall c :: c in r <==> c in a && c !in b
    ensures forall i, j :: 0 <= i < j < |r| ==> r[i] != r[j]
  {
    UnusedMembers(a, b);
    Unique(UnusedCompanies(a, b))
  }

  /** `list(set(a).intersection(b))`, in order of first appearance in `a`. */
  function Intersection(a: seq<string>, b: seq<string>): (r: seq<string>)
    ensures forall c :: c in r <==> c in a && c in b
    ensures forall i, j :: 0 <= i < j < |r| ==> r[i] != r[j]
  {
    KeptMembers(a, b);
    Unique(KeptCompanies(a, b))
  }

  datatype CompanyKpis = CompanyKpis(
    nbCantDelete: nat, nbDeleted: nat, nbAdded: nat, nbUpdated: nat,
    cantDelete: seq<string>, deleted: seq<string>, added: seq<string>, updated: seq<string>)

  /**
   * `compute_companies_kpis(df, deleted_companies, company_cant_delete)`:
   * the companies that could not be deleted and are not in the sheet; the
   * deleted ones not created again; the created ones that had not been
   * deleted; and as updated, the ones deleted then created again followed by
   * the rows marked Updated. Each count is the length of its list.
   */
  function CompaniesKpis(frame: seq<MarkedCompany>, deleted: seq<string>, cantDelete: seq<string>): (k: CompanyKpis)
    ensures k.nbCantDelete == |k.cantDelete| && k.nbDeleted == |k.deleted|
    ensures k.nbAdded == |k.added| && k.nbUpdated == |k.updated|
    ensures forall c :: c in k.cantDelete <==> c in cantDelete && c !in FrameNames(frame)
    ensures forall c :: c in k.deleted <==> c in deleted && c !in CreatedNames(frame)
    ensures forall c :: c in k.added <==> c in CreatedNames(frame) && c !in deleted
    ensures forall c :: c in k.updated <==> (c in CreatedNames(frame) && c in deleted) || c in UpdatedNames(frame)
  {
    var added := CreatedNames(frame);
    var fully := Intersection(added, deleted);
    var updated := fully + UpdatedNames(frame);
    var cant := Minus(cantDelete, FrameNames(frame));
    var reallyDeleted := Minus(deleted, added);
    var reallyAdded := Minus(added, deleted);
    CompanyKpis(|cant|, |reallyDeleted|, |reallyAdded|, |updated|, cant, reallyDeleted, reallyAdded, updated)
  }

  lemma {:induction false} DistinctCard(s: seq<string>)
    requires forall i, j :: 0 <= i < j < |s| ==> s[i] != s[j]
    ensures |set c | c in s| == |s|
    decreases |s|
  {
    if s != [] {
      DistinctCard(s[1..]);
      assert (set c | c in s) == {s[0]} + (set c | c in s[1..]);
      assert s[0] !in s[1..];
    }
  }

  /**
   * The created companies split into the really added ones and the ones
   * re-created after deletion: the added count plus the fully updated count
   * is the number of distinct created names, and no company is both added and
   * deleted.
   */
  lemma CompaniesKpisSplitCreated(frame: seq<MarkedCompany>, deleted: seq<string>, cantDelete: seq<string>)
    ensures var k := CompaniesKpis(frame, deleted, cantDelete);
      && k.nbAdded + |Intersection(CreatedNames(frame), deleted)| == |Unique(CreatedNames(frame))|
      && forall c :: !(c in k.added && c in k.deleted)
  {
    var created := CreatedNames(frame);
    var a := Minus(created, deleted);
    var f := Intersection(created, deleted);
    var u := Unique(created);
    SplitCount(a, f, u);
  }

  /** Two disjoint lists without repeats that together hold the names of a third one split its length. */
  lemma SplitCount(a: seq<string>, f: seq<string>, u: seq<string>)
    requires forall i, j :: 0 <= i < j < |a| ==> a[i] != a[j]
    requires forall i, j :: 0 <= i < j < |f| ==> f[i] != f[j]
    requires forall i, j :: 0 <= i < j < |u| ==> u[i] != u[j]
    requires forall c :: c in u <==> c in a || c in f
    requires forall c :: !(c in a && c in f)
    ensures |a| + |f| == |u|
  {
    DistinctCard(a);
    DistinctCard(f);
    DistinctCard(u);
    var sa := set c | c in a;
    var sf := set c | c in f;
    var su := set c | c in u;
    assert sa * sf == {};
    assert sa + sf == su;
  }
}

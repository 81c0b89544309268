// The validators of the admin import (api/utils.py): the check that an
// uploaded sheet has the columns an endpoint needs, the duplicate finder
// behind every "duplicates" error, and the HTTP errors the endpoints raise.
//
// A sheet column is a sequence of cells; a cell is None when it is empty
// (pandas NaN or Python None).
module ApiUtils {
  import opened Wrappers

  /** One entry of the `errors` list of a duplicates error. */
  datatype DuplicateError = DuplicateError(error: string, duplicates: seq<string>)

  /** The `detail` of an `HTTPException`. */
  datatype Detail =
    | MissingColumns(missingColumns: seq<string>)
    | Errors(errors: seq<DuplicateError>)
    | ErrorMessage(error: string)
    | Text(text: string)
    | NoDetail

  datatype HttpException = HttpException(statusCode: int, detail: Detail)

  type Cell = Option<string>

  /** `if len(duplicates) > 0: errors.append(...)`: one error entry when something is duplicated, none otherwise. */
  function DuplicatesEntry(message: string, duplicates: seq<string>): (r: seq<DuplicateError>)
    ensures |r| <= 1 && (r == [] <==> duplicates == [])
    ensures forall e :: e in r ==> e.error == message && e.duplicates == duplicates
  {
    if |duplicates| > 0 then [DuplicateError(message, duplicates)] else []
  }

  /* ---- check_excel_for_missing_columns ---- */

  /** The requested columns the sheet lacks, in the order they were requested. */
  function Missing(present: seq<string>, columns: seq<string>): (r: seq<string>)
    ensures forall c :: c in r <==> c in columns && c !in present
    ensures |r| <= |columns|
    decreases |columns|
  {
    if columns == [] then []
    else (if columns[0] in present then [] else [columns[0]]) + Missing(present, columns[1..])
  }

  /** Requesting more columns lists the new missing ones after the old: the argument order is kept. */
  lemma {:induction false} MissingKeepsOrder(present: seq<string>, a: seq<string>, b: seq<string>)
    ensures Missing(present, a + b) == Missing(present, a) + Missing(present, b)
    decreases |a|
  {
    if a == [] {
      assert a + b == b;
    } else {
      assert (a + b)[0] == a[0];
      assert (a + b)[1..] == a[1..] + b;
      MissingKeepsOrder(present, a[1..], b);
    }
  }

  /**
   * `check_excel_for_missing_columns(xlsx, columns)`: a 500 error listing the
   * missing columns when there is at least one, else nothing.
   */
  method CheckExcelForMissingColumns(present: seq<string>, columns: seq<string>) returns (raised: Option<HttpException>)
    ensures raised.None? <==> forall c :: c in columns ==> c in present
    ensures raised.Some? ==> raised.value == HttpException(500, MissingColumns(Missing(present, columns)))
  {
    var missing := [];
    for i := 0 to |columns|
      invariant missing == Missing(present, columns[..i])
    {
      MissingKeepsOrder(present, columns[..i], [columns[i]]);
      assert columns[..i + 1] == columns[..i] + [columns[i]];
      if columns[i] !in present {
        missing := missing + [columns[i]];
      }
    }
    assert columns[..|columns|] == columns;
    if |missing| > 0 {
      assert missing[0] in missing;
      raised := Some(HttpException(500, MissingColumns(missing)));
    } else {
      raised := None;
      assert forall c :: c in columns ==> c in present;
    }
  }

  /* ---- list_duplicates ---- */

  /** A value `list_duplicates` may report: present, and neither "nan" nor empty. */
  predicate Reportable(v: Cell)
  {
    v.Some? && v.value != "nan" && v.value != ""
  }

  /** `df.duplicated(subset=[column], keep=False)` as a filter: the cells whose value occurs at least twice in `all`. */
  function Repeated(vs: seq<Cell>, all: seq<Cell>): (r: seq<Cell>)
    ensures forall v :: v in r <==> v in vs && multiset(all)[v] >= 2
    decreases |vs|
  {
    if vs == [] then []
    else (if multiset(all)[vs[0]] >= 2 then [vs[0]] else []) + Repeated(vs[1..], all)
  }

  /** `Series.unique()`: every value once, in the order of first appearance. */
  function Unique<T(==, !new)>(xs: seq<T>): (r: seq<T>)
    ensures forall x :: x in r <==> x in xs
    ensures forall i, j :: 0 <= i < j < |r| ==> r[i] != r[j]
    decreases |xs|
  {
    if xs == [] then []
    else
      var u := Unique(xs[..|xs| - 1]);
      assert forall x :: x in xs <==> x in xs[..|xs| - 1] || x == xs[|xs| - 1];
      if xs[|xs| - 1] in u then u else u + [xs[|xs| - 1]]
  }

  /** The comprehension of `list_duplicates`: the reportable values, unwrapped. */
  function Reported(xs: seq<Cell>): (r: seq<string>)
    ensures forall s :: s in r <==> Some(s) in xs && Reportable(Some(s))
    ensures (forall i, j :: 0 <= i < j < |xs| ==> xs[i] != xs[j]) ==>
              forall i, j :: 0 <= i < j < |r| ==> r[i] != r[j]
    decreases |xs|
  {
    if xs == [] then []
    else
      var rest := Reported(xs[1..]);
      assert forall x :: x in xs <==> x == xs[0] || x in xs[1..];
      assert (forall i, j :: 0 <= i < j < |xs| ==> xs[i] != xs[j]) ==>
        (xs[0] !in xs[1..] && forall i, j :: 0 <= i < j < |xs[1..]| ==> xs[1..][i] != xs[1..][j]);
      if Reportable(xs[0]) then [xs[0].value] + rest else rest
  }

  /**
   * `list_duplicates(df, column)`: every reportable value that occurs at least
   * twice in the column, each once.
   */
  function ListDuplicates(vs: seq<Cell>): (r: seq<string>)
    ensures forall s :: s in r <==> Reportable(Some(s)) && multiset(vs)[Some(s)] >= 2
    ensures forall i, j :: 0 <= i < j < |r| ==> r[i] != r[j]
  {
    var r := Reported(Unique(Repeated(vs, vs)));
    assert forall s :: multiset(vs)[Some(s)] >= 2 ==> Some(s) in vs;
    r
  }

  /**
   * A duplicates check over three columns: an exception with the given status
   * holding one entry per column that has duplicates, in column order, or
   * nothing when no column has any.
   */
  function DuplicatesCheck(status: int, m1: string, c1: seq<Cell>, m2: string, c2: seq<Cell>, m3: string, c3: seq<Cell>): (r: Option<HttpException>)
    ensures r.None? <==> ListDuplicates(c1) == [] && ListDuplicates(c2) == [] && ListDuplicates(c3) == []
    ensures r.Some? ==> r.value.statusCode == status && r.value.detail.Errors?
    ensures r.Some? ==> 1 <= |r.value.detail.errors| <= 3
    ensures r.Some? ==> forall e :: e in r.value.detail.errors ==>
      || (e == DuplicateError(m1, ListDuplicates(c1)) && ListDuplicates(c1) != [])
      || (e == DuplicateError(m2, ListDuplicates(c2)) && ListDuplicates(c2) != [])
      || (e == DuplicateError(m3, ListDuplicates(c3)) && ListDuplicates(c3) != [])
  {
    var a := DuplicatesEntry(m1, ListDuplicates(c1));
    var b := DuplicatesEntry(m2, ListDuplicates(c2));
    var c := DuplicatesEntry(m3, ListDuplicates(c3));
    assert forall e :: e in a + b + c <==> e in a || e in b || e in c;
    var errors := a + b + c;
    if |errors| > 0 then Some(HttpException(status, Errors(errors))) else None
  }

  /** Nothing is reported exactly when no reportable value repeats. */
  lemma ListDuplicatesEmpty(vs: seq<Cell>)
    ensures ListDuplicates(vs) == [] <==> forall s :: Reportable(Some(s)) ==> multiset(vs)[Some(s)] <= 1
  {
    var r := ListDuplicates(vs);
    if r != [] {
      assert r[0] in r;
    }
  }

  /** A column holding one value that is not reportable, however often, reports nothing. */
  lemma ListDuplicatesSkipsBlank(n: nat, v: Cell)
    requires !Reportable(v)
    ensures ListDuplicates(seq(n, _ => v)) == []
  {
    var col := seq(n, _ => v);
    ListDuplicatesEmpty(col);
    forall s | Reportable(Some(s)) ensures multiset(col)[Some(s)] == 0 {
      assert Some(s) != v;
      assert Some(s) !in col;
    }
  }

  /** Empty cells, "nan" and "" are never reported, however often they occur. */
  lemma ListDuplicatesSkipsBlanks(n: nat)
    ensures ListDuplicates(seq(n, _ => None)) == []
    ensures ListDuplicates(seq(n, _ => Some("nan"))) == []
    ensures ListDuplicates(seq(n, _ => Some(""))) == []
  {
    ListDuplicatesSkipsBlank(n, None);
    ListDuplicatesSkipsBlank(n, Some("nan"));
    ListDuplicatesSkipsBlank(n, Some(""));
  }
}

/**
 * The generic list query of pkg/backend/db/db.go (`genericGet` with
 * `getMeta`): a projection's rows cut to one page by a LIMIT clause, each
 * row turned into a column-name-to-value record, plus page metadata
 * computed on the projection without the limit.
 */
module Paging {
  import opened Wrappers
  import opened Rows

  /**
   * A column value as the MySQL driver scans it into an `interface{}`:
   * NULL, an integer (TINYINT and BOOLEAN columns), the raw bytes of a text
   * or JSON column, a parsed datetime; Text is a Go string.
   */
  datatype Value = Null | Int(i: int) | Bytes(data: string) | Text(s: string) | Time(t: Timestamp)

  type Record = map<string, Value>

  /** The `meta` map: page, per_page, totalRowCount and totalPages. */
  datatype Meta = Meta(page: int, perPage: int, totalRowCount: nat, totalPages: int)

  /** The `data` and `meta` entries of the response map. */
  datatype Response = Response(data: seq<Record>, meta: Meta)

  /** The `perPage` that asks for every row on one page. */
  const NoPaging := -1

  /** Go's integer `/`, which truncates toward zero. */
  function GoDiv(a: int, b: int): int
    requires b != 0
  {
    if a >= 0 then (if b > 0 then a / b else -(a / -b))
    else (if b > 0 then -((-a) / b) else (-a) / (-b))
  }

  /** Go's integer `%`, whose result has the sign of the dividend. */
  function GoMod(a: int, b: int): int
    requires b != 0
  {
    a - b * GoDiv(a, b)
  }

  /**
   * `getMeta`'s page count. With a positive page size it is the least number
   * of pages that hold every record (the ceiling of the quotient); with
   * NoPaging it is 1. A page size of 0 makes the source divide by zero.
   */
  function TotalPages(totalRecords: nat, perPage: int): (pages: int)
    requires perPage != 0
    ensures perPage == NoPaging ==> pages == 1
    ensures perPage > 0 ==> pages >= 0 && (pages - 1) * perPage < totalRecords <= pages * perPage
  {
    var whole := if perPage != NoPaging then GoDiv(totalRecords, perPage) else 1;
    var pages := if GoMod(totalRecords, perPage) > 0 then whole + 1 else whole;
    if perPage > 0 then
      var q, r := totalRecords / perPage, totalRecords % perPage;
      assert totalRecords == q * perPage + r;
      assert pages == if r > 0 then q + 1 else q;
      assert (pages - 1) * perPage == pages * perPage - perPage;
      pages
    else
      pages
  }

  /** The first row of page `page`: the offset of the LIMIT clause. */
  function Offset(page: int, perPage: int): int
  {
    (page - 1) * perPage
  }

  /** The server refuses a LIMIT clause with a negative offset or row count. */
  predicate LimitRejected(page: int, perPage: int)
  {
    perPage != NoPaging && (perPage < 0 || Offset(page, perPage) < 0)
  }

  /**
   * When the LIMIT clause is refused: never without paging; with a positive
   * page size exactly for a page number below 1; always for a page size
   * below -1; never for page size 0, whose offset is 0.
   */
  lemma LimitRejectedWhen(page: int, perPage: int)
    ensures perPage == NoPaging ==> !LimitRejected(page, perPage)
    ensures perPage > 0 ==> (LimitRejected(page, perPage) <==> page < 1)
    ensures perPage < NoPaging ==> LimitRejected(page, perPage)
    ensures perPage == 0 ==> !LimitRejected(page, perPage)
  {
    if perPage > 0 {
      if page < 1 {
        assert (page - 1) * perPage <= -perPage;
      } else {
        assert (page - 1) * perPage >= 0;
      }
    }
  }

  /**
   * The rows `LIMIT offset, perPage` returns: those at indices
   * `[offset, offset + perPage)` clipped to the projection, in order; with
   * NoPaging there is no LIMIT and every row is returned.
   */
  function Window<R>(rows: seq<R>, page: int, perPage: int): (w: seq<R>)
    requires !LimitRejected(page, perPage)
    ensures perPage == NoPaging ==> w == rows
    ensures perPage != NoPaging ==>
      |w| == (if Offset(page, perPage) >= |rows| then 0
              else if Offset(page, perPage) + perPage <= |rows| then perPage
              else |rows| - Offset(page, perPage))
    ensures perPage != NoPaging ==>
      forall k :: 0 <= k < |w| ==> w[k] == rows[Offset(page, perPage) + k]
  {
    if perPage == NoPaging then rows
    else
      var lo := Offset(page, perPage);
      if lo >= |rows| then []
      else if lo + perPage <= |rows| then rows[lo..lo + perPage]
      else rows[lo..]
  }

  /** A page's size depends only on the number of rows it is cut from. */
  lemma WindowLength<A, B>(xs: seq<A>, ys: seq<B>, page: int, perPage: int)
    requires !LimitRejected(page, perPage)
    requires |xs| == |ys|
    ensures |Window(xs, page, perPage)| == |Window(ys, page, perPage)|
  {
  }

  /** Row k of a page is row `Offset + k` of the table. */
  lemma WindowAt<R>(rows: seq<R>, page: int, perPage: int, k: nat)
    requires !LimitRejected(page, perPage) && perPage != NoPaging
    requires k < |Window(rows, page, perPage)|
    ensures 0 <= Offset(page, perPage) + k < |rows|
    ensures Window(rows, page, perPage)[k] == rows[Offset(page, perPage) + k]
  {
  }

  /** The pages 1 to n, one after the other. */
  function PagesUpTo<R>(rows: seq<R>, perPage: int, n: nat): seq<R>
    requires perPage > 0
  {
    if n == 0 then [] else PagesUpTo(rows, perPage, n - 1) + Window(rows, n, perPage)
  }

  function Min(a: int, b: int): int
  {
    if a <= b then a else b
  }

  /** Page n ends where page n + 1 starts. */
  lemma PageEnd(n: nat, perPage: int)
    requires perPage > 0 && n > 0
    ensures Offset(n, perPage) >= 0
    ensures Offset(n, perPage) + perPage == n * perPage
  {
  }

  /** Pages 1 to n are the rows before the end of page n. */
  lemma {:induction false} PagesUpToIsPrefix<R>(rows: seq<R>, perPage: int, n: nat)
    requires perPage > 0
    ensures n * perPage >= 0
    ensures PagesUpTo(rows, perPage, n) == rows[..Min(n * perPage, |rows|)]
  {
    if n > 0 {
      PagesUpToIsPrefix(rows, perPage, n - 1);
      PageEnd(n, perPage);
      var lo := Offset(n, perPage);
      var before := rows[..Min(lo, |rows|)];
      var w := Window(rows, n, perPage);
      assert PagesUpTo(rows, perPage, n) == before + w;
      PrefixThenWindow(rows, lo, perPage, before, w);
    }
  }

  /** The rows before `lo`, followed by the (clipped) slice from `lo`, are the rows before `lo + len`. */
  lemma PrefixThenWindow<R>(rows: seq<R>, lo: nat, len: nat, before: seq<R>, w: seq<R>)
    requires before == rows[..Min(lo, |rows|)]
    requires |w| == (if lo >= |rows| then 0 else if lo + len <= |rows| then len else |rows| - lo)
    requires forall k :: 0 <= k < |w| ==> w[k] == rows[lo + k]
    ensures before + w == rows[..Min(lo + len, |rows|)]
  {
  }

  /**
   * The pages 1 to TotalPages, read one after the other, are exactly the
   * projection's rows: no row is skipped or repeated.
   */
  lemma PagesCoverRows<R>(rows: seq<R>, perPage: int)
    requires perPage > 0
    ensures PagesUpTo(rows, perPage, TotalPages(|rows|, perPage)) == rows
  {
    var n := TotalPages(|rows|, perPage);
    PagesUpToIsPrefix(rows, perPage, n);
    assert rows[..|rows|] == rows;
  }

  /** Exactly the pages 1 to TotalPages hold rows. */
  lemma NonEmptyPages<R>(rows: seq<R>, page: int, perPage: int)
    requires perPage > 0 && page >= 1
    ensures Window(rows, page, perPage) != [] <==> page <= TotalPages(|rows|, perPage)
  {
    var n := TotalPages(|rows|, perPage);
    var lo := Offset(page, perPage);
    if page <= n {
      MulMonotone(page - 1, n - 1, perPage);
      assert lo < |rows|;
    } else {
      MulMonotone(n, page - 1, perPage);
      assert lo >= |rows|;
    }
  }

  lemma MulMonotone(a: int, b: int, c: int)
    requires a <= b && c > 0
    ensures a * c <= b * c
  {
    assert b * c - a * c == (b - a) * c;
  }

  /**
   * A scanned value as it lands in a record: bytes become the string with
   * the same characters, anything else passes unchanged, so no raw bytes
   * ever reach a record.
   */
  function Convert(v: Value): (r: Value)
    ensures !r.Bytes?
    ensures v.Bytes? ==> r == Text(v.data)
    ensures !v.Bytes? ==> r == v
  {
    if v.Bytes? then Text(v.data) else v
  }

  /**
   * The record of one row, built column by column; a later column overwrites
   * an earlier one of the same name. Its keys are exactly the column names.
   */
  function ToRecord(columns: seq<string>, values: seq<Value>): (r: Record)
    requires |values| == |columns|
    ensures r.Keys == set c | c in columns
  {
    if |columns| == 0 then map[]
    else
      var n := |columns| - 1;
      assert forall c :: c in columns <==> c in columns[..n] || c == columns[n];
      ToRecord(columns[..n], values[..n])[columns[n] := Convert(values[n])]
  }

  /**
   * Each column of a record holds its converted value; for a name that
   * occurs more than once, the value of its last occurrence.
   */
  lemma {:induction false} RecordValue(columns: seq<string>, values: seq<Value>, i: nat)
    requires |values| == |columns|
    requires i < |columns| && columns[i] !in columns[i + 1..]
    ensures columns[i] in ToRecord(columns, values)
    ensures ToRecord(columns, values)[columns[i]] == Convert(values[i])
  {
    var n := |columns| - 1;
    if i < n {
      assert columns[n] in columns[i + 1..];
      assert columns[..n][i + 1..] == columns[i + 1..n];
      RecordValue(columns[..n], values[..n], i);
    }
  }

  /** Record `r` has column `column`, holding `v`. */
  predicate Holds(r: Record, column: string, v: Value)
  {
    column in r && r[column] == v
  }

  /** With distinct column names, every column holds its own converted value. */
  lemma RecordOfDistinct(columns: seq<string>, values: seq<Value>)
    requires |values| == |columns|
    requires forall i, j :: 0 <= i < j < |columns| ==> columns[i] != columns[j]
    ensures forall i :: 0 <= i < |columns| ==>
      columns[i] in ToRecord(columns, values) && ToRecord(columns, values)[columns[i]] == Convert(values[i])
  {
    forall i | 0 <= i < |columns|
      ensures columns[i] in ToRecord(columns, values) && ToRecord(columns, values)[columns[i]] == Convert(values[i])
    {
      assert columns[i] !in columns[i + 1..];
      RecordValue(columns, values, i);
    }
  }

  /** Every row of a result set has one value per column. */
  predicate WellFormed(columns: seq<string>, rows: seq<seq<Value>>)
  {
    forall k :: 0 <= k < |rows| ==> |rows[k]| == |columns|
  }

  /**
   * `genericGet` over a projection whose full result (without LIMIT) is
   * `rows`: a rejected LIMIT is an error; otherwise the page's rows in order,
   * each as its record, and the metadata of the full projection.
   */
  method GenericGet(columns: seq<string>, rows: seq<seq<Value>>, page: int, perPage: int)
    returns (r: Result<Response, DbError>)
    requires perPage != 0
    requires WellFormed(columns, rows)
    ensures r.Err? <==> LimitRejected(page, perPage)
    ensures r.Err? ==> r.error == InvalidLimit
    ensures r.Ok? ==> r.value.meta == Meta(page, perPage, |rows|, TotalPages(|rows|, perPage))
    ensures r.Ok? ==> |r.value.data| == |Window(rows, page, perPage)|
    ensures r.Ok? ==> forall k :: 0 <= k < |r.value.data| ==>
              r.value.data[k] == ToRecord(columns, Window(rows, page, perPage)[k])
  {
    if LimitRejected(page, perPage) {
      return Err(InvalidLimit);
    }
    var fetched := Window(rows, page, perPage);
    var data: seq<Record> := [];
    var k := 0;
    while k < |fetched|
      invariant 0 <= k <= |fetched|
      invariant |data| == k
      invariant forall j :: 0 <= j < k ==> data[j] == ToRecord(columns, fetched[j])
    {
      var values := fetched[k];
      assert values in rows;
      var rec: Record := map[];
      var i := 0;
      while i < |columns|
        invariant 0 <= i <= |columns|
        invariant rec == ToRecord(columns[..i], values[..i])
      {
        rec := rec[columns[i] := Convert(values[i])];
        i := i + 1;
        assert columns[..i][..i - 1] == columns[..i - 1];
        assert values[..i][..i - 1] == values[..i - 1];
      }
      assert columns[..i] == columns && values[..i] == values;
      data := data + [rec];
      k := k + 1;
    }
    var meta := Meta(page, perPage, |rows|, TotalPages(|rows|, perPage));
    return Ok(Response(data, meta));
  }
}

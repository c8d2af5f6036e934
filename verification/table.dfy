/**
 * A table as a sequence of rows in table order, with the two things the
 * server does with it on this layer's behalf: pick the first row a
 * single-row query matches, and insert-or-update a row by its primary key.
 */
module Table {
  import opened Wrappers

  /** The index of the first row satisfying `p`, in table order. */
  function FirstIndex<R>(rows: seq<R>, p: R -> bool): (r: Option<nat>)
    ensures r.Some? ==> r.value < |rows| && p(rows[r.value])
    ensures r.Some? ==> forall j :: 0 <= j < r.value ==> !p(rows[j])
    ensures r.None? <==> forall j :: 0 <= j < |rows| ==> !p(rows[j])
    decreases |rows|
  {
    if |rows| == 0 then None
    else if p(rows[0]) then Some(0)
    else match FirstIndex(rows[1..], p)
      case None => None
      case Some(i) => Some(i + 1)
  }

  /** The row a single-row query with condition `p` returns, if any. */
  function First<R>(rows: seq<R>, p: R -> bool): (r: Option<R>)
    ensures r.Some? <==> exists j :: 0 <= j < |rows| && p(rows[j])
    ensures r.Some? ==> exists i :: 0 <= i < |rows| && rows[i] == r.value && p(rows[i])
                                    && forall j :: 0 <= j < i ==> !p(rows[j])
  {
    match FirstIndex(rows, p)
    case None => None
    case Some(i) => Some(rows[i])
  }

  /** The stored row whose primary key is `k`. */
  function Lookup<R>(rows: seq<R>, key: R -> string, k: string): Option<R>
  {
    First(rows, (x: R) => key(x) == k)
  }

  /** The primary-key constraint: no two rows share a key. */
  ghost predicate UniqueKeys<R>(rows: seq<R>, key: R -> string)
  {
    forall i, j :: 0 <= i < j < |rows| ==> key(rows[i]) != key(rows[j])
  }

  /**
   * `INSERT ... ON DUPLICATE KEY UPDATE`: a row whose key is new is appended;
   * otherwise the stored row is replaced, in place, by `merge(stored, row)`,
   * where `merge` keeps the stored columns the UPDATE clause does not name.
   */
  function Upsert<R>(rows: seq<R>, key: R -> string, row: R, merge: (R, R) -> R): (r: seq<R>)
    ensures |r| == |rows| + (if exists j :: 0 <= j < |rows| && key(rows[j]) == key(row) then 0 else 1)
    ensures forall j :: 0 <= j < |rows| && key(rows[j]) != key(row) ==> r[j] == rows[j]
    ensures (forall j :: 0 <= j < |rows| ==> key(rows[j]) != key(row)) ==> r[|rows|] == row
    ensures (exists j :: 0 <= j < |rows| && key(rows[j]) == key(row)) ==>
      exists i :: 0 <= i < |rows| && key(rows[i]) == key(row) && r[i] == merge(rows[i], row)
                  && (forall j :: 0 <= j < i ==> key(rows[j]) != key(row))
                  && (forall j :: i < j < |rows| ==> r[j] == rows[j])
  {
    match FirstIndex(rows, (x: R) => key(x) == key(row))
    case None => rows + [row]
    case Some(i) => rows[i := merge(rows[i], row)]
  }

  /** A merge that keeps the key of the stored row. */
  ghost predicate KeepsKey<R(!new)>(key: R -> string, row: R, merge: (R, R) -> R)
  {
    forall e {:trigger merge(e, row)} :: key(e) == key(row) ==> key(merge(e, row)) == key(e)
  }

  /** FirstIndex is determined by its contract. */
  lemma FirstIndexIs<R>(rows: seq<R>, p: R -> bool, i: nat)
    requires i < |rows| && p(rows[i])
    requires forall j :: 0 <= j < i ==> !p(rows[j])
    ensures FirstIndex(rows, p) == Some(i)
  {
  }

  /** Appending a row that does not match leaves the first match as it was. */
  lemma FirstAppendNoMatch<R>(rows: seq<R>, x: R, p: R -> bool)
    requires !p(x)
    ensures First(rows + [x], p) == First(rows, p)
  {
    match FirstIndex(rows, p)
    case None =>
      assert forall j :: 0 <= j < |rows + [x]| ==> !p((rows + [x])[j]);
    case Some(i) =>
      FirstIndexIs(rows + [x], p, i);
  }

  /** Replacing a non-matching row by a non-matching row leaves the first match as it was. */
  lemma FirstUpdateNoMatch<R>(rows: seq<R>, i: nat, v: R, p: R -> bool)
    requires i < |rows| && !p(rows[i]) && !p(v)
    ensures First(rows[i := v], p) == First(rows, p)
  {
    var after := rows[i := v];
    assert forall j :: 0 <= j < |after| ==> (p(after[j]) <==> p(rows[j]));
    match FirstIndex(rows, p)
    case None =>
    case Some(f) =>
      FirstIndexIs(after, p, f);
  }

  /** When the key is unique, the row at index `i` is the one Lookup finds. */
  lemma LookupAt<R>(rows: seq<R>, key: R -> string, i: nat)
    requires UniqueKeys(rows, key)
    requires i < |rows|
    ensures Lookup(rows, key, key(rows[i])) == Some(rows[i])
  {
    FirstIndexIs(rows, (x: R) => key(x) == key(rows[i]), i);
  }

  /** An upsert whose key is first stored at index `i` merges into that row, in place. */
  lemma UpsertAt<R>(rows: seq<R>, key: R -> string, row: R, merge: (R, R) -> R, i: nat)
    requires i < |rows| && key(rows[i]) == key(row)
    requires forall j :: 0 <= j < i ==> key(rows[j]) != key(row)
    ensures Upsert(rows, key, row, merge) == rows[i := merge(rows[i], row)]
  {
    FirstIndexIs(rows, (x: R) => key(x) == key(row), i);
  }

  /** An upsert whose key is not stored appends the row. */
  lemma UpsertNew<R>(rows: seq<R>, key: R -> string, row: R, merge: (R, R) -> R)
    requires forall j :: 0 <= j < |rows| ==> key(rows[j]) != key(row)
    ensures Upsert(rows, key, row, merge) == rows + [row]
  {
    var p := (x: R) => key(x) == key(row);
    assert forall j :: 0 <= j < |rows| ==> !p(rows[j]);
  }

  /**
   * The key-to-row view after an upsert: the upserted key maps to the merged
   * row (or to `row` itself when it was absent), every other key keeps its
   * row, and keys stay unique.
   */
  lemma {:induction false} UpsertLookup<R(!new)>(rows: seq<R>, key: R -> string, row: R, merge: (R, R) -> R, k: string)
    requires UniqueKeys(rows, key)
    requires KeepsKey(key, row, merge)
    ensures UniqueKeys(Upsert(rows, key, row, merge), key)
    ensures Lookup(Upsert(rows, key, row, merge), key, k) ==
      if k != key(row) then Lookup(rows, key, k)
      else match Lookup(rows, key, k)
        case Some(e) => Some(merge(e, row))
        case None => Some(row)
  {
    var p := (x: R) => key(x) == key(row);
    var q := (x: R) => key(x) == k;
    match FirstIndex(rows, p)
    case None =>
      assert forall j :: 0 <= j < |rows| ==> key(rows[j]) != key(row);
      UpsertNew(rows, key, row, merge);
      var after := rows + [row];
      assert UniqueKeys(after, key);
      if k == key(row) {
        LookupAt(after, key, |rows|);
      } else {
        FirstAppendNoMatch(rows, row, q);
      }
    case Some(i) =>
      assert p(rows[i]);
      UpsertAt(rows, key, row, merge, i);
      var after := rows[i := merge(rows[i], row)];
      assert key(after[i]) == key(rows[i]);
      assert forall j :: 0 <= j < |after| ==> key(after[j]) == key(rows[j]);
      assert UniqueKeys(after, key);
      if k == key(row) {
        LookupAt(rows, key, i);
        LookupAt(after, key, i);
      } else {
        FirstUpdateNoMatch(rows, i, merge(rows[i], row), q);
      }
  }

  /** Storing the same row twice is storing it once. */
  lemma {:induction false} UpsertIdempotent<R(!new)>(rows: seq<R>, key: R -> string, row: R, merge: (R, R) -> R)
    requires KeepsKey(key, row, merge)
    requires merge(row, row) == row
    requires forall e {:trigger merge(e, row)} :: key(e) == key(row) ==> merge(merge(e, row), row) == merge(e, row)
    ensures Upsert(Upsert(rows, key, row, merge), key, row, merge) == Upsert(rows, key, row, merge)
  {
    var p := (x: R) => key(x) == key(row);
    match FirstIndex(rows, p)
    case None =>
      assert forall j :: 0 <= j < |rows| ==> key(rows[j]) != key(row);
      UpsertNew(rows, key, row, merge);
      var once := rows + [row];
      UpsertAt(once, key, row, merge, |rows|);
    case Some(i) =>
      assert p(rows[i]);
      UpsertAt(rows, key, row, merge, i);
      var once := rows[i := merge(rows[i], row)];
      UpsertAt(once, key, row, merge, i);
  }

  /**
   * Once a key is stored, a second upsert with the same key wipes out
   * everything the first one changed: the later write wins.
   */
  lemma {:induction false} UpsertSupersedes<R(!new)>(rows: seq<R>, key: R -> string, a: R, b: R, merge: (R, R) -> R)
    requires key(a) == key(b)
    requires exists i :: 0 <= i < |rows| && key(rows[i]) == key(a)
    requires KeepsKey(key, a, merge)
    requires forall e {:trigger merge(e, a)} :: key(e) == key(a) ==> merge(merge(e, a), b) == merge(e, b)
    ensures Upsert(Upsert(rows, key, a, merge), key, b, merge) == Upsert(rows, key, b, merge)
  {
    var i := FirstStored(rows, key, key(a));
    UpsertAt(rows, key, a, merge, i);
    var once := rows[i := merge(rows[i], a)];
    UpsertAt(once, key, b, merge, i);
    UpsertAt(rows, key, b, merge, i);
    assert merge(once[i], b) == merge(rows[i], b);
    assert once[i := merge(rows[i], b)] == rows[i := merge(rows[i], b)];
  }

  /** The index of the first stored row with key `k`, when there is one. */
  lemma FirstStored<R>(rows: seq<R>, key: R -> string, k: string) returns (i: nat)
    requires exists i :: 0 <= i < |rows| && key(rows[i]) == k
    ensures i < |rows| && key(rows[i]) == k
    ensures forall j :: 0 <= j < i ==> key(rows[j]) != k
  {
    var p := (x: R) => key(x) == k;
    var stored :| 0 <= stored < |rows| && key(rows[stored]) == k;
    assert p(rows[stored]);
    i := FirstIndex(rows, p).value;
    assert p(rows[i]);
  }

  /**
   * The rows satisfying `p`, in table order: the rows a WHERE clause keeps,
   * each as often as it is stored.
   */
  function Filter<R(!new)>(rows: seq<R>, p: R -> bool): (r: seq<R>)
    ensures |r| <= |rows|
    ensures forall x :: x in r <==> x in rows && p(x)
    ensures forall x :: multiset(r)[x] == if p(x) then multiset(rows)[x] else 0
    decreases |rows|
  {
    if |rows| == 0 then []
    else
      var rest := Filter(rows[1..], p);
      assert rows == [rows[0]] + rows[1..];
      assert multiset(rows) == multiset([rows[0]]) + multiset(rows[1..]);
      if p(rows[0]) then [rows[0]] + rest else rest
  }

  /**
   * Filtering keeps table order: the filter of two runs of rows is the
   * filter of the first followed by the filter of the second.
   */
  lemma {:induction false} FilterAppend<R(!new)>(a: seq<R>, b: seq<R>, p: R -> bool)
    ensures Filter(a + b, p) == Filter(a, p) + Filter(b, p)
    decreases |a|
  {
    if |a| > 0 {
      assert (a + b)[1..] == a[1..] + b;
      FilterAppend(a[1..], b, p);
    } else {
      assert a + b == b;
    }
  }
}

/**
 * The client-side sort shared, as identical copies, by PlayerTable and LeaderBoard:
 * the header-click state machine, the key lookup (row field, else statistics field),
 * the comparator, and `[...data].sort(comparator)`.
 *
 * `Array.prototype.sort` is stable; the model sorts by stable insertion, which orders a
 * consistent comparator's input exactly as any stable sort does. `localeCompare` is a
 * parameter (`lc`): it depends on the locale.
 */
module Sorting {
  import opened Wrappers
  import opened Js
  import opened Rows

  datatype Direction = Asc | Desc
  datatype SortState = SortState(column: string, direction: Direction)

  /** `handleSort(column)` */
  function HandleSort(s: SortState, column: string): (r: SortState)
    ensures r.column == column
    ensures s.column == column ==> r.direction != s.direction
    ensures s.column != column ==> r.direction == Asc
  {
    if s.column == column then
      s.(direction := if s.direction == Asc then Desc else Asc)
    else
      SortState(column, Asc)
  }

  /** Clicking the same header twice restores the state: asc, desc, asc, ... */
  lemma HandleSortCycles(s: SortState, column: string)
    ensures HandleSort(HandleSort(HandleSort(s, column), column), column) == HandleSort(s, column)
    ensures s.column == column ==> HandleSort(HandleSort(s, column), column) == s
  {
  }

  /** `column in row ? row[column] : row.statistics[column]`; `None` is the TypeError on missing statistics. */
  function SortValue(row: Row, column: string): (v: Option<JsValue>)
    ensures column in row ==> v == Some(row[column])
    ensures v.None? <==> column !in row && Nullish(Prop(row, "statistics"))
  {
    if column in row then Some(row[column]) else Member(Prop(row, "statistics"), column)
  }

  /** The key the comparator reads; a lookup that throws is left to `Throws`. */
  function Key(row: Row, column: string): (v: JsValue)
    ensures column in row ==> v == row[column]
    ensures column !in row && !Nullish(Prop(row, "statistics")) ==> v == OptionalMember(Prop(row, "statistics"), column)
    ensures column !in row && Nullish(Prop(row, "statistics")) ==> v == Undefined
  {
    match SortValue(row, column)
    case Some(v) => v
    case None => Undefined
  }

  /** The comparator: strings by `localeCompare`, numbers by subtraction, anything else ties. */
  function Compare(a: Row, b: Row, s: SortState, lc: (string, string) -> int): (c: int)
    ensures var x, y := Key(a, s.column), Key(b, s.column);
      x.Str? && y.Str? ==> c == (if s.direction == Asc then lc(x.s, y.s) else lc(y.s, x.s))
    ensures var x, y := Key(a, s.column), Key(b, s.column);
      x.Num? && y.Num? ==> c == (if s.direction == Asc then x.n - y.n else y.n - x.n)
    ensures var x, y := Key(a, s.column), Key(b, s.column);
      x.Num? && y.Num? ==> (c > 0 <==> (if s.direction == Asc then x.n > y.n else x.n < y.n))
    ensures var x, y := Key(a, s.column), Key(b, s.column);
      !(x.Str? && y.Str?) && !(x.Num? && y.Num?) ==> c == 0
  {
    var x := Key(a, s.column);
    var y := Key(b, s.column);
    if x.Str? && y.Str? then
      (if s.direction == Asc then lc(x.s, y.s) else lc(y.s, x.s))
    else if x.Num? && y.Num? then
      (if s.direction == Asc then x.n - y.n else y.n - x.n)
    else 0
  }

  /** Puts `x` before the first row it does not follow (stable: before its equals). */
  function Insert(x: Row, sorted: seq<Row>, s: SortState, lc: (string, string) -> int): (r: seq<Row>)
    ensures multiset(r) == multiset(sorted) + multiset{x}
    ensures |r| == |sorted| + 1
  {
    if sorted == [] || Compare(x, sorted[0], s, lc) <= 0 then [x] + sorted
    else
      assert sorted == [sorted[0]] + sorted[1..];
      [sorted[0]] + Insert(x, sorted[1..], s, lc)
  }

  function InsertionSort(rows: seq<Row>, s: SortState, lc: (string, string) -> int): (r: seq<Row>)
    ensures multiset(r) == multiset(rows)
    ensures |r| == |rows|
  {
    if rows == [] then []
    else
      assert rows == [rows[0]] + rows[1..];
      Insert(rows[0], InsertionSort(rows[1..], s, lc), s, lc)
  }

  predicate Throws(rows: seq<Row>, column: string) {
    |rows| >= 2 && exists i :: 0 <= i < |rows| && SortValue(rows[i], column).None?
  }

  /**
   * `sortedData`: a sorted copy of `data`. With two or more rows every row is compared,
   * so a row whose key has to come from a missing `statistics` makes the sort throw.
   */
  function SortRows(rows: seq<Row>, s: SortState, lc: (string, string) -> int): (r: Option<seq<Row>>)
    ensures r.None? <==> Throws(rows, s.column)
    ensures r.Some? ==> multiset(r.value) == multiset(rows) && |r.value| == |rows|
  {
    if Throws(rows, s.column) then None else Some(InsertionSort(rows, s, lc))
  }

  // ---- Order of a numeric column ----

  predicate NumericKeys(rows: seq<Row>, column: string) {
    forall i :: 0 <= i < |rows| ==> Key(rows[i], column).Num?
  }

  function NumKey(row: Row, column: string): int {
    match Key(row, column)
    case Num(n) => n
    case _ => 0
  }

  predicate InOrder(a: Row, b: Row, s: SortState) {
    var x := Key(a, s.column);
    var y := Key(b, s.column);
    x.Num? && y.Num? && (if s.direction == Asc then x.n <= y.n else x.n >= y.n)
  }

  predicate Ordered(rows: seq<Row>, s: SortState) {
    forall i, j :: 0 <= i < j < |rows| ==> InOrder(rows[i], rows[j], s)
  }

  /** On numeric keys the comparator says "not after" exactly when the pair is in order. */
  lemma CompareNumeric(a: Row, b: Row, s: SortState, lc: (string, string) -> int)
    requires Key(a, s.column).Num? && Key(b, s.column).Num?
    ensures Compare(a, b, s, lc) <= 0 ==> InOrder(a, b, s)
    ensures Compare(a, b, s, lc) > 0 ==> InOrder(b, a, s)
  {
  }

  lemma InOrderTransitive(a: Row, b: Row, c: Row, s: SortState)
    requires InOrder(a, b, s) && InOrder(b, c, s)
    ensures InOrder(a, c, s)
  {
  }

  /** A row in order before the head of an ordered sequence is ordered before all of it. */
  lemma ConsOrdered(x: Row, sorted: seq<Row>, s: SortState)
    requires Ordered(sorted, s)
    requires forall e :: e in multiset(sorted) ==> InOrder(x, e, s)
    ensures Ordered([x] + sorted, s)
  {
    var r := [x] + sorted;
    forall i, j | 0 <= i < j < |r| ensures InOrder(r[i], r[j], s) {
      assert r[j] == sorted[j - 1];
      if i > 0 {
        assert r[i] == sorted[i - 1];
      } else {
        assert sorted[j - 1] in multiset(sorted);
      }
    }
  }

  lemma HeadBeforeAll(sorted: seq<Row>, s: SortState)
    requires sorted != [] && Ordered(sorted, s)
    ensures forall e :: e in multiset(sorted[1..]) ==> InOrder(sorted[0], e, s)
    ensures Ordered(sorted[1..], s)
  {
    var rest := sorted[1..];
    forall e | e in multiset(rest) ensures InOrder(sorted[0], e, s) {
      var k :| 0 <= k < |rest| && rest[k] == e;
      assert sorted[k + 1] == e;
    }
    forall i, j | 0 <= i < j < |rest| ensures InOrder(rest[i], rest[j], s) {
      assert rest[i] == sorted[i + 1] && rest[j] == sorted[j + 1];
    }
  }

  lemma {:induction false} InsertOrdered(x: Row, sorted: seq<Row>, s: SortState, lc: (string, string) -> int)
    requires Key(x, s.column).Num?
    requires NumericKeys(sorted, s.column)
    requires Ordered(sorted, s)
    ensures Ordered(Insert(x, sorted, s, lc), s)
    decreases |sorted|
  {
    if sorted != [] {
      var head := sorted[0];
      var rest := sorted[1..];
      CompareNumeric(x, head, s, lc);
      HeadBeforeAll(sorted, s);
      if Compare(x, head, s, lc) <= 0 {
        forall e | e in multiset(sorted) ensures InOrder(x, e, s) {
          if e != head {
            assert sorted == [head] + rest;
            assert e in multiset(rest);
            InOrderTransitive(x, head, e, s);
          }
        }
        ConsOrdered(x, sorted, s);
      } else {
        assert NumericKeys(rest, s.column) by {
          forall i | 0 <= i < |rest| ensures Key(rest[i], s.column).Num? {
            assert rest[i] == sorted[i + 1];
          }
        }
        InsertOrdered(x, rest, s, lc);
        var tail := Insert(x, rest, s, lc);
        assert forall e :: e in multiset(tail) ==> InOrder(head, e, s);
        ConsOrdered(head, tail, s);
      }
    }
  }

  lemma {:induction false} InsertionSortOrdered(rows: seq<Row>, s: SortState, lc: (string, string) -> int)
    requires NumericKeys(rows, s.column)
    ensures Ordered(InsertionSort(rows, s, lc), s)
    ensures NumericKeys(InsertionSort(rows, s, lc), s.column)
    decreases |rows|
  {
    if rows != [] {
      var rest := InsertionSort(rows[1..], s, lc);
      assert NumericKeys(rows[1..], s.column) by {
        forall i | 0 <= i < |rows[1..]| ensures Key(rows[1..][i], s.column).Num? {
          assert rows[1..][i] == rows[i + 1];
        }
      }
      InsertionSortOrdered(rows[1..], s, lc);
      InsertOrdered(rows[0], rest, s, lc);
      var r := InsertionSort(rows, s, lc);
      forall i | 0 <= i < |r| ensures Key(r[i], s.column).Num? {
        assert r[i] in multiset(rows);
        var k :| 0 <= k < |rows| && rows[k] == r[i];
      }
    }
  }

  /**
   * On a column whose keys are all numbers, `sortedData` is ordered by that key,
   * ascending for `asc` and descending for `desc`, and is a permutation of `data`.
   */
  lemma NumericColumnSorts(rows: seq<Row>, s: SortState, lc: (string, string) -> int)
    requires NumericKeys(rows, s.column)
    ensures SortRows(rows, s, lc).Some?
    ensures var r := SortRows(rows, s, lc).value;
      multiset(r) == multiset(rows)
      && forall i, j :: 0 <= i < j < |r| ==>
           if s.direction == Asc then NumKey(r[i], s.column) <= NumKey(r[j], s.column)
           else NumKey(r[i], s.column) >= NumKey(r[j], s.column)
  {
    InsertionSortOrdered(rows, s, lc);
  }

  // ---- Columns on which every pair ties ----

  lemma AllTiesKeepOrder(rows: seq<Row>, s: SortState, lc: (string, string) -> int)
    requires forall i, j :: 0 <= i < |rows| && 0 <= j < |rows| ==> Compare(rows[i], rows[j], s, lc) == 0
    ensures InsertionSort(rows, s, lc) == rows
  {
    TiesKeepSuffix(rows, 0, s, lc);
    assert rows[0..] == rows;
  }

  /** Each suffix of an all-ties list is already sorted. */
  lemma {:induction false} TiesKeepSuffix(rows: seq<Row>, k: nat, s: SortState, lc: (string, string) -> int)
    requires k <= |rows|
    requires forall i, j :: 0 <= i < |rows| && 0 <= j < |rows| ==> Compare(rows[i], rows[j], s, lc) == 0
    ensures InsertionSort(rows[k..], s, lc) == rows[k..]
    decreases |rows| - k
  {
    if k < |rows| {
      TiesKeepSuffix(rows, k + 1, s, lc);
      var tail := rows[k..];
      assert tail[0] == rows[k] && tail[1..] == rows[k + 1..];
      if k + 1 < |rows| {
        assert rows[k + 1..][0] == rows[k + 1];
        assert Compare(rows[k], rows[k + 1], s, lc) == 0;
      }
      assert tail == [rows[k]] + rows[k + 1..];
    }
  }

  /** A key carried neither by a row nor by its statistics. */
  predicate Absent(row: Row, column: string) {
    column !in row && Prop(row, "statistics").Obj? && column !in Prop(row, "statistics").fields
  }

  /** When no row carries the key, every pair ties and `sortedData` keeps the order of `data`. */
  lemma AbsentKeyKeepsOrder(rows: seq<Row>, s: SortState, lc: (string, string) -> int)
    requires forall i :: 0 <= i < |rows| ==> Absent(rows[i], s.column)
    ensures SortRows(rows, s, lc) == Some(rows)
  {
    forall i | 0 <= i < |rows| ensures Key(rows[i], s.column) == Undefined {
    }
    AllTiesKeepOrder(rows, s, lc);
  }

  /** ASCII lower-casing, as `header.toLowerCase()` does on the headers' letters. */
  function LowerCase(text: string): (r: string)
    ensures |r| == |text|
    ensures forall i :: 0 <= i < |text| ==> r[i] == (if 'A' <= text[i] <= 'Z' then (text[i] as int + 32) as char else text[i])
  {
    if text == [] then []
    else
      var c := text[0];
      [if 'A' <= c <= 'Z' then (c as int + 32) as char else c] + LowerCase(text[1..])
  }

  /** Lower-casing changes letters only: a space stays where it was. */
  lemma {:induction false} LowerCaseKeepsSpaces(text: string, k: nat)
    requires k < |text| && text[k] == ' '
    ensures LowerCase(text)[k] == ' '
  {
    if k > 0 {
      LowerCaseKeepsSpaces(text[1..], k - 1);
    }
  }
}

/**
 * Table records and the by-id updates the tables apply to their `data` array:
 * PlayerTable's `toggleSwitch` and `saveEdit` (both a `map`) and UserTable's
 * `handleDelete` (a `filter`).
 */
module Rows {
  import opened Js

  /** A record of a table: the own properties of one JSON object. */
  type Row = map<string, JsValue>

  function Prop(row: Row, key: string): JsValue {
    if key in row then row[key] else Undefined
  }

  function RowId(row: Row): JsValue {
    Prop(row, "id")
  }

  /** `data.map((user) => user.id === id ? { ...user, active } : user)` */
  function SetActiveWhereId(data: seq<Row>, id: string, active: bool): (r: seq<Row>)
    ensures |r| == |data|
    ensures forall i :: 0 <= i < |data| && RowId(data[i]) == Str(id) ==> r[i] == data[i]["active" := Bool(active)]
    ensures forall i :: 0 <= i < |data| && RowId(data[i]) != Str(id) ==> r[i] == data[i]
  {
    if data == [] then []
    else
      var head := if RowId(data[0]) == Str(id) then data[0]["active" := Bool(active)] else data[0];
      [head] + SetActiveWhereId(data[1..], id, active)
  }

  /** `data.map((user) => user.id === edited.id ? edited : user)` */
  function ReplaceWhereId(data: seq<Row>, edited: Row): (r: seq<Row>)
    ensures |r| == |data|
    ensures forall i :: 0 <= i < |data| && StrictEquals(RowId(data[i]), RowId(edited)) ==> r[i] == edited
    ensures forall i :: 0 <= i < |data| && !StrictEquals(RowId(data[i]), RowId(edited)) ==> r[i] == data[i]
  {
    if data == [] then []
    else
      var head := if StrictEquals(RowId(data[0]), RowId(edited)) then edited else data[0];
      [head] + ReplaceWhereId(data[1..], edited)
  }

  /** An edited record without an `id` matches, and replaces, every row without one. */
  lemma ReplaceWithoutIdHitsRowsWithoutId(data: seq<Row>, edited: Row, i: nat)
    requires "id" !in edited && i < |data| && "id" !in data[i]
    ensures ReplaceWhereId(data, edited)[i] == edited
  {
  }

  /** `data.filter((user) => user.id !== id)` */
  function FilterOutId(data: seq<Row>, id: string): (r: seq<Row>)
    ensures forall i :: 0 <= i < |r| ==> RowId(r[i]) != Str(id)
  {
    if data == [] then []
    else if RowId(data[0]) != Str(id) then
      assert data == [data[0]] + data[1..];
      [data[0]] + FilterOutId(data[1..], id)
    else
      assert data == [data[0]] + data[1..];
      FilterOutId(data[1..], id)
  }

  /** Every row without the id is kept as often as it occurred; rows with the id are all dropped. */
  lemma {:induction false} FilterOutIdCounts(data: seq<Row>, id: string)
    ensures forall row :: multiset(FilterOutId(data, id))[row] == if RowId(row) == Str(id) then 0 else multiset(data)[row]
  {
    if data != [] {
      assert data == [data[0]] + data[1..];
      FilterOutIdCounts(data[1..], id);
    }
  }

  /** The filter keeps the order of the rows it keeps: it distributes over concatenation. */
  lemma {:induction false} FilterOutIdConcat(a: seq<Row>, b: seq<Row>, id: string)
    ensures FilterOutId(a + b, id) == FilterOutId(a, id) + FilterOutId(b, id)
  {
    if a == [] {
      assert a + b == b;
    } else {
      assert (a + b)[1..] == a[1..] + b;
      FilterOutIdConcat(a[1..], b, id);
    }
  }

  lemma {:induction false} FilterOutIdIdempotent(data: seq<Row>, id: string)
    ensures FilterOutId(FilterOutId(data, id), id) == FilterOutId(data, id)
  {
    if data != [] {
      FilterOutIdIdempotent(data[1..], id);
    }
  }

  /**
   * The body of a successful listing request as the tables read it: `response.data.data`
   * and `response.data.meta`. `NoBody` is a nullish `response.data`, on which reading
   * `.data` throws.
   */
  datatype Listing = NoBody | Listing(data: seq<Row>, meta: JsValue)
}

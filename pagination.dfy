/**
 * The pager shared by PlayerTable, LeaderBoard and UserTable: ten rows per page, Previous
 * disabled on page 1, Next disabled when the page equals `meta?.totalPages`, and the
 * "Showing a to b of n results" range. `meta` is whatever the backend sent, `null` before
 * the first successful fetch.
 */
module Pagination {
  import opened Wrappers
  import opened Js
  import opened Rows

  const RowsPerPage: int := 10

  /** The `Meta` record the backend is expected to send with a listing. */
  datatype Meta = Meta(totalItems: int, itemsPerPage: int, currentPage: int, totalPages: int,
                       hasNextPage: bool, hasPreviousPage: bool)

  /** The JSON object carrying a `Meta` record. */
  function MetaValue(m: Meta): JsValue {
    Obj(map["totalItems" := Num(m.totalItems), "itemsPerPage" := Num(m.itemsPerPage),
            "currentPage" := Num(m.currentPage), "totalPages" := Num(m.totalPages),
            "hasNextPage" := Bool(m.hasNextPage), "hasPreviousPage" := Bool(m.hasPreviousPage)])
  }

  /** `disabled={currentPage === 1}` */
  function PreviousDisabled(page: int): (r: bool)
    ensures r <==> page == 1
  {
    StrictEquals(Num(page), Num(1))
  }

  /** `disabled={currentPage === meta?.totalPages}` */
  function NextDisabled(page: int, meta: JsValue): (r: bool)
    ensures r <==> meta.Obj? && "totalPages" in meta.fields && meta.fields["totalPages"] == Num(page)
  {
    StrictEquals(Num(page), OptionalMember(meta, "totalPages"))
  }

  /** The page after a click on Previous: `handlePageChange(currentPage - 1)` unless disabled. */
  function PreviousPage(page: int): (r: int)
    ensures PreviousDisabled(page) ==> r == page
    ensures !PreviousDisabled(page) ==> r == page - 1
  {
    if PreviousDisabled(page) then page else page - 1
  }

  /** The page after a click on Next: `handlePageChange(currentPage + 1)` unless disabled. */
  function NextPage(page: int, meta: JsValue): (r: int)
    ensures NextDisabled(page, meta) ==> r == page
    ensures !NextDisabled(page, meta) ==> r == page + 1
  {
    if NextDisabled(page, meta) then page else page + 1
  }

  /** `(currentPage - 1) * rowsPerPage + 1` */
  function ShowingFrom(page: int): int {
    (page - 1) * RowsPerPage + 1
  }

  /**
   * `Math.min(currentPage * rowsPerPage, meta?.totalItems || 0)`; `None` when
   * `totalItems` is some truthy non-number, which `Math.min` would coerce.
   */
  function ShowingTo(page: int, meta: JsValue): (r: Option<int>)
    ensures Nullish(meta) ==> r == Some(if page * RowsPerPage < 0 then page * RowsPerPage else 0)
    ensures OptionalMember(meta, "totalItems").Num? ==>
      var n := OptionalMember(meta, "totalItems").n;
      r == Some(if page * RowsPerPage < n then page * RowsPerPage else n)
    ensures r.None? <==> Truthy(OptionalMember(meta, "totalItems")) && !OptionalMember(meta, "totalItems").Num?
  {
    var total := Or(OptionalMember(meta, "totalItems"), Num(0));
    if total.Num? then
      Some(if page * RowsPerPage < total.n then page * RowsPerPage else total.n)
    else None
  }

  /** With a well-formed `Meta`, Next is disabled exactly on the last page. */
  lemma NextDisabledExactlyOnLastPage(page: int, m: Meta)
    ensures NextDisabled(page, MetaValue(m)) <==> page == m.totalPages
  {
  }

  /** Before any listing arrived, Next is never disabled. */
  lemma NextEnabledWithoutMeta(page: int)
    ensures !NextDisabled(page, Null) && NextPage(page, Null) == page + 1
  {
  }

  /** The shown range is page `p`'s slice of the `totalItems` results, clipped at the end. */
  lemma ShowingRange(page: int, m: Meta)
    ensures ShowingFrom(page) == (page - 1) * 10 + 1
    ensures ShowingTo(page, MetaValue(m)) == Some(if page * 10 < m.totalItems then page * 10 else m.totalItems)
  {
  }

  /** Without meta the pager reads "Showing 1 to 0" on the first page. */
  lemma EmptyRangeWithoutMeta()
    ensures ShowingFrom(1) == 1 && ShowingTo(1, Null) == Some(0)
  {
  }

  /** Starting inside `1..totalPages`, the two buttons keep the page there. */
  lemma ButtonsStayInRange(page: int, m: Meta)
    requires 1 <= page <= m.totalPages
    ensures 1 <= PreviousPage(page) <= m.totalPages
    ensures 1 <= NextPage(page, MetaValue(m)) <= m.totalPages
  {
  }

  /** With no results (`totalPages == 0`) Next is not disabled on page 1 and leads past the end. */
  lemma NextPassesAnEmptyListing(m: Meta)
    requires m.totalPages == 0
    ensures NextPage(1, MetaValue(m)) == 2
  {
  }
}

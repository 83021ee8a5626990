/**
 * src/component/player/LeaderBoard.tsx: the leaderboard renders `sortedData`, numbering
 * its rows from 1. Its fetch sends no page, so every page shows the whole board.
 */
module LeaderBoard {
  import opened Wrappers
  import opened Js
  import opened Rows
  import opened Browser
  import opened Session
  import Sorting
  import Pagination

  const LeaderboardPath: string := "/player/leaderboard"

  const Headers: seq<string> :=
    ["Rank", "Name", "Country", "Experience Points", "Games Played", "Games Won", "Actions"]

  /** The one request the page's effect sends, whatever `currentPage` is. */
  const LeaderboardRequest: Request := Get(LeaderboardPath, [])

  const InitialSort: Sorting.SortState := Sorting.SortState("experience_point", Sorting.Asc)

  datatype RankedRow = RankedRow(rank: int, row: Row)

  /** `sortedData.map((user, index) => … index + 1 …)`, numbering from `first`. */
  function RankFrom(rows: seq<Row>, first: int): (r: seq<RankedRow>)
    ensures |r| == |rows|
    ensures forall i :: 0 <= i < |rows| ==> r[i] == RankedRow(first + i, rows[i])
  {
    if rows == [] then [] else [RankedRow(first, rows[0])] + RankFrom(rows[1..], first + 1)
  }

  /** Every row can render its statistics cells: `user.statistics.<field>` does not throw. */
  predicate CellsRender(rows: seq<Row>) {
    forall i :: 0 <= i < |rows| ==> !Nullish(Prop(rows[i], "statistics"))
  }

  /** The ranks shown are exactly 1..n, in the sorted order. */
  lemma RanksAreOneToN(rows: seq<Row>)
    ensures |RankFrom(rows, 1)| == |rows|
    ensures forall i :: 0 <= i < |rows| ==> RankFrom(rows, 1)[i].rank == i + 1 && RankFrom(rows, 1)[i].row == rows[i]
  {
  }

  /** Keys and statistics keys that, like the backend's, contain no space. */
  predicate SpaceFreeKeys(row: Row) {
    (forall k :: k in row ==> ' ' !in k)
    && Prop(row, "statistics").Obj?
    && forall k :: k in Prop(row, "statistics").fields ==> ' ' !in k
  }

  lemma SpacedKeyIsAbsent(row: Row, column: string)
    requires ' ' in column && SpaceFreeKeys(row)
    ensures Sorting.Absent(row, column)
  {
  }

  /** The multi-word headers lower-case to keys with a space in them. */
  lemma MultiWordHeaderKeys(i: nat)
    requires 3 <= i <= 5
    ensures ' ' in Sorting.LowerCase(Headers[i])
  {
    var space := if i == 3 then 10 else 5;
    assert Headers[i][space] == ' ';
    Sorting.LowerCaseKeepsSpaces(Headers[i], space);
    assert Sorting.LowerCase(Headers[i])[space] == ' ';
  }

  /**
   * The multi-word headers sort by "experience points", "games played" and "games won",
   * keys no row has: every pair ties and the board keeps the backend's order.
   */
  lemma MultiWordHeaderKeepsOrder(rows: seq<Row>, i: nat, direction: Sorting.Direction, lc: (string, string) -> int)
    requires 3 <= i <= 5
    requires forall j :: 0 <= j < |rows| ==> SpaceFreeKeys(rows[j])
    ensures Sorting.SortRows(rows, Sorting.SortState(Sorting.LowerCase(Headers[i]), direction), lc) == Some(rows)
  {
    var column := Sorting.LowerCase(Headers[i]);
    MultiWordHeaderKeys(i);
    forall j | 0 <= j < |rows| ensures Sorting.Absent(rows[j], column) {
      SpacedKeyIsAbsent(rows[j], column);
    }
    Sorting.AbsentKeyKeepsOrder(rows, Sorting.SortState(column, direction), lc);
  }

  /** A player whose experience points are a number, kept in its statistics. */
  predicate ExperienceInStatistics(row: Row) {
    "experience_point" !in row
    && Prop(row, "statistics").Obj?
    && "experience_point" in Prop(row, "statistics").fields
    && Prop(row, "statistics").fields["experience_point"].Num?
  }

  function Experience(row: Row): int
    requires ExperienceInStatistics(row)
  {
    Prop(row, "statistics").fields["experience_point"].n
  }

  /** Initially the board ranks players by ascending experience points (the lowest first). */
  lemma InitialOrderIsAscendingExperience(rows: seq<Row>, lc: (string, string) -> int)
    requires forall j :: 0 <= j < |rows| ==> ExperienceInStatistics(rows[j])
    ensures Sorting.SortRows(rows, InitialSort, lc).Some?
    ensures var board := Sorting.SortRows(rows, InitialSort, lc).value;
      multiset(board) == multiset(rows)
      && (forall j :: 0 <= j < |board| ==> ExperienceInStatistics(board[j]))
      && forall j, k :: 0 <= j < k < |board| ==> Experience(board[j]) <= Experience(board[k])
  {
    forall j | 0 <= j < |rows| ensures Sorting.Key(rows[j], "experience_point").Num? {
    }
    Sorting.NumericColumnSorts(rows, InitialSort, lc);
    var board := Sorting.SortRows(rows, InitialSort, lc).value;
    forall j | 0 <= j < |board| ensures ExperienceInStatistics(board[j]) {
      assert board[j] in multiset(rows);
    }
  }

  class LeaderBoard {
    var data: seq<Row>
    var meta: JsValue
    var currentPage: int
    var sort: Sorting.SortState
    const browser: Browser

    constructor (browser: Browser)
      ensures data == [] && meta == Null && currentPage == 1 && sort == InitialSort
      ensures this.browser == browser
    {
      data := [];
      meta := Null;
      currentPage := 1;
      sort := InitialSort;
      this.browser := browser;
    }

    /**
     * The ranked rows the body renders; `None` when the comparator throws, or when a row's
     * `statistics` is nullish, since its cell `user.statistics.experience_point` throws.
     */
    function Board(lc: (string, string) -> int): (r: Option<seq<RankedRow>>)
      reads this`data, this`sort
      ensures r.None? <==> Sorting.Throws(data, sort.column) || !CellsRender(data)
      ensures r.Some? ==> Sorting.SortRows(data, sort, lc).Some? && r.value == RankFrom(Sorting.SortRows(data, sort, lc).value, 1)
      ensures r.Some? ==> |r.value| == |data|
      ensures r.Some? ==> forall i :: 0 <= i < |r.value| ==> r.value[i].rank == i + 1 && r.value[i].row in multiset(data)
    {
      if !CellsRender(data) then None
      else
        match Sorting.SortRows(data, sort, lc)
        case Some(sorted) => Some(RankFrom(sorted, 1))
        case None => None
    }

    method HandleSort(column: string)
      modifies this`sort
      ensures sort == Sorting.HandleSort(old(sort), column)
    {
      sort := Sorting.HandleSort(sort, column);
    }

    method HeaderClicked(i: nat)
      requires i < |Headers|
      modifies this`sort
      ensures sort == Sorting.HandleSort(old(sort), Sorting.LowerCase(Headers[i]))
    {
      HandleSort(Sorting.LowerCase(Headers[i]));
    }

    method HandlePageChange(page: int)
      modifies this`currentPage
      ensures currentPage == page
    {
      currentPage := page;
    }

    method PreviousClicked()
      modifies this`currentPage
      ensures currentPage == Pagination.PreviousPage(old(currentPage))
    {
      if !Pagination.PreviousDisabled(currentPage) {
        HandlePageChange(currentPage - 1);
      }
    }

    method NextClicked()
      modifies this`currentPage
      ensures currentPage == Pagination.NextPage(old(currentPage), meta)
    {
      if !Pagination.NextDisabled(currentPage, meta) {
        HandlePageChange(currentPage + 1);
      }
    }

    /** The effect's `fetchData`: the request does not depend on `currentPage`. */
    method FetchData(reply: Result<Listing, AxiosError>)
      modifies this`data, this`meta, browser`effects
      ensures browser.effects == old(browser.effects) + [Send(LeaderboardRequest)]
      ensures if reply.Success? && reply.value.Listing? then data == reply.value.data && meta == reply.value.meta
              else data == old(data) && meta == old(meta)
    {
      browser.effects := browser.effects + [Send(LeaderboardRequest)];
      var response := Intercept(reply);
      if response.Success? && response.value.Listing? {
        data := response.value.data;
        meta := response.value.meta;
      }
    }
  }
}

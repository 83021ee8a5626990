/**
 * src/component/SearchBar.tsx: two inputs (country and name) whose keystrokes update the
 * query, clear the shared player list when emptied, show "Loading..." and schedule a
 * debounced call of the layout's `onQueryChange`.
 */
module SearchBar {
  import opened Wrappers
  import opened Js
  import opened Rows
  import opened Debounce
  import AuthContext

  /** The two inputs, by their `name` attribute. */
  datatype Field = Country | SearchKey

  /** The `query` state; `page` and `pageSize` exist until Reset replaces the record. */
  datatype Query = Query(country: string, searchKey: string, page: Option<int>, pageSize: Option<int>)

  const InitialQuery: Query := Query("", "", Some(1), Some(1000))

  /** `{ ...query, [name]: value }` */
  function With(q: Query, field: Field, value: string): (r: Query)
    ensures field == Country ==> r.country == value && r.searchKey == q.searchKey
    ensures field == SearchKey ==> r.searchKey == value && r.country == q.country
    ensures r.page == q.page && r.pageSize == q.pageSize
  {
    match field
    case Country => q.(country := value)
    case SearchKey => q.(searchKey := value)
  }

  /** What the drop-down under the inputs shows. */
  datatype Panel = LoadingMessage | NoPanel | Players(rows: seq<Row>) | NoDataFound

  function PanelFor(loading: bool, q: Query, player: seq<Row>): (p: Panel)
    ensures p == LoadingMessage <==> loading
    ensures p == NoPanel <==> !loading && q.country == "" && q.searchKey == ""
    ensures p.Players? <==> !loading && (q.country != "" || q.searchKey != "") && player != []
    ensures p.Players? ==> p.rows == player
    ensures p == NoDataFound <==> !loading && (q.country != "" || q.searchKey != "") && player == []
  {
    if loading then LoadingMessage
    else if Truthy(Str(q.country)) || Truthy(Str(q.searchKey)) then
      (if |player| > 0 then Players(player) else NoDataFound)
    else NoPanel
  }

  class SearchBar {
    var query: Query
    var loading: bool
    /** The player whose details the modal shows; the modal renders nothing without one. */
    var selectedPlayer: Option<Row>
    /** `debouncedSearch`, wrapping the search callback. */
    const debouncer: Debouncer<Query>
    /** The context that holds the shared `player` list. */
    const auth: AuthContext.AuthProvider

    constructor (auth: AuthContext.AuthProvider)
      ensures query == InitialQuery && !loading && selectedPlayer == None && this.auth == auth
      ensures fresh(debouncer) && debouncer.timer == Idle && debouncer.delay == SearchDelay
    {
      query := InitialQuery;
      loading := false;
      selectedPlayer := None;
      debouncer := new Debouncer(SearchDelay);
      this.auth := auth;
    }

    function Shown(): Panel
      reads this`loading, this`query, auth`player
    {
      PanelFor(loading, query, auth.player)
    }

    /** `handleInputChange` for the input named by `field`. */
    method HandleInputChange(field: Field, value: string)
      modifies this`query, this`loading, auth`player, debouncer`timer
      ensures query == With(old(query), field, value)
      ensures auth.player == if value == "" then [] else old(auth.player)
      ensures loading
      ensures debouncer.timer == Scheduled(With(old(query), field, value), debouncer.delay)
    {
      var next := With(query, field, value);
      query := next;
      if |value| == 0 {
        auth.player := [];
      }
      loading := true;
      debouncer.Invoke(next);
    }

    /**
     * `handleBlur`: 200 ms later it sets `loading` to false only if the `loading` seen
     * when focus was lost (`seen`) was already false.
     */
    method HandleBlur(seen: bool)
      modifies this`loading
      ensures loading == if seen then old(loading) else false
    {
      if !seen {
        loading := false;
      }
    }

    /** `handlePlayerClick`: a click on a listed player opens the modal on that player. */
    method PlayerClicked(item: Row)
      modifies this`selectedPlayer
      ensures selectedPlayer == Some(item)
    {
      selectedPlayer := Some(item);
    }

    /** `closeModal`, the modal's X button. */
    method CloseModal()
      modifies this`selectedPlayer
      ensures selectedPlayer == None
    {
      selectedPlayer := None;
    }

    /** The Reset button: both fields emptied, no search, list not cleared. */
    method Reset()
      modifies this`query
      ensures query == Query("", "", None, None)
    {
      query := Query("", "", None, None);
    }

    /**
     * `dt` ms pass. When the debounce timer comes due it hands back the query to search
     * for, and the callback's `finally` turns `loading` off.
     */
    method TimerElapsed(dt: nat) returns (fired: Option<Query>)
      modifies this`loading, debouncer`timer
      ensures (debouncer.timer, fired) == Step(debouncer.delay, old(debouncer.timer), Elapse(dt))
      ensures loading == if fired.Some? then false else old(loading)
    {
      fired := debouncer.Advance(dt);
      if fired.Some? {
        loading := false;
      }
    }
  }

  /** After Reset the panel is hidden, whatever the list still holds. */
  lemma ResetHidesPanel(player: seq<Row>)
    ensures PanelFor(false, Query("", "", None, None), player) == NoPanel
  {
  }
}

/**
 * src/layout/Layout.tsx: the signed-in page frame. It gives the sidebar `user?.role` and
 * gives the search bar `onQueryChange`, which looks players up unless both fields are
 * blank once trimmed.
 */
module Layout {
  import opened Wrappers
  import opened Js
  import opened Rows
  import opened Browser
  import opened Session
  import AuthContext
  import SearchBar
  import SideBar
  import Debounce

  const SearchPath: string := "/user/players/all"

  /** The characters `String.prototype.trim` removes: WhiteSpace and LineTerminator of ECMAScript. */
  predicate IsSpace(c: char) {
    var n := c as int;
    n == 0x09 || n == 0x0A || n == 0x0B || n == 0x0C || n == 0x0D || n == 0x20
    || n == 0xA0 || n == 0x1680 || (0x2000 <= n <= 0x200A) || n == 0x2028 || n == 0x2029
    || n == 0x202F || n == 0x205F || n == 0x3000 || n == 0xFEFF
  }

  function TrimStart(s: string): (r: string)
    ensures |r| <= |s|
    ensures forall i :: 0 <= i < |r| ==> r[i] == s[|s| - |r| + i]
    ensures r == [] || !IsSpace(r[0])
    ensures r == [] <==> Blank(s)
    ensures forall i :: 0 <= i < |s| - |r| ==> IsSpace(s[i])
  {
    if s != [] && IsSpace(s[0]) then TrimStart(s[1..]) else s
  }

  function TrimEnd(s: string): (r: string)
    ensures |r| <= |s|
    ensures forall i :: 0 <= i < |r| ==> r[i] == s[i]
    ensures r == [] || !IsSpace(r[|r| - 1])
    ensures r == [] <==> Blank(s)
    ensures forall i :: |r| <= i < |s| ==> IsSpace(s[i])
  {
    if s != [] && IsSpace(s[|s| - 1]) then TrimEnd(s[..|s| - 1]) else s
  }

  /** `s.trim()` */
  function Trim(s: string): string {
    TrimEnd(TrimStart(s))
  }

  predicate Blank(s: string) {
    forall i :: 0 <= i < |s| ==> IsSpace(s[i])
  }

  /** Trimming leaves nothing exactly when the text is all white space. */
  lemma TrimEmptyIffBlank(s: string)
    ensures Trim(s) == [] <==> Blank(s)
  {
  }

  /** The names `onQueryChange` may send. */
  const ParamNames: seq<string> := ["country", "page", "pageSize", "searchKey"]

  /**
   * The query parameters `onQueryChange` sends, in object-literal order: `country` when it
   * is not blank (untrimmed), `page` 1, `pageSize` 1000, then `searchKey` likewise. `None`
   * when both are blank: no request is made.
   */
  function SearchParams(q: SearchBar.Query): (r: Option<seq<Param>>)
    ensures r.None? <==> Trim(q.country) == [] && Trim(q.searchKey) == []
  {
    var countryPresent := Present(q.country);
    var searchKeyPresent := Present(q.searchKey);
    if !countryPresent && !searchKeyPresent then None
    else Some(Spread("country", q.country, countryPresent) + Paging + Spread("searchKey", q.searchKey, searchKeyPresent))
  }

  /**
   * A search sends page 1 and page size 1000 always, `country` and `searchKey` each
   * exactly when it is not blank, with its untrimmed value, and no other parameter.
   */
  lemma SearchParamsContents(q: SearchBar.Query)
    ensures var r := SearchParams(q);
      r.Some? ==>
        Param("page", Num(1)) in r.value && Param("pageSize", Num(1000)) in r.value
        && (Param("country", Str(q.country)) in r.value <==> Trim(q.country) != [])
        && (Param("searchKey", Str(q.searchKey)) in r.value <==> Trim(q.searchKey) != [])
        && forall p :: p in r.value ==> p.name in ParamNames
  {
    AssembledParams(q.country, q.searchKey, Present(q.country), Present(q.searchKey));
  }

  /** `field.trim()` as a condition: true when something other than white space is left. */
  function Present(field: string): (b: bool)
    ensures b <==> Trim(field) != []
  {
    Truthy(Str(Trim(field)))
  }

  const Paging: seq<Param> := [Param("page", Num(1)), Param("pageSize", Num(1000))]

  /** What the spread object literal holds, whichever of the two optional parts are present. */
  lemma AssembledParams(country: string, searchKey: string, countryPresent: bool, searchKeyPresent: bool)
    ensures var r := Spread("country", country, countryPresent) + Paging + Spread("searchKey", searchKey, searchKeyPresent);
      Param("page", Num(1)) in r && Param("pageSize", Num(1000)) in r
      && (Param("country", Str(country)) in r <==> countryPresent)
      && (Param("searchKey", Str(searchKey)) in r <==> searchKeyPresent)
      && forall p :: p in r ==> p.name in ParamNames
  {
    var first := Spread("country", country, countryPresent);
    var last := Spread("searchKey", searchKey, searchKeyPresent);
    var r := first + Paging + last;
    assert forall p :: p in r <==> p in first || p in Paging || p in last;
    assert Paging[0] == Param("page", Num(1)) && Paging[1] == Param("pageSize", Num(1000));
    assert "country" != "page" && "country" != "pageSize" && "country" != "searchKey";
    assert "searchKey" != "page" && "searchKey" != "pageSize";
    assert forall p :: p in Paging ==> p.name == "page" || p.name == "pageSize";
  }

  /** `...(present && { name: value })`: one parameter, or none when `present` is false. */
  function Spread(name: string, value: string, present: bool): (r: seq<Param>)
    ensures (Param(name, Str(value)) in r) == present
    ensures forall p :: p in r ==> p.name == name
  {
    if present then [Param(name, Str(value))] else []
  }

  /** `<SideBar role={user?.role} />` */
  function SidebarRole(user: JsValue): (role: JsValue)
    ensures Nullish(user) ==> role == Undefined
    ensures !Nullish(user) ==> role == Own(user, "role")
  {
    OptionalMember(user, "role")
  }

  /** Signed out, the sidebar has no entries. */
  lemma SignedOutSidebarIsEmpty()
    ensures SideBar.MenuFor(SidebarRole(Null)) == []
  {
  }

  class Layout {
    const auth: AuthContext.AuthProvider
    const browser: Browser
    const searchBar: SearchBar.SearchBar

    constructor (auth: AuthContext.AuthProvider, browser: Browser)
      ensures this.auth == auth && this.browser == browser
      ensures fresh(searchBar) && fresh(searchBar.debouncer) && searchBar.auth == auth
      ensures searchBar.query == SearchBar.InitialQuery && !searchBar.loading
      ensures searchBar.debouncer.timer == Debounce.Idle && searchBar.debouncer.delay == Debounce.SearchDelay
    {
      this.auth := auth;
      this.browser := browser;
      searchBar := new SearchBar.SearchBar(auth);
    }

    /** `onQueryChange(query)`, given the reply to the search request; errors are only logged. */
    method OnQueryChange(query: SearchBar.Query, reply: Result<Listing, AxiosError>)
      modifies auth`player, browser`effects
      ensures SearchParams(query).None? ==>
        auth.player == old(auth.player) && browser.effects == old(browser.effects)
      ensures SearchParams(query).Some? ==>
        browser.effects == old(browser.effects) + [Send(Get(SearchPath, SearchParams(query).value))]
        && auth.player == if reply.Success? && reply.value.Listing? then reply.value.data else old(auth.player)
    {
      var params := SearchParams(query);
      if params.None? {
        return;
      }
      browser.effects := browser.effects + [Send(Get(SearchPath, params.value))];
      var response := Intercept(reply);
      if response.Success? && response.value.Listing? {
        auth.player := response.value.data;
      }
    }

    /** `dt` ms pass; a due debounced search runs `onQueryChange` with its query. */
    method TimerElapsed(dt: nat, reply: Result<Listing, AxiosError>) returns (fired: Option<SearchBar.Query>)
      requires searchBar.auth == auth
      modifies searchBar`loading, searchBar.debouncer`timer, auth`player, browser`effects
      ensures (searchBar.debouncer.timer, fired) ==
        Debounce.Step(searchBar.debouncer.delay, old(searchBar.debouncer.timer), Debounce.Elapse(dt))
      ensures searchBar.loading == if fired.Some? then false else old(searchBar.loading)
      ensures fired.None? ==> auth.player == old(auth.player) && browser.effects == old(browser.effects)
      ensures fired.Some? && SearchParams(fired.value).None? ==>
        auth.player == old(auth.player) && browser.effects == old(browser.effects)
      ensures fired.Some? && SearchParams(fired.value).Some? ==>
        browser.effects == old(browser.effects) + [Send(Get(SearchPath, SearchParams(fired.value).value))]
        && auth.player == if reply.Success? && reply.value.Listing? then reply.value.data else old(auth.player)
    {
      fired := searchBar.TimerElapsed(dt);
      if fired.Some? {
        OnQueryChange(fired.value, reply);
      }
    }
  }

  /**
   * A query of spaces is not searched and does not clear the list, yet it is truthy: once
   * the debounce has run, the panel shows the players of the previous search, or
   * "No data found" when there are none.
   */
  lemma BlankQueryShowsPreviousResults(q: SearchBar.Query, previous: seq<Row>)
    requires q.country == " " && q.searchKey == ""
    ensures SearchParams(q).None?
    ensures previous != [] ==> SearchBar.PanelFor(false, q, previous) == SearchBar.Players(previous)
    ensures previous == [] ==> SearchBar.PanelFor(false, q, previous) == SearchBar.NoDataFound
  {
    assert IsSpace(q.country[0]);
  }
}

/**
 * src/component/player/PlayerTable.tsx: the player management table. Its state is the
 * fetched `data` and `meta`, the page, the sort column and direction, and the edit modal's
 * record. `sortedData` is computed on every render but the table body maps over `data`.
 */
module PlayerTable {
  import opened Wrappers
  import opened Js
  import opened Rows
  import opened Browser
  import opened Session
  import Sorting
  import Pagination
  import Guards

  const ListingPath: string := "/user/players/all"
  const ActiveMessage: string := "player set to Active"
  const ToggleFailure: string := "Error toggling the user's active state."

  /** The column headers; a click sorts by the lower-cased header text. */
  const Headers: seq<string> := ["ID", "Name", "Country", "Password", "Active", "View Stats", "Actions"]

  /** `GET /user/players/all` with `{ page, pageSize }`. */
  function ListingRequest(page: int): (r: Request)
    ensures r.verb == GET && r.path == ListingPath
    ensures r.params == [Param("page", Num(page)), Param("pageSize", Num(Pagination.RowsPerPage))]
  {
    Get(ListingPath, [Param("page", Num(page)), Param("pageSize", Num(Pagination.RowsPerPage))])
  }

  /** `PATCH /user/player/setInactive/<id>` with no body. */
  function ToggleRequest(userId: string): (r: Request)
    ensures r.verb == PATCH && r.params == [] && r.body == Undefined
    ensures |r.path| == |"/user/player/setInactive/"| + |userId|
    ensures r.path[..|"/user/player/setInactive/"|] == "/user/player/setInactive/" && r.path[|"/user/player/setInactive/"|..] == userId
  {
    Request(PATCH, "/user/player/setInactive/" + userId, [], Undefined)
  }

  /** `response.data.message === "player set to Active"`; `None` is the TypeError on a nullish body. */
  function ToggledActive(body: JsValue): (r: Option<bool>)
    ensures r.None? <==> Nullish(body)
    ensures r == Some(true) <==> body.Obj? && "message" in body.fields && body.fields["message"] == Str(ActiveMessage)
  {
    match Member(body, "message")
    case None => None
    case Some(message) => Some(StrictEquals(message, Str(ActiveMessage)))
  }

  /** The actions cell sits in `<AuthGuard>` without `allowedRoles`: it throws for every signed-in user. */
  lemma ActionsCellFaultsWhenSignedIn(isAuthenticated: bool, user: JsValue, location: string)
    ensures isAuthenticated && Truthy(user) ==> Guards.AuthGuard(isAuthenticated, user, None, location).Fault?
    ensures !isAuthenticated ==> Guards.AuthGuard(isAuthenticated, user, None, location) == Guards.Redirect("/login", Some(location))
    ensures !Guards.Admits(Guards.AuthGuard(isAuthenticated, user, None, location)) <==> !isAuthenticated || Truthy(user)
  {
  }

  function NamedRow(id: string, name: string): Row {
    map["id" := Str(id), "name" := Str(name)]
  }

  /**
   * The body shows `data` in fetch order, not `sortedData`: after a click on Name, two
   * players listed as "b", "a" are still shown as "b", "a" while the sorted copy is "a", "b".
   */
  lemma RenderedRowsIgnoreTheSort(lc: (string, string) -> int)
    requires lc("b", "a") > 0
    ensures var data := [NamedRow("2", "b"), NamedRow("1", "a")];
      Sorting.SortRows(data, Sorting.SortState(Sorting.LowerCase(Headers[1]), Sorting.Asc), lc) == Some([data[1], data[0]])
      && [data[1], data[0]] != data
  {
    var first, second := NamedRow("2", "b"), NamedRow("1", "a");
    var s := Sorting.SortState("name", Sorting.Asc);
    assert Sorting.LowerCase(Headers[1]) == "name";
    assert Sorting.Key(first, "name") == Str("b") && Sorting.Key(second, "name") == Str("a");
    assert Sorting.Compare(first, second, s, lc) > 0;
    SwappedPair(first, second, s, lc);
    assert first["id"] != second["id"];
  }

  /** Two rows whose keys are present and out of order come back swapped. */
  lemma SwappedPair(first: Row, second: Row, s: Sorting.SortState, lc: (string, string) -> int)
    requires s.column in first && s.column in second
    requires Sorting.Compare(first, second, s, lc) > 0
    ensures Sorting.SortRows([first, second], s, lc) == Some([second, first])
  {
    PairDoesNotThrow(first, second, s.column);
    PairSortsSwapped(first, second, s, lc);
  }

  lemma PairDoesNotThrow(first: Row, second: Row, column: string)
    requires column in first && column in second
    ensures !Sorting.Throws([first, second], column)
  {
    var data := [first, second];
    forall i | 0 <= i < |data| ensures Sorting.SortValue(data[i], column).Some? {
    }
  }

  lemma PairSortsSwapped(first: Row, second: Row, s: Sorting.SortState, lc: (string, string) -> int)
    requires Sorting.Compare(first, second, s, lc) > 0
    ensures Sorting.InsertionSort([first, second], s, lc) == [second, first]
  {
    var data := [first, second];
    assert data[0] == first && data[1..] == [second];
    assert [second][1..] == [];
    assert Sorting.InsertionSort([second], s, lc) == Sorting.Insert(second, [], s, lc) == [second];
    assert Sorting.Insert(first, [second], s, lc) == [second] + Sorting.Insert(first, [], s, lc);
    assert Sorting.Insert(first, [], s, lc) == [first];
    assert [second] + [first] == [second, first];
  }

  class PlayerTable {
    var data: seq<Row>
    var meta: JsValue
    var currentPage: int
    var sort: Sorting.SortState
    var isEditing: bool
    var editUser: Option<Row>
    var createNew: bool
    const browser: Browser

    constructor (browser: Browser)
      ensures data == [] && meta == Null && currentPage == 1
      ensures sort == Sorting.SortState("id", Sorting.Asc)
      ensures !isEditing && editUser == None && !createNew && this.browser == browser
    {
      data := [];
      meta := Null;
      currentPage := 1;
      sort := Sorting.SortState("id", Sorting.Asc);
      isEditing := false;
      editUser := None;
      createNew := false;
      this.browser := browser;
    }

    /** The edit modal renders on `isEditing && editUser`. */
    predicate EditModalOpen()
      reads this`isEditing, this`editUser
    {
      isEditing && editUser.Some?
    }

    /** The edit modal's close button clears both the user and the flag. */
    method EditDismissed()
      modifies this`editUser, this`isEditing
      ensures editUser == None && !isEditing && !EditModalOpen()
    {
      editUser := None;
      isEditing := false;
    }

    /**
     * The `close` callback handed to the edit modal's PlayerForm: it clears the user and
     * `createNew` but leaves `isEditing` set, which closes the edit modal all the same.
     * Nothing sets `createNew` (its button is commented out), so the create modal never shows.
     */
    method EditorClosed()
      modifies this`editUser, this`createNew
      ensures editUser == None && !createNew && !EditModalOpen()
    {
      editUser := None;
      createNew := false;
    }

    /** `sortedData`: `None` when the comparator throws. */
    function SortedData(lc: (string, string) -> int): (r: Option<seq<Row>>)
      reads this`data, this`sort
      ensures r.None? <==> Sorting.Throws(data, sort.column)
      ensures r.Some? ==> multiset(r.value) == multiset(data) && |r.value| == |data|
    {
      Sorting.SortRows(data, sort, lc)
    }

    method HandleSort(column: string)
      modifies this`sort
      ensures sort == Sorting.HandleSort(old(sort), column)
    {
      sort := Sorting.HandleSort(sort, column);
    }

    /** A click on header `i`. */
    method HeaderClicked(i: nat)
      requires i < |Headers|
      modifies this`sort
      ensures sort == Sorting.HandleSort(old(sort), Sorting.LowerCase(Headers[i]))
    {
      HandleSort(Sorting.LowerCase(Headers[i]));
    }

    method HandleEdit(user: Row)
      modifies this`isEditing, this`editUser
      ensures isEditing && editUser == Some(user)
    {
      isEditing := true;
      editUser := Some(user);
    }

    /** `saveEdit`: nothing happens without an edited record. */
    method SaveEdit()
      modifies this`data, this`isEditing, this`editUser
      ensures old(editUser).None? ==> data == old(data) && isEditing == old(isEditing) && editUser == None
      ensures old(editUser).Some? ==>
        data == ReplaceWhereId(old(data), old(editUser).value) && !isEditing && editUser == None
    {
      if editUser.Some? {
        data := ReplaceWhereId(data, editUser.value);
        isEditing := false;
        editUser := None;
      }
    }

    /** `handleChange`: `{ ...editUser, [name]: value }`. */
    method HandleChange(name: string, value: string)
      modifies this`editUser
      ensures old(editUser).None? ==> editUser == None
      ensures old(editUser).Some? ==> editUser == Some(old(editUser).value[name := Str(value)])
    {
      if editUser.Some? {
        editUser := Some(editUser.value[name := Str(value)]);
      }
    }

    method HandlePageChange(page: int)
      modifies this`currentPage
      ensures currentPage == page
    {
      currentPage := page;
    }

    method PreviousClicked()
      modifies this`currentPage
      ensures currentPage == Pagination.PreviousPage(old(currentPage))
    {
      if !Pagination.PreviousDisabled(currentPage) {
        HandlePageChange(currentPage - 1);
      }
    }

    method NextClicked()
      modifies this`currentPage
      ensures currentPage == Pagination.NextPage(old(currentPage), meta)
    {
      if !Pagination.NextDisabled(currentPage, meta) {
        HandlePageChange(currentPage + 1);
      }
    }

    /** The effect's `fetchData`, given the backend's reply; errors are only logged. */
    method FetchData(reply: Result<Listing, AxiosError>)
      modifies this`data, this`meta, browser`effects
      ensures browser.effects == old(browser.effects) + [Send(ListingRequest(currentPage))]
      ensures if reply.Success? && reply.value.Listing? then data == reply.value.data && meta == reply.value.meta
              else data == old(data) && meta == old(meta)
    {
      browser.effects := browser.effects + [Send(ListingRequest(currentPage))];
      var response := Intercept(reply);
      if response.Success? && response.value.Listing? {
        data := response.value.data;
        meta := response.value.meta;
      }
    }

    /** `toggleSwitch(userId, …)`, given the reply to the PATCH. */
    method ToggleSwitch(userId: string, reply: Result<JsValue, AxiosError>)
      modifies this`data, browser`effects
      ensures var sent := old(browser.effects) + [Send(ToggleRequest(userId))];
        match Intercept(reply)
        case Success(body) =>
          if Nullish(body) then data == old(data) && browser.effects == sent + [Alert(ToggleFailure)]
          else data == SetActiveWhereId(old(data), userId, ToggledActive(body).value) && browser.effects == sent
        case Failure(_) => data == old(data) && browser.effects == sent + [Alert(ToggleFailure)]
    {
      browser.effects := browser.effects + [Send(ToggleRequest(userId))];
      var response := Intercept(reply);
      var active := if response.Success? then ToggledActive(response.value) else None;
      if active.Some? {
        data := SetActiveWhereId(data, userId, active.value);
      } else {
        browser.effects := browser.effects + [Alert(ToggleFailure)];
      }
    }
  }
}

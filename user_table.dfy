/**
 * src/component/user/UserTable.tsx: the user management table. A delete filters the
 * list as it was when the delete started and installs it only once the backend agreed.
 */
module UserTable {
  import opened Wrappers
  import opened Js
  import opened Rows
  import opened Browser
  import opened Session
  import Pagination
  import CreateUser

  const UsersPath: string := "/user"
  const DeletedMessage: string := "User deleted successfully"

  function ListingRequest(page: int): (r: Request)
    ensures r.verb == GET && r.path == UsersPath
    ensures r.params == [Param("page", Num(page)), Param("pageSize", Num(Pagination.RowsPerPage))]
  {
    Get(UsersPath, [Param("page", Num(page)), Param("pageSize", Num(Pagination.RowsPerPage))])
  }

  /** `DELETE /user/<id>` with no body. */
  function DeleteRequest(id: string): (r: Request)
    ensures r.verb == DELETE && r.params == [] && r.body == Undefined
    ensures |r.path| == 6 + |id| && r.path[..6] == "/user/" && r.path[6..] == id
  {
    Request(DELETE, "/user/" + id, [], Undefined)
  }

  class UserTable {
    var data: seq<Row>
    var meta: JsValue
    var currentPage: int
    var isEditing: bool
    var editUser: Option<Row>
    var createNew: bool
    const browser: Browser

    constructor (browser: Browser)
      ensures data == [] && meta == Null && currentPage == 1
      ensures !isEditing && editUser == None && !createNew && this.browser == browser
    {
      data := [];
      meta := Null;
      currentPage := 1;
      isEditing := false;
      editUser := None;
      createNew := false;
      this.browser := browser;
    }

    /** The `user` prop both modals hand to CreateUser: `editUser`, or `null`. */
    function FormUser(): (u: JsValue)
      reads this`editUser
      ensures Truthy(u) <==> editUser.Some?
    {
      match editUser
      case Some(row) => Obj(row)
      case None => Null
    }

    /** "Create New User" opens the create modal. */
    method CreateClicked()
      modifies this`createNew
      ensures createNew
    {
      createNew := true;
    }

    /** The edit modal's close button clears the user and the flag. */
    method EditDismissed()
      modifies this`editUser, this`isEditing
      ensures editUser == None && !isEditing
    {
      editUser := None;
      isEditing := false;
    }

    /** The edit form's `close` callback lowers the flag only: `editUser` stays. */
    method EditorClosed()
      modifies this`isEditing
      ensures !isEditing
    {
      isEditing := false;
    }

    /** The create modal's close button. */
    method CreateDismissed()
      modifies this`editUser, this`createNew
      ensures editUser == None && !createNew
    {
      editUser := None;
      createNew := false;
    }

    /** The create form's `close` callback. */
    method CreateClosed()
      modifies this`createNew
      ensures !createNew
    {
      createNew := false;
    }

    /** `handleDelete(id)`, given the reply to `DELETE /user/<id>`. */
    method HandleDelete(id: string, reply: Result<JsValue, AxiosError>)
      modifies this`data, browser`effects
      ensures var sent := old(browser.effects) + [Send(DeleteRequest(id))];
        match Intercept(reply)
        case Success(_) => data == FilterOutId(old(data), id) && browser.effects == sent + [Alert(DeletedMessage)]
        case Failure(reason) =>
          data == old(data) && browser.effects == sent + [Alert(ErrorMessage(reason))]
    {
      var updatedData := FilterOutId(data, id);
      browser.effects := browser.effects + [Send(DeleteRequest(id))];
      var response := Intercept(reply);
      if response.Success? {
        data := updatedData;
        browser.effects := browser.effects + [Alert(DeletedMessage)];
      } else {
        browser.effects := browser.effects + [Alert(ErrorMessage(response.error))];
      }
    }

    method HandleEdit(user: Row)
      modifies this`isEditing, this`editUser
      ensures isEditing && editUser == Some(user)
    {
      isEditing := true;
      editUser := Some(user);
    }

    /** `handlePageChange(page)`: any page at all, no bounds check. */
    method HandlePageChange(page: int)
      modifies this`currentPage
      ensures currentPage == page
    {
      currentPage := page;
    }

    method PreviousClicked()
      modifies this`currentPage
      ensures currentPage == Pagination.PreviousPage(old(currentPage))
    {
      if !Pagination.PreviousDisabled(currentPage) {
        HandlePageChange(currentPage - 1);
      }
    }

    method NextClicked()
      modifies this`currentPage
      ensures currentPage == Pagination.NextPage(old(currentPage), meta)
    {
      if !Pagination.NextDisabled(currentPage, meta) {
        HandlePageChange(currentPage + 1);
      }
    }

    method FetchData(reply: Result<Listing, AxiosError>)
      modifies this`data, this`meta, browser`effects
      ensures browser.effects == old(browser.effects) + [Send(ListingRequest(currentPage))]
      ensures if reply.Success? && reply.value.Listing? then data == reply.value.data && meta == reply.value.meta
              else data == old(data) && meta == old(meta)
    {
      browser.effects := browser.effects + [Send(ListingRequest(currentPage))];
      var response := Intercept(reply);
      if response.Success? && response.value.Listing? {
        data := response.value.data;
        meta := response.value.meta;
      }
    }
  }

  /** A successful delete keeps exactly the other rows, in their order. */
  lemma DeleteKeepsOtherRowsInOrder(before: seq<Row>, row: Row, after: seq<Row>, id: string)
    requires RowId(row) == Str(id)
    ensures FilterOutId(before + [row] + after, id) == FilterOutId(before, id) + FilterOutId(after, id)
  {
    FilterOutIdConcat(before + [row], after, id);
    FilterOutIdConcat(before, [row], id);
  }

  /**
   * After an edit closed through the form's callback, `editUser` still holds the record, so
   * the create modal's form submits a PUT to that user instead of a POST.
   */
  lemma StaleUserTurnsCreateIntoEdit(row: Row, form: CreateUser.UserForm)
    ensures CreateUser.SubmitRequest(Obj(row), form).verb == PUT
    ensures CreateUser.SubmitRequest(Obj(row), form).path == "/user/" + Text(Own(Obj(row), "id"))
  {
  }
}

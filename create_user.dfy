/**
 * src/component/user/form/CreateUser.tsx: the create/edit user form. With a `user` prop it
 * edits that user (PUT), without one it creates a user (POST).
 */
module CreateUser {
  import opened Wrappers
  import opened Js
  import opened Browser
  import opened Session

  datatype Field = Name | Email | Password | Role

  datatype UserForm = UserForm(name: JsValue, email: JsValue, password: JsValue, role: JsValue)

  /** The role select's options; "player" is commented out of it. */
  const RoleOptions: seq<string> := ["admin", "staff"]

  /** The `useState` initialiser: `user?.x || ""`, and `"player"` for the role. */
  function InitialForm(user: JsValue): (f: UserForm)
    ensures f.password == Str("")
    ensures f.name == (if Truthy(OptionalMember(user, "name")) then Own(user, "name") else Str(""))
    ensures f.email == (if Truthy(OptionalMember(user, "email")) then Own(user, "email") else Str(""))
    ensures f.role == (if Truthy(OptionalMember(user, "role")) then Own(user, "role") else Str("player"))
  {
    UserForm(Or(OptionalMember(user, "name"), Str("")),
             Or(OptionalMember(user, "email"), Str("")),
             Str(""),
             Or(OptionalMember(user, "role"), Str("player")))
  }

  /** The effect on `[user]`: a truthy user overwrites the form, without fallbacks; the password is emptied. */
  function Prefill(form: UserForm, user: JsValue): (f: UserForm)
    ensures !Truthy(user) ==> f == form
    ensures Truthy(user) ==> f == UserForm(Own(user, "name"), Own(user, "email"), Str(""), Own(user, "role"))
  {
    if Truthy(user) then
      TruthyIsNotNullish(user);
      UserForm(Member(user, "name").value, Member(user, "email").value, Str(""), Member(user, "role").value)
    else form
  }

  /** For a user whose name, email and role are non-empty strings the prefill changes nothing. */
  lemma PrefillKeepsInitialForm(user: map<string, JsValue>, name: string, email: string, role: string)
    requires name != "" && email != "" && role != ""
    requires "name" in user && user["name"] == Str(name)
    requires "email" in user && user["email"] == Str(email)
    requires "role" in user && user["role"] == Str(role)
    ensures Prefill(InitialForm(Obj(user)), Obj(user)) == InitialForm(Obj(user))
  {
  }

  /** A user record without a role starts as "player" and loses even that once prefilled. */
  lemma PrefillDropsDefaultRole(user: map<string, JsValue>)
    requires "role" !in user
    ensures InitialForm(Obj(user)).role == Str("player")
    ensures Prefill(InitialForm(Obj(user)), Obj(user)).role == Undefined
  {
  }

  /** Creating defaults the role to "player", which the select does not offer. */
  lemma DefaultRoleIsNotOffered()
    ensures InitialForm(Null).role == Str("player") && "player" !in RoleOptions
  {
  }

  /** `{ ...prevState, [name]: value }` */
  function With(form: UserForm, field: Field, value: string): (f: UserForm)
    ensures field == Name ==> f == form.(name := Str(value))
    ensures field == Email ==> f == form.(email := Str(value))
    ensures field == Password ==> f == form.(password := Str(value))
    ensures field == Role ==> f == form.(role := Str(value))
  {
    match field
    case Name => form.(name := Str(value))
    case Email => form.(email := Str(value))
    case Password => form.(password := Str(value))
    case Role => form.(role := Str(value))
  }

  /** An edit of one field leaves the other three as they were. */
  lemma WithChangesOneField(form: UserForm, field: Field, value: string)
    ensures var f := With(form, field, value);
      (field != Name ==> f.name == form.name) && (field != Email ==> f.email == form.email)
      && (field != Password ==> f.password == form.password) && (field != Role ==> f.role == form.role)
  {
  }

  /** The inputs the form shows: the password only when creating. */
  function VisibleFields(user: JsValue): (r: seq<Field>)
    ensures Password in r <==> !Truthy(user)
    ensures Name in r && Email in r && Role in r
  {
    [Name, Email] + (if !Truthy(user) then [Password] else []) + [Role]
  }

  function Body(form: UserForm): JsValue {
    Obj(map["name" := form.name, "email" := form.email, "password" := form.password, "role" := form.role])
  }

  /** Edit (PUT) with a user, create (POST) without one; the form is the body either way. */
  function SubmitRequest(user: JsValue, form: UserForm): (r: Request)
    ensures Truthy(user) ==> r.verb == PUT && r.path == "/user/" + Text(Own(user, "id"))
    ensures !Truthy(user) ==> r.verb == POST && r.path == "/user"
    ensures r.body == Body(form) && r.params == []
  {
    if Truthy(user) then Request(PUT, "/user/" + Text(Own(user, "id")), [], Body(form))
    else Request(POST, "/user", [], Body(form))
  }

  /** What follows the request: alert, `close()` and a reload on success, only an alert on failure. */
  function Outcome(user: JsValue, reply: Result<JsValue, AxiosError>): (r: seq<Effect>)
    ensures reply.Success? ==> |r| == 3 && r[1..] == [Close, Reload]
    ensures reply.Success? ==>
      r[0] == Alert(if Truthy(user) then "User updated successfully" else "User created successfully")
    ensures reply.Failure? ==> r == [Alert(ErrorMessage(RejectionValue(reply.error)))]
    ensures Close in r <==> reply.Success?
  {
    match Intercept(reply)
    case Success(_) =>
      [Alert(if Truthy(user) then "User updated successfully" else "User created successfully"), Close, Reload]
    case Failure(reason) => [Alert(ErrorMessage(reason))]
  }

  class CreateUserForm {
    var form: UserForm
    const user: JsValue
    const browser: Browser

    constructor (user: JsValue, browser: Browser)
      ensures form == InitialForm(user) && this.user == user && this.browser == browser
    {
      form := InitialForm(user);
      this.user := user;
      this.browser := browser;
    }

    /** The effect that runs after mounting and whenever `user` changes. */
    method UserChanged()
      modifies this`form
      ensures form == Prefill(old(form), user)
    {
      form := Prefill(form, user);
    }

    method HandleInputChange(field: Field, value: string)
      modifies this`form
      ensures form == With(old(form), field, value)
    {
      form := With(form, field, value);
    }

    method HandleSubmit(reply: Result<JsValue, AxiosError>)
      modifies browser`effects
      ensures browser.effects == old(browser.effects) + [Send(SubmitRequest(user, form))] + Outcome(user, reply)
    {
      browser.effects := browser.effects + [Send(SubmitRequest(user, form))];
      var response := Intercept(reply);
      if response.Success? {
        var message := if Truthy(user) then "User updated successfully" else "User created successfully";
        browser.effects := browser.effects + [Alert(message), Close];
        browser.effects := browser.effects + [Reload];
      } else {
        browser.effects := browser.effects + [Alert(ErrorMessage(response.error))];
      }
    }
  }
}

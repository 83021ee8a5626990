/**
 * src/Pages/Login.tsx: the sign-in form. After `login` resolves, the handler navigates by
 * the `user` the page read from the context when it rendered, which is the user from
 * before the sign-in.
 */
module Login {
  import opened Wrappers
  import opened Js
  import opened Browser
  import opened Session
  import Roles
  import Guards
  import AuthContext

  const FailureMessage: string := "Login failed"

  /**
   * What follows `await login(email, password)`: an alert when `login` threw or when the
   * captured `user` is nullish (`user.role` throws), else one navigation for a known role.
   */
  function Feedback(outcome: AuthContext.LoginOutcome, capturedUser: JsValue): (r: seq<Effect>)
    ensures r == [Alert(FailureMessage)] <==> outcome.LoginRejected? || Nullish(capturedUser)
    ensures !outcome.LoginRejected? && !Nullish(capturedUser) ==>
      match Roles.HomePath(Own(capturedUser, "role"))
      case Some(home) => r == [Navigate(home)]
      case None => r == []
  {
    if outcome.LoginRejected? then [Alert(FailureMessage)]
    else
      match Member(capturedUser, "role")
      case None => [Alert(FailureMessage)]
      case Some(role) =>
        var navigations :=
          (if StrictEquals(role, Str("admin")) then [Navigate("/admin")] else [])
          + (if StrictEquals(role, Str("staff")) then [Navigate("/staff")] else [])
          + (if StrictEquals(role, Str("player")) then [Navigate("/player")] else []);
        assert navigations == [] || navigations[0].Navigate?;
        navigations
  }

  /** The state `login` leaves behind for each outcome. */
  function StateAfter(state: AuthContext.AuthState, reply: Result<JsValue, AxiosError>): (r: AuthContext.AuthState)
    ensures AuthContext.LoginOutcomeOf(reply).LoginRejected? ==> r == state
    ensures reply.Success? && Truthy(reply.value) ==>
      r == state.(isAuthenticated := true, user := reply.value)
    ensures AuthContext.LoginOutcomeOf(reply).LoginReset? ==> r == AuthContext.AuthState(true, false, Null)
  {
    match AuthContext.LoginOutcomeOf(reply)
    case LoggedIn(record, _) => AuthContext.Reduce(state, AuthContext.LoginAction(record))
    case LoginReset => AuthContext.Reduce(state, AuthContext.ResetAction)
    case LoginRejected(_) => state
  }

  /**
   * Signing in from a fresh page, where the captured `user` is null, always alerts
   * "Login failed", even though `login` stored the user: the GuestGuard around the page
   * then redirects the now authenticated user to the home of its role.
   */
  lemma FirstSignInAlertsYetRedirects(state: AuthContext.AuthState, record: map<string, JsValue>, role: string)
    requires "role" in record && record["role"] == Str(role) && role in Roles.KnownRoles
    ensures var reply: Result<JsValue, AxiosError> := Success(Obj(record));
      AuthContext.LoginOutcomeOf(reply).LoggedIn?
      && Feedback(AuthContext.LoginOutcomeOf(reply), Null) == [Alert(FailureMessage)]
      && var after := StateAfter(state, reply);
         after.isAuthenticated && after.user == Obj(record)
         && Guards.GuestGuard(after.isAuthenticated, after.user) == Guards.Redirect("/" + role, None)
  {
  }

  /** With a captured user of a known role and a successful `login`, the page navigates to that role's home. */
  lemma CapturedRoleNavigates(outcome: AuthContext.LoginOutcome, capturedUser: map<string, JsValue>)
    requires !outcome.LoginRejected? && "role" in capturedUser
    ensures capturedUser["role"] == Str("admin") ==> Feedback(outcome, Obj(capturedUser)) == [Navigate("/admin")]
    ensures capturedUser["role"] == Str("staff") ==> Feedback(outcome, Obj(capturedUser)) == [Navigate("/staff")]
    ensures capturedUser["role"] == Str("player") ==> Feedback(outcome, Obj(capturedUser)) == [Navigate("/player")]
  {
  }

  class LoginPage {
    var email: string
    var password: string
    const auth: AuthContext.AuthProvider

    constructor (auth: AuthContext.AuthProvider)
      ensures email == "" && password == "" && this.auth == auth
    {
      email := "";
      password := "";
      this.auth := auth;
    }

    method SetEmail(value: string)
      modifies this`email
      ensures email == value
    {
      email := value;
    }

    method SetPassword(value: string)
      modifies this`password
      ensures password == value
    {
      password := value;
    }

    /** `handleSubmit`, with the `user` read at render time and the reply to `login`'s request. */
    method HandleSubmit(capturedUser: JsValue, reply: Result<JsValue, AxiosError>)
      modifies auth`state, auth.transport`authorization, auth.browser`storage, auth.browser`effects
      ensures auth.state == StateAfter(old(auth.state), reply)
      ensures auth.browser.effects ==
        old(auth.browser.effects) + [Send(AuthContext.LoginRequest(email, password))]
        + Feedback(AuthContext.LoginOutcomeOf(reply), capturedUser)
      ensures match AuthContext.LoginOutcomeOf(reply)
        case LoggedIn(record, token) =>
          auth.browser.storage == old(auth.browser.storage)["user" := record]
          && auth.transport.authorization == NextAuthorization(old(auth.transport.authorization), token)
        case _ =>
          auth.browser.storage == old(auth.browser.storage)
          && auth.transport.authorization == old(auth.transport.authorization)
    {
      var completion := auth.Login(email, password, reply);
      var feedback := Feedback(AuthContext.LoginOutcomeOf(reply), capturedUser);
      if completion.Throw? {
        auth.browser.effects := auth.browser.effects + [Alert(FailureMessage)];
      } else {
        auth.browser.effects := auth.browser.effects + feedback;
      }
    }
  }
}

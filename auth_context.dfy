/**
 * src/context/AuthContext.tsx: the authentication state, the reducer that is its only
 * mutator, and the provider's `login` and `initialize` operations. The backend's reply
 * to each request is a parameter; `localStorage` and the effect log live in a `Browser`.
 */
module AuthContext {
  import opened Wrappers
  import opened Js
  import opened Browser
  import opened Session
  import Roles
  import Rows

  datatype AuthState = AuthState(isInitialized: bool, isAuthenticated: bool, user: JsValue)

  /** The four action tags, and any other tag, which the reducer's `default` branch handles. */
  datatype ActionType = INITIAL | LOGIN | REGISTER | LOGOUT | Other(tag: string)
  datatype Payload = Payload(isAuthenticated: Option<bool>, user: JsValue)
  datatype AuthAction = AuthAction(kind: ActionType, payload: Option<Payload>)

  function InitialState(): AuthState {
    AuthState(false, false, Null)
  }

  /** `action.payload?.isAuthenticated || false` */
  function PayloadAuthenticated(payload: Option<Payload>): bool {
    payload.Some? && payload.value.isAuthenticated == Some(true)
  }

  /** `action.payload?.user || null` */
  function PayloadUser(payload: Option<Payload>): (u: JsValue)
    ensures u.Null? || Truthy(u)
  {
    if payload.Some? && Truthy(payload.value.user) then payload.value.user else Null
  }

  function Reduce(state: AuthState, action: AuthAction): (r: AuthState)
    ensures state.isInitialized ==> r.isInitialized
    ensures !state.isInitialized && r.isInitialized ==> action.kind == INITIAL
    ensures action.kind.Other? ==> r == state
    ensures r.user != state.user ==> r.user.Null? || Truthy(r.user)
  {
    match action.kind
    case INITIAL => AuthState(true, PayloadAuthenticated(action.payload), PayloadUser(action.payload))
    case LOGIN => state.(isAuthenticated := true, user := PayloadUser(action.payload))
    case REGISTER => state.(isAuthenticated := true, user := PayloadUser(action.payload))
    case LOGOUT => state.(isAuthenticated := false, user := Null)
    case Other(_) => state
  }

  lemma InitialSetsInitialized(state: AuthState, payload: Option<Payload>)
    ensures var r := Reduce(state, AuthAction(INITIAL, payload));
      r.isInitialized
      && (r.isAuthenticated <==> payload.Some? && payload.value.isAuthenticated == Some(true))
      && (payload.None? ==> !r.isAuthenticated && r.user == Null)
      && (payload.Some? && !Truthy(payload.value.user) ==> r.user == Null)
      && (payload.Some? && Truthy(payload.value.user) ==> r.user == payload.value.user)
  {
  }

  lemma LoginAndRegisterAuthenticate(state: AuthState, kind: ActionType, payload: Option<Payload>)
    requires kind == LOGIN || kind == REGISTER
    ensures var r := Reduce(state, AuthAction(kind, payload));
      r.isAuthenticated && r.isInitialized == state.isInitialized
      && (payload.Some? && Truthy(payload.value.user) ==> r.user == payload.value.user)
      && (payload.None? || !Truthy(payload.value.user) ==> r.user == Null)
  {
  }

  /** LOGIN without a payload user yields an authenticated state without a user. */
  lemma AuthenticatedWithoutUserIsReachable()
    ensures var r := Reduce(InitialState(), AuthAction(LOGIN, None));
      r.isAuthenticated && r.user == Null
  {
  }

  lemma LogoutIsIdempotent(state: AuthState)
    ensures var once := Reduce(state, AuthAction(LOGOUT, None));
      !once.isAuthenticated && once.user == Null && once.isInitialized == state.isInitialized
      && Reduce(once, AuthAction(LOGOUT, None)) == once
  {
  }

  /** The state after dispatching `actions` in order. */
  function ReduceAll(state: AuthState, actions: seq<AuthAction>): AuthState
    decreases |actions|
  {
    if actions == [] then state else ReduceAll(Reduce(state, actions[0]), actions[1..])
  }

  /** `isInitialized` is true after a run exactly when it was true before or some INITIAL was dispatched. */
  lemma {:induction false} InitializedIffInitialDispatched(state: AuthState, actions: seq<AuthAction>)
    ensures ReduceAll(state, actions).isInitialized
        <==> state.isInitialized || exists i :: 0 <= i < |actions| && actions[i].kind == INITIAL
    decreases |actions|
  {
    if actions != [] {
      InitializedIffInitialDispatched(Reduce(state, actions[0]), actions[1..]);
      assert forall i :: 1 <= i < |actions| ==> actions[1..][i - 1] == actions[i];
    }
  }

  /** What `login` does with the reply to its POST, after the interceptor. */
  datatype LoginOutcome =
    | LoginRejected(exception: Exception)
    | LoggedIn(record: JsValue, token: JsValue)
    | LoginReset

  function LoginOutcomeOf(reply: Result<JsValue, AxiosError>): (o: LoginOutcome)
    ensures o.LoginRejected? <==> reply.Failure? || Nullish(reply.value)
    ensures reply.Failure? ==> o == LoginRejected(Rejected(RejectionValue(reply.error)))
    ensures reply.Success? && Nullish(reply.value) ==> o == LoginRejected(TypeError)
    ensures o.LoggedIn? <==> reply.Success? && Truthy(reply.value)
    ensures o.LoggedIn? ==> o.record == reply.value && o.token == Own(reply.value, "accessToken")
  {
    match Intercept(reply)
    case Failure(reason) => LoginRejected(Rejected(reason))
    case Success(data) =>
      // const { accessToken } = response.data;  runs before `if (response.data)`
      match Member(data, "accessToken")
      case None => LoginRejected(TypeError)
      case Some(token) => if Truthy(data) then LoggedIn(data, token) else LoginReset
  }

  /** `POST player` with the credentials as the body. */
  function LoginRequest(email: string, password: string): (r: Request)
    ensures r.verb == POST && r.path == "player" && r.params == []
    ensures Own(r.body, "email") == Str(email) && Own(r.body, "password") == Str(password)
  {
    Request(POST, "player", [], Obj(map["email" := Str(email), "password" := Str(password)]))
  }

  const ResetAction: AuthAction := AuthAction(INITIAL, Some(Payload(Some(false), Null)))

  function LoginAction(record: JsValue): AuthAction {
    AuthAction(LOGIN, Some(Payload(None, record)))
  }

  /** A successful login stores the record as the user; a falsy reply resets to an initialized guest. */
  lemma LoginOutcomeState(state: AuthState, reply: Result<JsValue, AxiosError>)
    ensures LoginOutcomeOf(reply).LoggedIn? ==>
      Reduce(state, LoginAction(reply.value)) == state.(isAuthenticated := true, user := reply.value)
    ensures LoginOutcomeOf(reply).LoginReset? ==>
      Reduce(state, ResetAction) == AuthState(true, false, Null)
  {
  }

  /** The navigation `initialize` performs once `GET user/<id>` has answered. */
  function RestoreNavigation(reply: Result<JsValue, AxiosError>): (r: seq<Effect>)
    ensures |r| <= 1
    ensures r != [] ==> reply.Success? && !Nullish(reply.value)
                        && Roles.HomePath(Own(reply.value, "role")).Some?
                        && r == [Navigate(Roles.HomePath(Own(reply.value, "role")).value)]
    ensures reply.Success? && Roles.HomePath(OptionalMember(reply.value, "role")).Some? ==> r != []
  {
    match Intercept(reply)
    case Failure(_) => []
    case Success(data) =>
      match Member(data, "role")
      case None => []   // TypeError caught by initialize
      case Some(role) =>
        match Roles.HomePath(role)
        case Some(path) => [Navigate(path)]
        case None => []
  }

  lemma RestoreNavigatesByRole(data: map<string, JsValue>, role: string)
    requires "role" in data && data["role"] == Str(role)
    ensures role == "admin" ==> RestoreNavigation(Success(Obj(data))) == [Navigate("/admin")]
    ensures role == "staff" ==> RestoreNavigation(Success(Obj(data))) == [Navigate("/staff")]
    ensures role == "player" ==> RestoreNavigation(Success(Obj(data))) == [Navigate("/player")]
    ensures role !in Roles.KnownRoles ==> RestoreNavigation(Success(Obj(data))) == []
  {
  }

  class AuthProvider {
    var state: AuthState
    /** The `player` list shared through the context (search results). */
    var player: seq<Rows.Row>
    const transport: Transport
    const browser: Browser

    constructor (transport: Transport, browser: Browser)
      ensures state == InitialState() && player == []
      ensures this.transport == transport && this.browser == browser
    {
      state := InitialState();
      player := [];
      this.transport := transport;
      this.browser := browser;
    }

    method Dispatch(action: AuthAction)
      modifies this`state
      ensures state == Reduce(old(state), action)
    {
      state := Reduce(state, action);
    }

    /** `login(email, password)`, given the backend's reply to `POST player`. */
    method Login(email: string, password: string, reply: Result<JsValue, AxiosError>) returns (c: Completion)
      modifies this`state, transport`authorization, browser`storage, browser`effects
      ensures browser.effects == old(browser.effects) + [Send(LoginRequest(email, password))]
      ensures match LoginOutcomeOf(reply)
        case LoginRejected(e) =>
          c == Throw(e) && state == old(state) && browser.storage == old(browser.storage)
          && transport.authorization == old(transport.authorization)
        case LoggedIn(record, token) =>
          c == Normal && state == Reduce(old(state), LoginAction(record))
          && browser.storage == old(browser.storage)["user" := record]
          && transport.authorization == NextAuthorization(old(transport.authorization), token)
        case LoginReset =>
          c == Normal && state == Reduce(old(state), ResetAction)
          && browser.storage == old(browser.storage)
          && transport.authorization == old(transport.authorization)
    {
      browser.effects := browser.effects + [Send(LoginRequest(email, password))];
      var response := Intercept(reply);
      if response.Failure? {
        return Throw(Rejected(response.error));
      }
      var data := response.value;
      var destructured := Member(data, "accessToken");
      if destructured.None? {
        return Throw(TypeError);
      }
      if Truthy(data) {
        transport.SetSession(destructured.value);
        browser.storage := browser.storage["user" := data];
        Dispatch(LoginAction(data));
      } else {
        Dispatch(ResetAction);
      }
      c := Normal;
    }

    /** `initialize()`, given the backend's reply to `GET user/<id>` (unused when nothing is stored). */
    method Initialize(reply: Result<JsValue, AxiosError>)
      modifies transport`authorization, browser`effects
      ensures state == old(state)
      ensures var stored := StoredUser(browser.storage);
        if Truthy(stored) then
          transport.authorization == NextAuthorization(old(transport.authorization), OptionalMember(stored, "accessToken"))
          && browser.effects == old(browser.effects)
                                + [Send(Get("user/" + Text(Own(stored, "id")), []))]
                                + RestoreNavigation(reply)
        else
          transport.authorization == old(transport.authorization) && browser.effects == old(browser.effects)
    {
      var parsed := StoredUser(browser.storage);
      if Truthy(parsed) {
        transport.SetSession(OptionalMember(parsed, "accessToken"));
        browser.effects := browser.effects + [Send(Get("user/" + Text(Own(parsed, "id")), []))];
        browser.effects := browser.effects + RestoreNavigation(reply);
      }
    }
  }
}

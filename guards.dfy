/**
 * The three route guards of src/guard/: each is a decision from the authentication
 * context (and, for two of them, a list of allowed roles) to what is rendered.
 */
module Guards {
  import opened Wrappers
  import opened Js
  import Roles
  import AuthContext

  datatype GuardResult =
    | RenderChildren
    | RenderOutlet
    | Redirect(to: string, from: Option<string>)   // <Navigate to state={{ from: location }} />
    | Loading
    | Fault                                        // a TypeError thrown while rendering

  /** The guard lets the protected element through: it neither redirects, waits nor faults. */
  predicate Admits(r: GuardResult): (b: bool)
    ensures b <==> !r.Redirect? && !r.Loading? && !r.Fault?
  {
    r.RenderChildren? || r.RenderOutlet?
  }

  /**
   * src/guard/AuthGuard.tsx. `allowedRoles` is `None` where the element is used without
   * that prop (`<AuthGuard>` in PlayerTable): `allowedRoles.includes` then throws.
   * `isInitialized` is not consulted.
   */
  function AuthGuard(isAuthenticated: bool, user: JsValue, allowedRoles: Option<seq<string>>, location: string): (r: GuardResult)
    ensures !isAuthenticated ==> r == Redirect("/login", Some(location))
    ensures r.Fault? <==> isAuthenticated && Truthy(user) && allowedRoles.None?
    ensures !r.RenderOutlet? && r != Loading
    ensures allowedRoles.Some? ==>
      (r.RenderChildren? <==>
        isAuthenticated && (!Truthy(user)
                            || Roles.Includes(allowedRoles.value, Own(user, "role"))
                            || Roles.HomePath(Own(user, "role")).None?))
    ensures isAuthenticated && r.Redirect? ==>
      Truthy(user) && r == Redirect(Roles.HomePath(Own(user, "role")).value, None)
  {
    if !isAuthenticated then Redirect("/login", Some(location))
    else if Truthy(user) then
      match allowedRoles
      case None => Fault
      case Some(roles) =>
        if !Roles.Includes(roles, Own(user, "role")) then
          match Roles.HomePath(Own(user, "role"))
          case Some(home) => Redirect(home, None)
          case None => RenderChildren
        else RenderChildren
    else RenderChildren
  }

  /** A known role outside the allowed list is sent to its own section. */
  lemma AuthGuardBouncesKnownRole(user: map<string, JsValue>, role: string, allowed: seq<string>, location: string)
    requires "role" in user && user["role"] == Str(role) && role in Roles.KnownRoles && role !in allowed
    ensures AuthGuard(true, Obj(user), Some(allowed), location) == Redirect("/" + role, None)
  {
  }

  /** A role that is neither allowed nor known falls through to the children. */
  lemma AuthGuardAdmitsUnknownRole(user: map<string, JsValue>, allowed: seq<string>, location: string)
    requires Roles.HomePath(Own(Obj(user), "role")).None?
    ensures AuthGuard(true, Obj(user), Some(allowed), location) == RenderChildren
  {
  }

  /** src/guard/GuestGuard.tsx: `user.role` is read, without `?.`, whenever authenticated. */
  function GuestGuard(isAuthenticated: bool, user: JsValue): (r: GuardResult)
    ensures !isAuthenticated ==> r == RenderChildren
    ensures r.Fault? <==> isAuthenticated && Nullish(user)
    ensures isAuthenticated && !Nullish(user) ==>
      match Roles.HomePath(Own(user, "role"))
      case Some(home) => r == Redirect(home, None)
      case None => r == RenderChildren
  {
    if isAuthenticated then
      match Member(user, "role")
      case None => Fault
      case Some(role) =>
        match Roles.HomePath(role)
        case Some(home) => Redirect(home, None)
        case None => RenderChildren
    else RenderChildren
  }

  /** src/guard/ProtectGuard.tsx; `hasChildren` says whether `children` is truthy. */
  function ProtectedRoute(state: AuthContext.AuthState, allowedRoles: seq<string>, hasChildren: bool): (r: GuardResult)
    ensures r == Loading <==> !state.isInitialized
    ensures r == Redirect("/login", None) <==> state.isInitialized && !state.isAuthenticated
    ensures r == Redirect("/unauthorized", None) <==>
      state.isInitialized && state.isAuthenticated && !Roles.Includes(allowedRoles, OptionalMember(state.user, "role"))
    ensures Admits(r) <==>
      state.isInitialized && state.isAuthenticated && Roles.Includes(allowedRoles, OptionalMember(state.user, "role"))
    ensures Admits(r) ==> (r.RenderChildren? <==> hasChildren)
    ensures !r.Fault?
  {
    if !state.isInitialized then Loading
    else if !state.isAuthenticated then Redirect("/login", None)
    else if !Roles.Includes(allowedRoles, OptionalMember(state.user, "role")) then Redirect("/unauthorized", None)
    else if hasChildren then RenderChildren
    else RenderOutlet
  }
}

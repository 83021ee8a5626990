/**
 * The role-to-home-path chain that AuthGuard, GuestGuard, the login page and
 * `initialize` each spell out as `if (role === "admin") ... "/admin"` and so on.
 * Roles are whatever value the backend put in `role`.
 */
module Roles {
  import opened Wrappers
  import opened Js

  const KnownRoles: seq<string> := ["admin", "staff", "player"]

  function HomePath(role: JsValue): (r: Option<string>)
    ensures r.Some? <==> role.Str? && role.s in KnownRoles
    ensures r.Some? ==> r.value == "/" + role.s
  {
    if role == Str("admin") then Some("/admin")
    else if role == Str("staff") then Some("/staff")
    else if role == Str("player") then Some("/player")
    else None
  }

  /** `allowedRoles.includes(role)` for a list of string literals. */
  predicate Includes(allowedRoles: seq<string>, role: JsValue) {
    role.Str? && role.s in allowedRoles
  }
}

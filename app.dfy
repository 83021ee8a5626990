/**
 * The route table of src/App.tsx: three guarded sections and a public root, each with
 * an index child that redirects and a list of page children.
 */
module App {
  import opened Wrappers
  import opened Js
  import Roles
  import Guards

  datatype Guard = GuestOnly | AuthRequired(allowedRoles: seq<string>)

  datatype Page =
    | LoginPage | RegisterPage | LayoutPage
    | UserTablePage | PlayerTablePage | LeaderboardPage | StaffDashboardPage

  datatype Element = RedirectTo(to: string) | Plain(page: Page) | Guarded(guard: Guard, page: Page)

  /** `path` is `None` for an index route. */
  datatype Route = Route(path: Option<string>, element: Option<Element>, children: seq<Route>)

  function Index(to: string): Route {
    Route(None, Some(RedirectTo(to)), [])
  }

  function Leaf(path: string, element: Element): Route {
    Route(Some(path), Some(element), [])
  }

  /**
   * The route literal: four top-level routes with distinct paths, each opening with an
   * index child that redirects.
   */
  function Routes(): (r: seq<Route>)
    ensures |r| == 4
    ensures forall i, j :: 0 <= i < j < |r| ==> r[i].path != r[j].path
    ensures forall i :: 0 <= i < |r| ==>
      r[i].path.Some? && r[i].children != [] && r[i].children[0].path.None?
      && r[i].children[0].element.Some? && r[i].children[0].element.value.RedirectTo?
  {
    [ Route(Some("/"), None,
        [ Index("/login"),
          Leaf("login", Guarded(GuestOnly, LoginPage)),
          Leaf("register", Guarded(GuestOnly, RegisterPage)) ]),
      Route(Some("/admin"), Some(Guarded(AuthRequired(["admin"]), LayoutPage)),
        [ Index("/admin"),
          Leaf("user-management", Plain(UserTablePage)),
          Leaf("player-management", Plain(PlayerTablePage)),
          Leaf("leaderboard", Plain(LeaderboardPage)) ]),
      Route(Some("/staff"), Some(Guarded(AuthRequired(["staff"]), LayoutPage)),
        [ Index("/staff"),
          Leaf("dashboard", Plain(StaffDashboardPage)),
          Leaf("player-management", Plain(PlayerTablePage)) ]),
      Route(Some("/player"), Some(Guarded(AuthRequired(["player"]), LayoutPage)),
        [ Index("/player"),
          Leaf("player-management", Plain(PlayerTablePage)) ]) ]
  }

  function FindIn(routes: seq<Route>, path: string): Option<Route> {
    if routes == [] then None
    else if routes[0].path == Some(path) then Some(routes[0])
    else FindIn(routes[1..], path)
  }

  /** The top-level route with this path. */
  function Section(path: string): Option<Route> {
    FindIn(Routes(), path)
  }

  /** The paths of a route's non-index children, in order. */
  function ChildPaths(children: seq<Route>): seq<string> {
    if children == [] then []
    else (if children[0].path.Some? then [children[0].path.value] else []) + ChildPaths(children[1..])
  }

  /** Where a route's index child redirects, if it has one. */
  function IndexTarget(children: seq<Route>): Option<string> {
    if children == [] then None
    else if children[0].path.None? && children[0].element.Some? && children[0].element.value.RedirectTo?
    then Some(children[0].element.value.to)
    else IndexTarget(children[1..])
  }

  /** The element of the child `path` of section `section`. */
  function ChildElement(section: string, path: string): Option<Element> {
    match Section(section)
    case None => None
    case Some(r) =>
      match FindIn(r.children, path)
      case None => None
      case Some(child) => child.element
  }

  lemma RootRedirectsToLogin()
    ensures Section("/").Some? && IndexTarget(Section("/").value.children) == Some("/login")
  {
  }

  lemma LoginAndRegisterAreGuestOnly()
    ensures ChildElement("/", "login") == Some(Guarded(GuestOnly, LoginPage))
    ensures ChildElement("/", "register") == Some(Guarded(GuestOnly, RegisterPage))
  {
  }

  /** Each role's section is the layout behind an AuthGuard admitting exactly that role. */
  lemma SectionsAdmitOneRoleEach(role: string)
    requires role in Roles.KnownRoles
    ensures Section("/" + role).Some?
    ensures Section("/" + role).value.element == Some(Guarded(AuthRequired([role]), LayoutPage))
    ensures IndexTarget(Section("/" + role).value.children) == Some("/" + role)
  {
    if role == "admin" {
      assert "/" + role == "/admin";
    } else if role == "staff" {
      assert "/" + role == "/staff";
    } else {
      assert "/" + role == "/player";
    }
  }

  lemma SectionPages()
    ensures ChildPaths(Section("/admin").value.children) == ["user-management", "player-management", "leaderboard"]
    ensures ChildPaths(Section("/staff").value.children) == ["dashboard", "player-management"]
    ensures ChildPaths(Section("/player").value.children) == ["player-management"]
  {
  }

  /** What the guard of section `path` decides; `None` for a path without a guarded section. */
  function SectionOutcome(path: string, isAuthenticated: bool, user: JsValue, location: string): Option<Guards.GuardResult> {
    match Section(path)
    case Some(Route(_, Some(Guarded(AuthRequired(roles), _)), _)) =>
      Some(Guards.AuthGuard(isAuthenticated, user, Some(roles), location))
    case _ => None
  }

  /**
   * A user whose role is one of the three known ones gets only into their own section
   * and is redirected home from the two others.
   */
  lemma KnownRoleReachesOwnSectionOnly(user: map<string, JsValue>, role: string, section: string, location: string)
    requires "role" in user && user["role"] == Str(role)
    requires role in Roles.KnownRoles && section in Roles.KnownRoles
    ensures SectionOutcome("/" + section, true, Obj(user), location) ==
      if role == section then Some(Guards.RenderChildren) else Some(Guards.Redirect("/" + role, None))
  {
    SectionsAdmitOneRoleEach(section);
  }

  /** Any other role, and an authenticated context without a user, is let into every section. */
  lemma UnknownRoleEntersEverySection(user: JsValue, section: string, location: string)
    requires !Truthy(user) || Roles.HomePath(Own(user, "role")).None?
    requires section in Roles.KnownRoles
    ensures SectionOutcome("/" + section, true, user, location) == Some(Guards.RenderChildren)
  {
    SectionsAdmitOneRoleEach(section);
  }
}

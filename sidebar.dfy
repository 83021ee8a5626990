/**
 * src/component/SideBar.tsx: the role-to-menu table, the mobile `isOpen` switch and
 * the logout button.
 */
module SideBar {
  import opened Js
  import opened Browser
  import Roles
  import App

  datatype MenuItem = MenuItem(name: string, path: string)

  const AdminMenu: seq<MenuItem> := [
    MenuItem("Dashboard", "admin-dashboard"),
    MenuItem("User Management", "user-management"),
    MenuItem("Player Management", "player-management"),
    MenuItem("Leaderboard", "leaderboard")
  ]

  const StaffMenu: seq<MenuItem> := [
    MenuItem("Dashboard", "dashboard"),
    MenuItem("Player Management", "player-management")
  ]

  const PlayerMenu: seq<MenuItem> := [
    MenuItem("Dashboard", "/player-dashboard"),
    MenuItem("Leaderboard", "/leaderboard")
  ]

  /** `menuItems[role] || []`, for the `role` Layout passes (`user?.role`). */
  function MenuFor(role: JsValue): (items: seq<MenuItem>)
    ensures Roles.HomePath(role).None? ==> items == []
    ensures role == Str("admin") ==> items == AdminMenu
    ensures role == Str("staff") ==> items == StaffMenu
    ensures role == Str("player") ==> items == PlayerMenu
  {
    if role == Str("admin") then AdminMenu
    else if role == Str("staff") then StaffMenu
    else if role == Str("player") then PlayerMenu
    else []
  }

  function Paths(items: seq<MenuItem>): seq<string> {
    if items == [] then [] else [items[0].path] + Paths(items[1..])
  }

  function Names(items: seq<MenuItem>): seq<string> {
    if items == [] then [] else [items[0].name] + Names(items[1..])
  }

  lemma AdminMenuOrder()
    ensures Names(MenuFor(Str("admin"))) == ["Dashboard", "User Management", "Player Management", "Leaderboard"]
  {
  }

  /** The staff and player entries, by label and in order. */
  lemma StaffAndPlayerMenuNames()
    ensures Names(MenuFor(Str("staff"))) == ["Dashboard", "Player Management"]
    ensures Names(MenuFor(Str("player"))) == ["Dashboard", "Leaderboard"]
  {
  }

  /** Every staff menu entry is a child route of `/staff`. */
  lemma StaffMenuIsRouted()
    ensures Paths(MenuFor(Str("staff"))) == ["dashboard", "player-management"]
    ensures forall p :: p in Paths(StaffMenu) ==> p in App.ChildPaths(App.Section("/staff").value.children)
  {
    App.SectionPages();
  }

  /** The admin "Dashboard" entry names a child that `/admin` does not have. */
  lemma AdminDashboardIsNotRouted()
    ensures "admin-dashboard" in Paths(AdminMenu)
    ensures "admin-dashboard" !in App.ChildPaths(App.Section("/admin").value.children)
  {
    App.SectionPages();
  }

  /** The player entries are absolute paths to which no section of the table answers. */
  lemma PlayerMenuLeavesTheTable()
    ensures Paths(MenuFor(Str("player"))) == ["/player-dashboard", "/leaderboard"]
    ensures App.Section("/player-dashboard").None? && App.Section("/leaderboard").None?
  {
  }

  class Sidebar {
    var isOpen: bool
    const browser: Browser

    constructor (browser: Browser)
      ensures !isOpen && this.browser == browser
    {
      isOpen := false;
      this.browser := browser;
    }

    /** The mobile toggle button: `setIsOpen(!isOpen)`. */
    method Toggle()
      modifies this`isOpen
      ensures isOpen == !old(isOpen)
    {
      isOpen := !isOpen;
    }

    /** Clicking a menu link closes the sidebar. */
    method LinkClicked()
      modifies this`isOpen
      ensures !isOpen
    {
      isOpen := false;
    }

    /** Logout removes the stored session, sends the browser to `/` and alerts. */
    method Logout()
      modifies browser`storage, browser`effects
      ensures browser.storage == old(browser.storage) - {"user"}
      ensures "user" !in browser.storage
      ensures browser.effects == old(browser.effects) + [SetHref("/"), Alert("Logged out successfully")]
    {
      browser.storage := browser.storage - {"user"};
      browser.effects := browser.effects + [SetHref("/")];
      browser.effects := browser.effects + [Alert("Logged out successfully")];
    }
  }
}

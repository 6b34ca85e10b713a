/** The role-dependent parts of src/components/shared/PublicNavbar.tsx: the
    role it keeps, the menu items it builds from the role and the
    Login/Logout choice. The auth-status check is not visible here; what
    it reported is an input. */
module Navbar {
  import opened Wrappers
  import opened Strings
  import Proxy

  const Guest: string := "guest"
  const AdminRole: string := "ADMIN"

  /** A menu entry: its link target and its `label`. */
  datatype NavItem = NavItem(href: string, labelText: string)

  /** The four items every visitor sees, in order. */
  const StaticItems: seq<NavItem> := [
    NavItem("#", "Consultation"),
    NavItem("#", "Health Plans"),
    NavItem("#", "Medicine"),
    NavItem("#", "Diagnostics")
  ]

  const AdminItem: NavItem := NavItem("/dashboard/admin", "Admin Dashboard")

  /** The user the auth-status check reported, with its role if any. */
  datatype FetchedUser = FetchedUser(role: Option<string>)

  /** The role before the check has answered. */
  const InitialRole: string := Guest

  /** `setRole(user?.role || "guest")`. */
  function RoleAfterFetch(user: Option<FetchedUser>): string
  {
    if user.Some? && Truthy(user.value.role) then user.value.role.value else Guest
  }

  /** `navItems`: the static items, then the admin item for ADMIN only. */
  function NavItems(role: string): seq<NavItem>
  {
    if role == AdminRole then StaticItems + [AdminItem] else StaticItems
  }

  /** The control at the right end of the bar. */
  datatype AuthControl = LogoutButton | LoginLink(href: string)

  function ControlFor(role: string): AuthControl
  {
    if role != Guest then LogoutButton else LoginLink("/login")
  }

  /** What the desktop bar and the mobile sheet show. */
  datatype Rendered = Rendered(desktopItems: seq<NavItem>, desktopControl: AuthControl,
                               mobileItems: seq<NavItem>, mobileControl: AuthControl)

  function Render(role: string): (r: Rendered)
    ensures r.desktopItems == r.mobileItems
    ensures r.desktopControl == r.mobileControl
    ensures |r.desktopItems| >= 4 && r.desktopItems[..4] == StaticItems
  {
    Rendered(NavItems(role), ControlFor(role), NavItems(role), ControlFor(role))
  }

  // ---------------------------------------------------------------------
  // Properties
  // ---------------------------------------------------------------------

  /** The admin item appears exactly for ADMIN, and then exactly once. */
  lemma AdminItemOnlyForAdmin(role: string)
    ensures AdminItem in NavItems(role) <==> role == AdminRole
    ensures role == AdminRole ==> multiset(NavItems(role))[AdminItem] == 1
  {
    assert AdminItem !in StaticItems;
    if role == AdminRole {
      assert multiset(StaticItems)[AdminItem] == 0;
    }
  }

  /** Before the check answers, and whenever it reports no user or no role,
      a visitor sees the static items and the Login link. */
  lemma GuestView(user: Option<FetchedUser>)
    requires user.None? || !Truthy(user.value.role)
    ensures Render(RoleAfterFetch(user)) == Render(InitialRole)
    ensures Render(InitialRole) == Rendered(StaticItems, LoginLink("/login"), StaticItems, LoginLink("/login"))
  {
  }

  /** Once the check reports a role, the bar offers Logout unless that role
      is literally `guest`, and the admin item appears exactly when the role
      is ADMIN; the static items stay first, in both menus. */
  lemma ReportedRoleShown(user: Option<FetchedUser>)
    requires user.Some? && Truthy(user.value.role)
    ensures var r := Render(RoleAfterFetch(user));
            && (r.desktopControl == LogoutButton <==> user.value.role.value != Guest)
            && r.mobileControl == r.desktopControl
            && (AdminItem in r.desktopItems <==> user.value.role == Some(AdminRole))
            && r.desktopItems[..4] == StaticItems && r.mobileItems == r.desktopItems
  {
    AdminItemOnlyForAdmin(RoleAfterFetch(user));
  }

  /** The admin item points at a path the guard admits for ADMIN. */
  lemma AdminItemAdmitted()
    ensures Proxy.RoleAdmits(AdminRole, AdminItem.href)
  {
    assert StartsWith(AdminItem.href, Proxy.AdminPrefix);
  }
}

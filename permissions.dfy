/** The role permission table of the newer client (Frontend/src/utils/permissions.ts):
    which dashboard paths each role may open, and the navigation labels a role is
    offered. A role is any text the server stored; `None` is an absent role. */
module Permissions {
  import opened Js

  const AdminRoutes: seq<string> := [
    "/dashboard", "/dashboard/products", "/dashboard/pos", "/dashboard/reports",
    "/dashboard/raw-materials", "/dashboard/purchases", "/dashboard/settings"]

  const CashierRoutes: seq<string> := [
    "/dashboard", "/dashboard/products", "/dashboard/pos", "/dashboard/settings"]

  /** `rolePermissions[role]`: nothing for a role outside the table. */
  function RolePermissions(role: string): (r: Option<seq<string>>)
    ensures r.Some? <==> role == "admin" || role == "cashier"
  {
    if role == "admin" then Some(AdminRoutes)
    else if role == "cashier" then Some(CashierRoutes)
    else None
  }

  /** `canAccessRoute(role, path)` */
  predicate CanAccessRoute(role: Option<string>, path: string) {
    role.Some? && role.value != "" && RolePermissions(role.value).Some? &&
    path in RolePermissions(role.value).value
  }

  /** Without a role nothing is accessible, and with one a path is accessible exactly
      when it is listed for the role: `/dashboard/pos/x` is not, though `/dashboard/pos`
      is. */
  lemma AccessIsExactListing(role: Option<string>, path: string)
    ensures role.None? ==> !CanAccessRoute(role, path)
    ensures role == Some("admin") ==> (CanAccessRoute(role, path) <==> path in AdminRoutes)
    ensures role == Some("cashier") ==> (CanAccessRoute(role, path) <==> path in CashierRoutes)
    ensures role.Some? && role.value != "admin" && role.value != "cashier" ==> !CanAccessRoute(role, path)
    ensures !CanAccessRoute(Some("admin"), "/dashboard/pos/x")
  {
    assert "/dashboard/pos/x" !in AdminRoutes;
  }

  /** A cashier reaches nothing an admin cannot. */
  lemma CashierRoutesAreAdminRoutes(path: string)
    ensures CanAccessRoute(Some("cashier"), path) ==> CanAccessRoute(Some("admin"), path)
  {
  }

  /** Reports, raw materials and purchases are for admins only. */
  lemma CashierBarred()
    ensures !CanAccessRoute(Some("cashier"), "/dashboard/reports")
    ensures !CanAccessRoute(Some("cashier"), "/dashboard/raw-materials")
    ensures !CanAccessRoute(Some("cashier"), "/dashboard/purchases")
    ensures CanAccessRoute(Some("admin"), "/dashboard/reports")
  {
    assert AdminRoutes[3] == "/dashboard/reports";
  }

  /** `routeMap[route]` */
  function RouteLabel(route: string): Option<string> {
    match route
    case "/dashboard" => Some("Dashboard")
    case "/dashboard/products" => Some("Products")
    case "/dashboard/pos" => Some("Point of Sale")
    case "/dashboard/reports" => Some("Reports")
    case "/dashboard/raw-materials" => Some("Raw Materials")
    case "/dashboard/purchases" => Some("Purchases")
    case "/dashboard/settings" => Some("Settings")
    case _ => None
  }

  /** `permissions.map(route => routeMap[route]).filter(Boolean)` */
  function Labels(routes: seq<string>): (r: seq<string>)
    ensures |r| <= |routes|
    ensures (forall i :: 0 <= i < |routes| ==> RouteLabel(routes[i]).Some?) ==>
              |r| == |routes| && forall i :: 0 <= i < |routes| ==> r[i] == RouteLabel(routes[i]).value
  {
    if routes == [] then []
    else
      var rest := Labels(routes[1..]);
      match RouteLabel(routes[0])
      case Some(l) => [l] + rest
      case None => rest
  }

  /** `getAllowedNavItems(role)` as written: `None` when it throws, which it does for
      a role outside the table, since the table lookup is not checked before `map`. */
  function AllowedNavItemsAsWritten(role: Option<string>): Option<seq<string>> {
    if role.None? || role.value == "" then Some([])
    else match RolePermissions(role.value)
      case Some(routes) => Some(Labels(routes))
      case None => None
  }

  /** A user whose stored role is, say, "manager" makes the navigation helper throw,
      where the route check only refuses. */
  lemma UnknownRoleNavItemsThrow()
    ensures AllowedNavItemsAsWritten(Some("manager")).None?
    ensures !CanAccessRoute(Some("manager"), "/dashboard")
  {
  }

  /** The navigation labels with the table lookup checked, as `canAccessRoute` does:
      a role outside the table is offered nothing. */
  function AllowedNavItems(role: Option<string>): (r: seq<string>)
    ensures AllowedNavItemsAsWritten(role).Some? ==> r == AllowedNavItemsAsWritten(role).value
  {
    if role.None? || role.value == "" then []
    else match RolePermissions(role.value)
      case Some(routes) => Labels(routes)
      case None => []
  }

  /** The labels follow the role's routes, one per route in table order, so a role is
      offered exactly the pages it may open. */
  lemma NavItemsFollowPermissions(role: Option<string>)
    ensures role.None? ==> AllowedNavItems(role) == []
    ensures role.Some? && RolePermissions(role.value).None? ==> AllowedNavItems(role) == []
    ensures role.Some? && role.value != "" && RolePermissions(role.value).Some? ==>
              var routes := RolePermissions(role.value).value;
              |AllowedNavItems(role)| == |routes| &&
              forall i :: 0 <= i < |routes| ==>
                AllowedNavItems(role)[i] == RouteLabel(routes[i]).value && CanAccessRoute(role, routes[i])
  {
    if role.Some? && role.value != "" && RolePermissions(role.value).Some? {
      var routes := RolePermissions(role.value).value;
      assert forall i :: 0 <= i < |routes| ==> RouteLabel(routes[i]).Some?;
    }
  }
}

/** The route guard of the newer client (Frontend/src/components/ProtectedRoute.tsx):
    from the session's loading flag and user, the roles a route allows and the current
    path, what is shown. */
module ProtectedRoute {
  import opened Js
  import Auth
  import Permissions

  datatype View = LoadingView | RedirectToLogin | RedirectToDashboard | Children

  /** The role as `canAccessRoute` reads it; a role that is not a text is treated as
      none. */
  function RoleName(role: Option<Value>): (r: Option<string>)
    ensures forall s :: role == StrV(s) ==> r == Some(s)
    ensures (role.None? || !role.value.Str?) ==> r.None?
  {
    if role.Some? && role.value.Str? then Some(role.value.s) else None
  }

  /** `allowedRoles.includes(userRole)`: a strict comparison with the texts listed. */
  predicate RoleListed(allowed: seq<string>, role: Option<Value>) {
    role.Some? && role.value.Str? && role.value.s in allowed
  }

  function Guard(loading: bool, user: Option<Value>, allowedRoles: Option<seq<string>>, path: string): (r: View)
    ensures loading ==> r == LoadingView
    ensures !loading && !Truthy(user) ==> r == RedirectToLogin
    ensures !loading && Truthy(user) && allowedRoles.Some? && allowedRoles.value != [] ==>
              (r == Children <==> RoleListed(allowedRoles.value, Auth.RoleOf(user)))
    ensures !loading && Truthy(user) && (allowedRoles.None? || allowedRoles.value == []) ==>
              (r == Children <==> Permissions.CanAccessRoute(RoleName(Auth.RoleOf(user)), path))
    ensures !loading && Truthy(user) ==> r == Children || r == RedirectToDashboard
  {
    if loading then LoadingView
    else if !Truthy(user) then RedirectToLogin
    else
      var role := Auth.RoleOf(user);
      if allowedRoles.Some? && |allowedRoles.value| > 0 then
        if !RoleListed(allowedRoles.value, role) then RedirectToDashboard else Children
      else if !Permissions.CanAccessRoute(RoleName(role), path) then RedirectToDashboard
      else Children
  }

  /** A user without a role never sees a page, whether the route lists roles or leaves
      the decision to the permission table. */
  lemma NoRoleNoPage(user: Option<Value>, allowedRoles: Option<seq<string>>, path: string)
    requires Auth.RoleOf(user).None?
    ensures Guard(false, user, allowedRoles, path) != Children
  {
    Permissions.AccessIsExactListing(RoleName(Auth.RoleOf(user)), path);
  }

  /** Under the permission table, a cashier signed in is sent back from the reports
      page and an admin is shown it. */
  lemma ReportsGuarded(fields: Object)
    ensures Guard(false, Some(Obj(fields["role" := Str("cashier")])), None, "/dashboard/reports") == RedirectToDashboard
    ensures Guard(false, Some(Obj(fields["role" := Str("admin")])), None, "/dashboard/reports") == Children
  {
    Permissions.CashierBarred();
  }
}

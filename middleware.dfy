/**
 * The redirect decision of the application middleware: whether a request
 * for `pathname` passes through or is redirected, given whether a user is
 * signed in and the role in that user's public metadata.
 */
module Middleware {
  import opened Wrappers
  import opened Records

  /** The routes reachable without signing in (matched here as exact paths). */
  const PublicRoutes: set<string> := {"/", "/api/webhook/register", "/sign-in", "/sign-up"}

  predicate IsPublicRoute(path: string) { path in PublicRoutes }

  /** The outcome of fetching the signed-in user's role from the identity provider. */
  datatype RoleLookup = LookupFailed | LookupOk(role: Option<string>)

  predicate IsAdminRole(role: Option<string>) { role == Some("admin") }

  predicate StartsWith(s: string, prefix: string) {
    |prefix| <= |s| && s[..|prefix|] == prefix
  }

  // The three rules for a signed-in user, in the order they are tried.

  predicate AdminOnUserDashboard(role: Option<string>, path: string) {
    IsAdminRole(role) && path == "/dashboard"
  }

  predicate NonAdminUnderAdmin(role: Option<string>, path: string) {
    !IsAdminRole(role) && StartsWith(path, "/admin")
  }

  predicate SignedInOnPublic(path: string) { IsPublicRoute(path) }

  /** The redirect target, or None when the request passes through. */
  function Redirect(userId: Option<UserId>, lookup: RoleLookup, path: string): (target: Option<string>)
    ensures target.Some? ==> target.value in {"/sign-in", "/error", "/admin/dashboard", "/dashboard"}
    ensures !Present(userId) ==> (target.Some? <==> !IsPublicRoute(path))
    ensures !Present(userId) && !IsPublicRoute(path) ==> target == Some("/sign-in")
    ensures Present(userId) && lookup.LookupFailed? ==> target == Some("/error")
    ensures Present(userId) && lookup.LookupOk? ==>
              && target != Some("/error") && target != Some("/sign-in")
              && (AdminOnUserDashboard(lookup.role, path) ==> target == Some("/admin/dashboard"))
              && (NonAdminUnderAdmin(lookup.role, path) ==> target == Some("/dashboard"))
              && (SignedInOnPublic(path) ==>
                    target == Some(if IsAdminRole(lookup.role) then "/admin/dashboard" else "/dashboard"))
              && ((!AdminOnUserDashboard(lookup.role, path) && !NonAdminUnderAdmin(lookup.role, path)
                   && !SignedInOnPublic(path)) ==> target == None)
  {
    if !Present(userId) && !IsPublicRoute(path) then Some("/sign-in")
    else if !Present(userId) then None
    else
      match lookup
      case LookupFailed => Some("/error")
      case LookupOk(role) =>
        if AdminOnUserDashboard(role, path) then Some("/admin/dashboard")
        else if NonAdminUnderAdmin(role, path) then Some("/dashboard")
        else if SignedInOnPublic(path) then Some(if IsAdminRole(role) then "/admin/dashboard" else "/dashboard")
        else None
  }

  /** The public routes are exactly the four listed paths; neither dashboard is one. */
  lemma PublicRoutesExactly(path: string)
    ensures IsPublicRoute(path) <==> path == "/" || path == "/api/webhook/register" || path == "/sign-in" || path == "/sign-up"
    ensures !IsPublicRoute("/dashboard") && !IsPublicRoute("/admin/dashboard") && !IsPublicRoute("/error")
  {
  }

  /**
   * At most one of the three signed-in rules applies to any request, so the
   * order in which they are tried decides nothing beyond the role lookup.
   */
  lemma SignedInRulesExclusive(role: Option<string>, path: string)
    ensures !(AdminOnUserDashboard(role, path) && NonAdminUnderAdmin(role, path))
    ensures !(AdminOnUserDashboard(role, path) && SignedInOnPublic(path))
    ensures !(NonAdminUnderAdmin(role, path) && SignedInOnPublic(path))
  {
    if path == "/api/webhook/register" {
      DiffersFromAdminAt(path, 2);
    } else if path == "/sign-in" || path == "/sign-up" {
      DiffersFromAdminAt(path, 1);
    }
  }

  /** A path that differs from "/admin" at some position before its end does not start with it. */
  lemma DiffersFromAdminAt(path: string, k: nat)
    requires k < |path| && k < |"/admin"| && path[k] != "/admin"[k]
    ensures !StartsWith(path, "/admin")
  {
  }

  /** The path the browser ends on after following at most one redirect. */
  function Landing(userId: Option<UserId>, lookup: RoleLookup, path: string): string {
    match Redirect(userId, lookup, path)
    case Some(target) => target
    case None => path
  }

  /** A redirect never leads to another redirect once the role lookup succeeds: there are no loops. */
  lemma NoRedirectLoop(userId: Option<UserId>, role: Option<string>, path: string)
    ensures Redirect(userId, LookupOk(role), Landing(userId, LookupOk(role), path)) == None
  {
    var landing := Landing(userId, LookupOk(role), path);
    if Redirect(userId, LookupOk(role), path).Some? {
      assert landing in {"/sign-in", "/error", "/admin/dashboard", "/dashboard"};
      if landing == "/dashboard" || landing == "/error" {
        DiffersFromAdminAt(landing, 1);
      } else if landing == "/admin/dashboard" {
        assert StartsWith(landing, "/admin") by { assert landing[..6] == "/admin"; }
      }
    }
  }

  /**
   * Where each kind of visitor ends up: an anonymous visitor on a public
   * route, a signed-in visitor never on a public route, an admin never on
   * the user dashboard, and anyone else never under `/admin`.
   */
  lemma LandingByRole(userId: Option<UserId>, role: Option<string>, path: string)
    ensures var landing := Landing(userId, LookupOk(role), path);
            && (!Present(userId) ==> IsPublicRoute(landing) || landing == path)
            && (!Present(userId) && !IsPublicRoute(path) ==> landing == "/sign-in")
            && (Present(userId) ==> !IsPublicRoute(landing))
            && (Present(userId) && IsAdminRole(role) ==> landing != "/dashboard")
            && (Present(userId) && !IsAdminRole(role) ==> !StartsWith(landing, "/admin"))
  {
    var landing := Landing(userId, LookupOk(role), path);
    if landing == "/dashboard" {
      DiffersFromAdminAt(landing, 1);
    }
  }
}

/**
 * The request guard that runs before every page (src/middleware.ts).
 *
 * From the session (if any) and the requested path it decides between
 * letting the request through and redirecting: a signed-in user asking for
 * an authentication page or the root is sent to the dashboard of their role,
 * and a signed-out user asking for anything outside `/auth` is sent to the
 * sign-in page. Reading the session from the authentication service is a
 * parameter here.
 */
module Middleware {
  import opened Common

  /** The user of a session; `role` is the `user_metadata.role` entry, when there is one. */
  datatype User = User(role: Option<string>)

  /** A session as the authentication service returns it. */
  datatype Session = Session(user: Option<User>)

  /** What the guard does with a request. */
  datatype Decision = Next | Redirect(path: string)

  /** `session.user?.user_metadata?.role || 'staff'`: an absent or empty role counts as staff. */
  function EffectiveRole(role: Option<string>): (r: string)
    ensures r != ""
    ensures role.Some? && role.value != "" ==> r == role.value
  {
    if role.Some? && role.value != "" then role.value else "staff"
  }

  /** The role of a session's user, if the session has a user with a role. */
  function SessionRole(s: Session): Option<string> {
    if s.user.Some? then s.user.value.role else None
  }

  /** The dashboard of a role, as both the guard and the sign-in page compute it. */
  function DashboardPath(role: Option<string>): (p: string)
    ensures p == "/dashboard/manager" || p == "/dashboard/staff"
  {
    if EffectiveRole(role) == "manager" then "/dashboard/manager" else "/dashboard/staff"
  }

  /** `pathname.startsWith('/auth')`. */
  predicate IsAuthPath(path: string) {
    "/auth" <= path
  }

  /** The guard's decision for a request to `path`. */
  function Decide(session: Option<Session>, path: string): (d: Decision)
    ensures d.Next? <==> (session.Some? && !IsAuthPath(path) && path != "/") || (session.None? && IsAuthPath(path))
    ensures d.Redirect? ==> d.path == "/auth/signin" || d.path == "/dashboard/manager" || d.path == "/dashboard/staff"
  {
    if session.Some? && (IsAuthPath(path) || path == "/") then Redirect(DashboardPath(SessionRole(session.value)))
    else if session.None? && !IsAuthPath(path) then Redirect("/auth/signin")
    else Next
  }

  // ---------------------------------------------------------------------------
  // Properties

  /** The manager dashboard is chosen exactly for the role `manager`; an absent role gets the staff dashboard. */
  lemma DashboardForRole(role: Option<string>)
    ensures DashboardPath(role) == "/dashboard/manager" <==> role == Some("manager")
    ensures DashboardPath(role) == "/dashboard/staff" <==> role != Some("manager")
    ensures DashboardPath(None) == "/dashboard/staff"
  {
  }

  /** A signed-in user on an authentication page or the root goes to their role's dashboard. */
  lemma SignedInLeavesAuthPages(s: Session, path: string)
    requires IsAuthPath(path) || path == "/"
    ensures Decide(Some(s), path) == Redirect(if SessionRole(s) == Some("manager") then "/dashboard/manager" else "/dashboard/staff")
  {
  }

  /** A signed-out user outside `/auth` goes to the sign-in page; inside `/auth` passes through. */
  lemma SignedOutDecision(path: string)
    ensures Decide(None, path) == if IsAuthPath(path) then Next else Redirect("/auth/signin")
  {
  }

  /** A redirect target passes through for the same session, so the guard never redirects twice in a row. */
  lemma NoRedirectLoop(session: Option<Session>, path: string)
    ensures var d := Decide(session, path);
            d.Redirect? ==> Decide(session, d.path) == Next
  {
    var d := Decide(session, path);
    if d.Redirect? {
      if session.Some? {
        assert d.path[1] == 'd' && "/auth"[1] == 'a';
      } else {
        assert "/auth" == d.path[..5];
      }
    }
  }
}

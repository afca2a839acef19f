/**
 * The sign-in page (src/app/auth/signin/page.tsx).
 *
 * On mount the page sends a user who already has a session to their role's
 * dashboard. Submitting the form validates it, then asks the authentication
 * service to sign in and, depending on the answer, records an error message
 * or navigates to the role's dashboard (falling back to `/dashboard` when that
 * navigation throws). `loading` is raised when an attempt starts and lowered
 * when it ends, whatever the outcome.
 *
 * The service's answer and the router's outcomes are parameters; toasts and
 * console logging are not modelled.
 */
module SignIn {
  import opened Common
  import opened Middleware

  /** What `signInWithPassword` gives: an auth error, a session, neither, or a rejection. */
  datatype SignInResponse =
    | AuthFailed(message: string)
    | SessionCreated(role: Option<string>)
    | NoSession
    | CallThrew(message: string)

  /** What awaiting a router call gives. */
  datatype Nav = NavOk | NavThrew(message: string)

  /** The two inputs of the form, by their `name` attribute. */
  datatype Field = Email | Password

  /** The page state an attempt leaves behind, besides `loading`. */
  datatype Attempt = Attempt(error: Option<string>, navigations: seq<string>, refreshed: bool)

  /** `validateForm`: both fields must be non-empty. */
  predicate ValidForm(email: string, password: string) {
    email != "" && password != ""
  }

  /** `handleRoleBasedRedirect`'s table: manager, staff, and `/dashboard` for any other role. */
  function RoleRoute(role: string): (route: string)
    ensures route == "/dashboard/manager" <==> role == "manager"
    ensures route == "/dashboard/staff" <==> role == "staff"
    ensures role != "manager" && role != "staff" ==> route == "/dashboard"
  {
    match role
    case "manager" => "/dashboard/manager"
    case "staff" => "/dashboard/staff"
    case _ => "/dashboard"
  }

  /** `handleAuthError`: two known messages are reworded; any other is shown as is, or a default when empty. */
  function AuthErrorMessage(message: string): (shown: string)
    ensures shown != ""
    ensures message != "Invalid login credentials" && message != "Email not confirmed" && message != ""
            ==> shown == message
  {
    match message
    case "Invalid login credentials" => "Invalid email or password"
    case "Email not confirmed" => "Please verify your email before signing in"
    case _ => if message != "" then message else "Failed to sign in"
  }

  /** `err.message || 'An error occurred during sign in'`. */
  function ThrownMessage(message: string): (shown: string)
    ensures shown != ""
  {
    if message != "" then message else "An error occurred during sign in"
  }

  /** `checkAuthenticationStatus`: where the page navigates on mount, if anywhere. */
  function MountRoute(session: Option<Session>): (route: Option<string>)
    ensures route.Some? <==> session.Some? && session.value.user.Some?
  {
    if session.Some? && session.value.user.Some? then Some(DashboardPath(session.value.user.value.role)) else None
  }

  /** The outcome of an attempt that passed validation, from the service's answer and the router's outcomes. */
  function SignInOutcome(response: SignInResponse, push: Nav, fallback: Nav): Attempt {
    match response
    case CallThrew(m) => Attempt(Some(ThrownMessage(m)), [], false)
    case AuthFailed(m) => Attempt(Some(AuthErrorMessage(m)), [], false)
    case NoSession => Attempt(Some("Authentication failed"), [], false)
    case SessionCreated(role) =>
      var path := DashboardPath(role);
      if push.NavOk? then Attempt(None, [path], true)
      else if fallback.NavOk? then Attempt(None, [path, "/dashboard"], false)
      else Attempt(Some(ThrownMessage(fallback.message)), [path, "/dashboard"], false)
  }

  /** The page's state. */
  class SignInPage {
    var email: string
    var password: string
    var loading: bool
    var error: Option<string>
    /** Every path handed to `router.push`, oldest first. */
    var navigations: seq<string>
    var refreshed: bool

    constructor ()
      ensures email == "" && password == "" && !loading && error == None && navigations == [] && !refreshed
    {
      email, password := "", "";
      loading, error := false, None;
      navigations, refreshed := [], false;
    }

    /** `handleInputChange`: the named field takes the typed value, the other is kept. */
    method HandleInputChange(field: Field, value: string)
      modifies this`email, this`password
      ensures field == Email ==> email == value && password == old(password)
      ensures field == Password ==> password == value && email == old(email)
    {
      match field {
        case Email => email := value;
        case Password => password := value;
      }
    }

    /** `handleSignIn`, given the service's answer and the outcomes of the two router calls. */
    method HandleSignIn(response: SignInResponse, push: Nav, fallback: Nav)
      requires !loading
      modifies this`loading, this`error, this`navigations, this`refreshed
      ensures !loading
      ensures !ValidForm(email, password) ==>
                error == old(error) && navigations == old(navigations) && refreshed == old(refreshed)
      ensures ValidForm(email, password) ==>
                var a := SignInOutcome(response, push, fallback);
                error == a.error && navigations == old(navigations) + a.navigations &&
                refreshed == (old(refreshed) || a.refreshed)
    {
      if !ValidForm(email, password) {
        return;
      }
      loading := true;
      error := None;
      match response {
        case AuthFailed(m) =>
          error := Some(AuthErrorMessage(m));
        case SessionCreated(role) =>
          var path := DashboardPath(role);
          navigations := navigations + [path];
          if push.NavOk? {
            refreshed := true;
          } else {
            navigations := navigations + ["/dashboard"];
            if fallback.NavThrew? {
              error := Some(ThrownMessage(fallback.message));
            }
          }
        case NoSession =>
          error := Some("Authentication failed");
        case CallThrew(m) =>
          error := Some(ThrownMessage(m));
      }
      loading := false;
    }
  }

  // ---------------------------------------------------------------------------
  // Properties

  /** The form is invalid exactly when a field is empty. */
  lemma ValidFormMeaning(email: string, password: string)
    ensures !ValidForm(email, password) <==> email == [] || password == []
  {
  }

  /** The messages the page shows for the service's two known errors, and for an error without a message. */
  lemma KnownAuthErrors()
    ensures AuthErrorMessage("Invalid login credentials") == "Invalid email or password"
    ensures AuthErrorMessage("Email not confirmed") == "Please verify your email before signing in"
    ensures AuthErrorMessage("") == "Failed to sign in"
  {
  }

  /**
   * A session sends its user to the dashboard of their role (manager for
   * `manager`, staff otherwise); a throwing navigation falls back to
   * `/dashboard`, and only a failure of that fallback records an error.
   */
  lemma SessionNavigates(role: Option<string>, push: Nav, fallback: Nav)
    ensures var a := SignInOutcome(SessionCreated(role), push, fallback);
            && |a.navigations| >= 1
            && a.navigations[0] == (if role == Some("manager") then "/dashboard/manager" else "/dashboard/staff")
            && (push.NavOk? <==> a.refreshed)
            && (push.NavThrew? ==> a.navigations == [a.navigations[0], "/dashboard"])
            && (a.error.Some? <==> push.NavThrew? && fallback.NavThrew?)
  {
    DashboardForRole(role);
  }

  /** Every answer other than a session records an error and navigates nowhere. */
  lemma FailureRecordsError(response: SignInResponse, push: Nav, fallback: Nav)
    requires !response.SessionCreated?
    ensures var a := SignInOutcome(response, push, fallback);
            a.error.Some? && a.error.value != "" && a.navigations == [] && !a.refreshed
    ensures response == NoSession ==> SignInOutcome(response, push, fallback).error == Some("Authentication failed")
  {
  }

  /**
   * The mount-time route and the sign-in route agree with the request guard:
   * the path the page navigates to is one the guard lets the same session
   * through.
   */
  lemma MountRouteAgreesWithGuard(session: Option<Session>)
    ensures var r := MountRoute(session);
            r.Some? ==> r.value == DashboardPath(SessionRole(session.value)) && Decide(session, r.value) == Next
  {
    var r := MountRoute(session);
    if r.Some? {
      assert r.value[1] == 'd' && "/auth"[1] == 'a';
    }
  }

  /**
   * `handleRoleBasedRedirect` and the inline route of `handleSignIn` agree on
   * `manager` and `staff` and disagree on every other role: the table sends it
   * to `/dashboard`, the inline rule to the staff dashboard.
   */
  lemma RoleRouteVersusDashboardPath(role: string)
    ensures role == "manager" || role == "staff" ==> RoleRoute(role) == DashboardPath(Some(role))
    ensures role != "manager" && role != "staff" && role != "" ==>
              RoleRoute(role) == "/dashboard" && DashboardPath(Some(role)) == "/dashboard/staff"
  {
  }
}

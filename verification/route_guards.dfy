/** The two route wrappers: `ProtectedRoute` gates on the token and the user's role,
    `PublicRoute` waits for the session and sends signed-in users to their dashboard. */
module RouteGuards {
  import opened Seqs
  import opened Domain
  import opened AuthSession

  /** What a wrapper renders: its children, a redirect, or the loading spinner. */
  datatype Outcome = Render | Redirect(to: string) | Spinner

  const LoginPath: string := "/login"
  const HomePath: string := "/"

  /** The user has a non-empty role listed in `allowedRoles`. */
  predicate RoleAllowed(user: Option<Profile>, allowedRoles: seq<string>)
  {
    var role := RoleOfProfile(user);
    Truthy(role) && role.value in allowedRoles
  }

  /** `ProtectedRoute`: no token sends to the login page; a non-empty role list that the
      user's role is not in sends home; everything else renders. */
  function ProtectedRoute(token: Option<string>, user: Option<Profile>,
                          allowedRoles: Option<seq<string>>): (o: Outcome)
    ensures !Truthy(token) ==> o == Redirect(LoginPath)
    ensures (Truthy(token) && allowedRoles.Some? && |allowedRoles.value| > 0 &&
             !RoleAllowed(user, allowedRoles.value)) ==> o == Redirect(HomePath)
    ensures Truthy(token) && allowedRoles.Some? && RoleAllowed(user, allowedRoles.value) ==> o == Render
    ensures Truthy(token) && (allowedRoles.None? || allowedRoles.value == []) ==> o == Render
    ensures !o.Spinner?
  {
    if !Truthy(token) then Redirect(LoginPath)
    else if allowedRoles.Some? && |allowedRoles.value| > 0 && !RoleAllowed(user, allowedRoles.value)
    then Redirect(HomePath)
    else Render
  }

  /** The dashboard a signed-in user is sent to from a restricted public page. */
  function DashboardFor(role: Option<string>): (path: string)
    ensures role == Some(RoleAdmin) ==> path == "/dashboard/admin"
    ensures role == Some(RoleDriver) ==> path == "/dashboard/driver"
    ensures role == Some(RoleUser) ==> path == "/dashboard"
    ensures role != Some(RoleAdmin) && role != Some(RoleDriver) && role != Some(RoleUser) ==> path == HomePath
  {
    if role == Some(RoleAdmin) then "/dashboard/admin"
    else if role == Some(RoleDriver) then "/dashboard/driver"
    else if role == Some(RoleUser) then "/dashboard"
    else HomePath
  }

  /** `PublicRoute`: the spinner until the session is initialized and idle; then, on a
      restricted page, a signed-in user is redirected by role; otherwise it renders. */
  function PublicRoute(token: Option<string>, user: Option<Profile>, initialized: bool,
                       loading: bool, restricted: bool): (o: Outcome)
    ensures o == Spinner <==> !initialized || loading
    ensures initialized && !loading && restricted && Truthy(token) && user.Some? ==>
      o == Redirect(DashboardFor(RoleOfProfile(user)))
    ensures initialized && !loading && !(restricted && Truthy(token) && user.Some?) ==> o == Render
  {
    if !initialized || loading then Spinner
    else if restricted && Truthy(token) && user.Some? then Redirect(DashboardFor(RoleOfProfile(user)))
    else Render
  }

  /** `restricted` defaults to false: such a page renders as soon as the session is idle. */
  lemma UnrestrictedRendersWhenIdle(token: Option<string>, user: Option<Profile>)
    ensures PublicRoute(token, user, true, false, false) == Render
  {
  }

  /** The two guards read the same session: once any of the three thunks has settled,
      no public page shows the spinner. */
  lemma SettledSessionShowsNoSpinner(s: AuthState, e: Event, restricted: bool)
    requires e.Settles()
    ensures var r := Apply(s, e);
      PublicRoute(r.token, r.user, r.initialized, r.loading, restricted) != Spinner
  {
  }

  /** After logout every protected page redirects to the login page, and the login page
      itself (restricted) renders once nothing is loading. */
  lemma LogoutLocksProtectedPages(s: AuthState, allowedRoles: Option<seq<string>>)
    ensures var r := Apply(s, Logout);
      ProtectedRoute(r.token, r.user, allowedRoles) == Redirect(LoginPath) &&
      (!r.loading ==> PublicRoute(r.token, r.user, r.initialized, r.loading, true) == Render)
  {
  }

  /** A successful sign-in with a token and a role opens exactly the routes listing that
      role, and sends the login page to that role's dashboard. */
  lemma SignInOpensRoleRoutes(s: AuthState, token: string, profile: Profile, allowedRoles: seq<string>)
    requires token != "" && RoleField in profile && profile[RoleField] != ""
    requires |allowedRoles| > 0
    ensures var r := Apply(s, SignInFulfilled(Some(token), profile));
      (ProtectedRoute(r.token, r.user, Some(allowedRoles)) == Render <==> profile[RoleField] in allowedRoles) &&
      PublicRoute(r.token, r.user, r.initialized, r.loading, true) ==
        Redirect(DashboardFor(Some(profile[RoleField])))
  {
  }

  /** The role lists of the dashboard routes: a driver may open the shared dashboard but
      neither the rent form nor the admin pages. */
  lemma DriverOnAppRoutes(token: string, profile: Profile)
    requires token != "" && RoleField in profile && profile[RoleField] == RoleDriver
    ensures ProtectedRoute(Some(token), Some(profile), Some([RoleUser, RoleAdmin, RoleDriver])) == Render
    ensures ProtectedRoute(Some(token), Some(profile), Some([RoleUser])) == Redirect(HomePath)
    ensures ProtectedRoute(Some(token), Some(profile), Some([RoleAdmin])) == Redirect(HomePath)
  {
  }
}

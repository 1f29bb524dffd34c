/** The hash router (src/App.tsx): the current path, the three redirect
    guards on the session flags, and the page switch. Setting
    `window.location.hash` and the `hashchange` listener are the caller's
    loop: a `Redirect` outcome is the next hash. */
module Router {
  import opened Types
  import Auth

  datatype Page = LandingPage | LoginPage | RegisterPage | DashboardPage | TasksPage | WithdrawPage | AdminPage

  datatype Outcome = Redirect(to: string) | Render(page: Page)

  const ProtectedRoutes: seq<string> := ["/dashboard", "/tasks", "/withdraw"]
  const PublicRoutes: seq<string> := ["/", "/login", "/register"]

  /** `window.location.hash.slice(1) || '/'` for a hash that is empty or
      starts with `#`. */
  function CurrentPath(hash: string): (p: string)
    ensures p != ""
    ensures |hash| <= 1 ==> p == "/"
  {
    if |hash| <= 1 then "/" else hash[1..]
  }

  /** Setting the hash to a non-empty path reads that path back. */
  lemma CurrentPathOfHash(p: string)
    requires p != ""
    ensures CurrentPath("#" + p) == p
  {
    assert ("#" + p)[1..] == p;
  }

  /** The `switch` reached once no guard has fired. */
  function Switch(path: string, isAuthenticated: bool, isAdmin: bool): (r: Outcome)
    ensures r.Redirect? ==> r.to == "/dashboard" || r.to == "/login"
    ensures path !in PublicRoutes && path !in ProtectedRoutes && path != "/admin" ==> r == Render(LandingPage)
    ensures r == Render(AdminPage) <==> path == "/admin" && isAdmin
  {
    if path == "/" then Render(LandingPage)
    else if path == "/login" then (if isAuthenticated then Redirect("/dashboard") else Render(LoginPage))
    else if path == "/register" then (if isAuthenticated then Redirect("/dashboard") else Render(RegisterPage))
    else if path == "/dashboard" then (if isAuthenticated && !isAdmin then Render(DashboardPage) else Redirect("/login"))
    else if path == "/tasks" then (if isAuthenticated && !isAdmin then Render(TasksPage) else Redirect("/login"))
    else if path == "/withdraw" then (if isAuthenticated && !isAdmin then Render(WithdrawPage) else Redirect("/login"))
    else if path == "/admin" then (if isAdmin then Render(AdminPage) else Redirect("/login"))
    else Render(LandingPage)
  }

  /** The guard that fires on this path and these flags, if any. */
  function Guard(path: string, isAuthenticated: bool, isAdmin: bool): (r: Option<string>)
    ensures r.Some? ==> r.value in ["/admin", "/dashboard", "/login"]
  {
    if isAdmin && path != "/admin" then Some("/admin")
    else if isAuthenticated && !isAdmin && path !in ProtectedRoutes && path != "/" then Some("/dashboard")
    else if !isAuthenticated && path !in PublicRoutes then Some("/login")
    else None
  }

  /** What `Router` does on a path: a guard's redirect, else the switch. */
  function Route(path: string, isAuthenticated: bool, isAdmin: bool): (r: Outcome)
    ensures r == Render(AdminPage) ==> isAdmin
    ensures r.Render? && r.page in {DashboardPage, TasksPage, WithdrawPage} ==> isAuthenticated && !isAdmin
    ensures r.Render? && r.page in {LoginPage, RegisterPage} ==> !isAuthenticated
    ensures isAdmin && isAuthenticated ==> r == Redirect("/admin") || (path == "/admin" && r == Render(AdminPage))
  {
    match Guard(path, isAuthenticated, isAdmin)
    case Some(to) => Redirect(to)
    case None => Switch(path, isAuthenticated, isAdmin)
  }

  /** The session flags of any state the provider reaches: an administrator
      is always authenticated. */
  predicate Reachable(isAuthenticated: bool, isAdmin: bool) {
    isAdmin ==> isAuthenticated
  }

  /** The provider's flags are reachable after a mount from any storage, and
      login, registration, logout and a credit keep them reachable. */
  lemma ProviderKeepsReachable(st: Auth.LedgerState, dana: string, password: string, data: RegisterData,
                               id: string, codeSuffix: string, referralId: string, now: int, amount: int)
    ensures var m := Auth.Mounted(st); Reachable(m.isAuthenticated, m.isAdmin)
    ensures Reachable(st.isAuthenticated, st.isAdmin) ==>
      && (var r := Auth.AfterLogin(st, dana, password); Reachable(r.isAuthenticated, r.isAdmin))
      && (var r := Auth.AfterRegister(st, data, id, codeSuffix, referralId, now); Reachable(r.isAuthenticated, r.isAdmin))
      && (var r := Auth.AfterLogout(st); Reachable(r.isAuthenticated, r.isAdmin))
      && (var r := Auth.AfterUpdateBalance(st, amount); Reachable(r.isAuthenticated, r.isAdmin))
  {
  }

  /** Every redirect comes from a guard: the switch's own redirects are
      never reached with reachable flags. */
  lemma SwitchRedirectsUnreachable(path: string, isAuthenticated: bool, isAdmin: bool)
    requires Reachable(isAuthenticated, isAdmin)
    requires Guard(path, isAuthenticated, isAdmin).None?
    ensures Switch(path, isAuthenticated, isAdmin).Render?
  {
  }

  /** A redirect settles in one hop: the path it names renders a page. */
  lemma RedirectSettles(path: string, isAuthenticated: bool, isAdmin: bool)
    requires Reachable(isAuthenticated, isAdmin)
    requires Route(path, isAuthenticated, isAdmin).Redirect?
    ensures Route(Route(path, isAuthenticated, isAdmin).to, isAuthenticated, isAdmin).Render?
  {
    var to := Route(path, isAuthenticated, isAdmin).to;
    assert to in ["/admin", "/dashboard", "/login"];
    SwitchRedirectsUnreachable(to, isAuthenticated, isAdmin);
  }

  /** Signed out, the earning and withdrawal pages send the visitor to the
      login page, which then renders. */
  lemma SignedOutReachesLogin(path: string)
    requires path in ProtectedRoutes || path == "/admin"
    ensures Route(path, false, false) == Redirect("/login")
    ensures Route("/login", false, false) == Render(LoginPage)
  {
  }

  /** A signed-in user renders exactly the three member pages and the
      landing page; every other path goes to the dashboard. */
  lemma MemberPages(path: string)
    ensures Route(path, true, false).Render? <==> path in ProtectedRoutes || path == "/"
    ensures !Route(path, true, false).Render? ==> Route(path, true, false) == Redirect("/dashboard")
  {
  }

  /** Signed out, exactly the public paths render; every other path, known
      or not, goes to the login page. */
  lemma SignedOutPages(path: string)
    ensures Route(path, false, false).Render? <==> path in PublicRoutes
    ensures !Route(path, false, false).Render? ==> Route(path, false, false) == Redirect("/login")
  {
  }
}

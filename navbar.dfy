/** src/components/Navbar.jsx: where the logo and "Home" links point, and
    when the "Home" link is highlighted. */
module Navbar {
  import opened Wrappers
  import opened Storage
  import App

  /** getHomePath, as written: it reads the user record's `type` property. */
  function HomePath(user: Option<App.User>): (r: string)
    ensures user.None? ==> r == "/"
    ensures user.Some? && user.value.userType == Some(App.StudentRole) ==> r == App.MatchPath
    ensures user.Some? && user.value.userType == Some(App.AdvisorRole) ==> r == App.LecturerDashboardPath
    ensures r in {"/", App.MatchPath, App.LecturerDashboardPath}
  {
    if user.None? then "/"
    else if user.value.userType == Some(App.StudentRole) then App.MatchPath
    else if user.value.userType == Some(App.AdvisorRole) then App.LecturerDashboardPath
    else "/"
  }

  /** getDashboardPath, as written (a second copy of the same branches). */
  function DashboardPath(user: Option<App.User>): (r: string)
    ensures user.None? ==> r == "/"
    ensures user.Some? && user.value.userType == Some(App.StudentRole) ==> r == App.MatchPath
    ensures user.Some? && user.value.userType == Some(App.AdvisorRole) ==> r == App.LecturerDashboardPath
    ensures r == "/" <==> (user.None? || (user.value.userType != Some(App.StudentRole)
                                      && user.value.userType != Some(App.AdvisorRole)))
  {
    if user.None? then "/"
    else if user.value.userType == Some(App.StudentRole) then App.MatchPath
    else if user.value.userType == Some(App.AdvisorRole) then App.LecturerDashboardPath
    else "/"
  }

  /** The two path functions agree for every user. */
  lemma HomeAndDashboardAgree(user: Option<App.User>)
    ensures HomePath(user) == DashboardPath(user)
  {
  }

  /** The user record App stores carries `role`, not `type`: for such a record
      both links fall back to "/" though the user is a student. */
  lemma RoleOnlyStudentGoesHome()
    ensures HomePath(Some(App.User(Some(App.StudentRole), None))) == "/"
  {
  }

  /** The evidently intended home path, keyed on `role` as everything else in
      the client is. */
  function HomePathByRole(user: Option<App.User>): (r: string)
    ensures user.None? ==> r == "/"
    ensures App.IsRole(user, App.StudentRole) ==> r == App.MatchPath
    ensures App.IsRole(user, App.AdvisorRole) ==> r == App.LecturerDashboardPath
    ensures user.Some? && !App.IsRole(user, App.StudentRole) && !App.IsRole(user, App.AdvisorRole) ==> r == "/"
  {
    if user.None? then "/"
    else if user.value.role == Some(App.StudentRole) then App.MatchPath
    else if user.value.role == Some(App.AdvisorRole) then App.LecturerDashboardPath
    else "/"
  }

  /** Keyed on `role`, the link only ever points at a page the route table
      renders for that user (or at "/" for nobody). */
  lemma HomePathByRoleRenders(user: Option<App.User>, sp: Option<App.StudentRecord>, ap: Option<App.AdvisorRecord>)
    requires user.None? || App.IsRole(user, App.StudentRole) || App.IsRole(user, App.AdvisorRole)
    ensures App.RouteElement(HomePathByRole(user), user, sp, ap).Render?
  {
  }

  /** The "Home" link's highlight. */
  predicate HomeActive(pathname: string): (r: bool)
    ensures r ==> pathname == App.HomePath || pathname in App.StudentPaths + App.AdvisorPaths
    ensures r ==> pathname != App.CompleteProfilePath && pathname != App.LecturerProfilePath
    ensures pathname == App.HomePath || pathname == App.MatchPath ==> r
  {
    pathname == "/" || pathname == App.StudentDashboardPath
    || pathname == App.LecturerDashboardPath || pathname == App.MatchPath
  }

  /** Both versions of the link point at a path on which the "Home" link
      itself is highlighted. */
  lemma HomeLinkHighlightedOnItsTarget(user: Option<App.User>)
    ensures HomeActive(HomePath(user)) && HomeActive(HomePathByRole(user))
  {
  }

  /** The highlight is off on the sign-in, registration and profile pages. */
  lemma HomeNotHighlightedOnFormPages(pathname: string)
    requires pathname in {App.LoginPath, App.StudentRegisterPath, App.LecturerRegisterPath,
                          App.CompleteProfilePath, App.LecturerProfilePath, App.LegacyStudentProfilePath}
    ensures !HomeActive(pathname)
  {
  }

  /** handleLogout: App's logout, then a move to "/", which then renders the
      home page. The bar is only shown once the user has loaded. */
  method HandleLogout(session: App.Session) returns (to: string)
    requires !session.loadingUser
    modifies session, session.store
    ensures session.user.None? && session.studentProfile.None? && session.advisorProfile.None?
    ensures session.store.items == old(session.store.items) - {TokenKey, UserKey}
    ensures to == App.HomePath && session.View(to) == App.Render(App.HomePage)
  {
    session.Logout();
    to := App.HomePath;
  }
}

/** src/App.js: the redirect policy, the route table and the session state
    (boot from storage, login, logout, and the two background profile checks). */
module App {
  import opened Wrappers
  import opened Storage

  const StudentRole := "student"
  const AdvisorRole := "advisor"

  const HomePath := "/"
  const LoginPath := "/login"
  const StudentRegisterPath := "/student-register"
  const LecturerRegisterPath := "/lecturer-register"
  const CompleteProfilePath := "/complete-profile"
  const MatchPath := "/match"
  const StudentDashboardPath := "/student-dashboard"
  const LecturerDashboardPath := "/lecturer-dashboard"
  const LecturerProfilePath := "/lecturer-profile"
  const LegacyStudentProfilePath := "/student-profile"

  /** The routes that render their page only when nobody is signed in. */
  const PublicPaths: set<string> := {HomePath, LoginPath, StudentRegisterPath, LecturerRegisterPath}
  /** The routes that render only for `user.role === "student"`. */
  const StudentPaths: set<string> := {CompleteProfilePath, MatchPath, StudentDashboardPath}
  /** The routes that render only for `user.role === "advisor"`. */
  const AdvisorPaths: set<string> := {LecturerDashboardPath, LecturerProfilePath}

  /** The parsed `user` record. `role` is what App compares; `userType` is the
      record's `type` property, which only the navigation bar reads. */
  datatype User = User(role: Option<string>, userType: Option<string>)

  /** The student profile as App caches it: `researchInterests` may be missing,
      `hasMatched` stands for the property's truthiness. */
  datatype StudentRecord = StudentRecord(researchInterests: Option<seq<string>>, hasMatched: bool)

  /** The advisor profile as App caches it (`completedProfile`'s truthiness). */
  datatype AdvisorRecord = AdvisorRecord(completedProfile: bool)

  /** The screens the route table can render. */
  datatype Page =
    | HomePage | LoginPage | StudentRegisterPage | LecturerRegisterPage
    | StudentProfilePage | MatchPage | StudentDashboardPage
    | LecturerDashboardPage | LecturerProfilePage

  /** What App renders for a location: the loading spinner, a page, or a
      `<Navigate replace>` to another path. */
  datatype Element = Loading | Render(page: Page) | Navigate(to: string)

  predicate IsRole(user: Option<User>, role: string) {
    user.Some? && user.value.role == Some(role)
  }

  /** A student's profile counts as completed when it has a non-empty
      `researchInterests` list. */
  predicate StudentCompleted(sp: Option<StudentRecord>) {
    sp.Some? && sp.value.researchInterests.Some? && |sp.value.researchInterests.value| > 0
  }

  /** getStudentRedirectPath. */
  function StudentRedirectPath(sp: Option<StudentRecord>): (r: string)
    ensures r in StudentPaths
    ensures r == CompleteProfilePath <==> !StudentCompleted(sp)
    ensures r == MatchPath <==> StudentCompleted(sp) && !sp.value.hasMatched
    ensures r == StudentDashboardPath <==> StudentCompleted(sp) && sp.value.hasMatched
  {
    if sp.None? || sp.value.researchInterests.None? || |sp.value.researchInterests.value| == 0 then
      CompleteProfilePath
    else if !sp.value.hasMatched then
      MatchPath
    else
      StudentDashboardPath
  }

  /** getAdvisorRedirectPath. */
  function AdvisorRedirectPath(ap: Option<AdvisorRecord>): (r: string)
    ensures r in AdvisorPaths
    ensures r == LecturerDashboardPath <==> ap.Some? && ap.value.completedProfile
    ensures r == LecturerProfilePath <==> ap.None? || !ap.value.completedProfile
  {
    if ap.None? || !ap.value.completedProfile then LecturerProfilePath else LecturerDashboardPath
  }

  /** The target of the public routes "/", "/login" and "/student-register" for
      a signed-in user: student first, then advisor, otherwise "/". */
  function SignedInTarget(u: User, sp: Option<StudentRecord>, ap: Option<AdvisorRecord>): (r: string)
    ensures u.role == Some(StudentRole) ==> r == StudentRedirectPath(sp)
    ensures u.role == Some(AdvisorRole) ==> r == AdvisorRedirectPath(ap)
    ensures u.role != Some(StudentRole) && u.role != Some(AdvisorRole) ==> r == HomePath
  {
    if u.role == Some(StudentRole) then StudentRedirectPath(sp)
    else if u.role == Some(AdvisorRole) then AdvisorRedirectPath(ap)
    else HomePath
  }

  /** The target of "/lecturer-register" for a signed-in user, which tests the
      advisor role before the student role. */
  function LecturerRegisterTarget(u: User, sp: Option<StudentRecord>, ap: Option<AdvisorRecord>): (r: string)
    ensures u.role == Some(AdvisorRole) ==> r == AdvisorRedirectPath(ap) && r in AdvisorPaths
    ensures u.role == Some(StudentRole) ==> r == StudentRedirectPath(sp) && r in StudentPaths
    ensures r == HomePath <==> u.role != Some(StudentRole) && u.role != Some(AdvisorRole)
  {
    if u.role == Some(AdvisorRole) then AdvisorRedirectPath(ap)
    else if u.role == Some(StudentRole) then StudentRedirectPath(sp)
    else HomePath
  }

  /** The two orders of the role test give the same target, since a role is
      never both. */
  lemma PublicTargetsAgree(u: User, sp: Option<StudentRecord>, ap: Option<AdvisorRecord>)
    ensures LecturerRegisterTarget(u, sp, ap) == SignedInTarget(u, sp, ap)
  {
  }

  /** A public route: its page with nobody signed in, else the role's target. */
  function PublicRoute(user: Option<User>, target: User -> string, page: Page): Element {
    if user.Some? then Navigate(target(user.value)) else Render(page)
  }

  /** A route guarded by a role: its page for that role, else "/login". */
  function GuardedRoute(user: Option<User>, role: string, page: Page): Element {
    if IsRole(user, role) then Render(page) else Navigate(LoginPath)
  }

  function PublicPage(path: string): Page
    requires path in PublicPaths
  {
    if path == HomePath then HomePage
    else if path == LoginPath then LoginPage
    else if path == StudentRegisterPath then StudentRegisterPage
    else LecturerRegisterPage
  }

  /** The `<Routes>` table, once the user has loaded. */
  function RouteElement(path: string, user: Option<User>, sp: Option<StudentRecord>, ap: Option<AdvisorRecord>): (e: Element)
    ensures path in PublicPaths && user.None? ==> e == Render(PublicPage(path))
    ensures path in PublicPaths && user.Some? ==> e == Navigate(SignedInTarget(user.value, sp, ap))
    ensures path in StudentPaths + AdvisorPaths ==> e.Render? || e == Navigate(LoginPath)
    ensures path in StudentPaths ==> (e.Render? <==> IsRole(user, StudentRole))
    ensures path in AdvisorPaths ==> (e.Render? <==> IsRole(user, AdvisorRole))
    ensures path == LegacyStudentProfilePath ==>
      e == Navigate(if IsRole(user, StudentRole) then StudentRedirectPath(sp) else LoginPath)
    ensures path !in PublicPaths + StudentPaths + AdvisorPaths + {LegacyStudentProfilePath} ==>
      e == Navigate(HomePath)
  {
    var signedIn := (u: User) => SignedInTarget(u, sp, ap);
    if path == HomePath then PublicRoute(user, signedIn, HomePage)
    else if path == LoginPath then PublicRoute(user, signedIn, LoginPage)
    else if path == StudentRegisterPath then PublicRoute(user, signedIn, StudentRegisterPage)
    else if path == LecturerRegisterPath then
      PublicRoute(user, (u: User) => LecturerRegisterTarget(u, sp, ap), LecturerRegisterPage)
    else if path == CompleteProfilePath then GuardedRoute(user, StudentRole, StudentProfilePage)
    else if path == MatchPath then GuardedRoute(user, StudentRole, MatchPage)
    else if path == StudentDashboardPath then GuardedRoute(user, StudentRole, StudentDashboardPage)
    else if path == LecturerDashboardPath then GuardedRoute(user, AdvisorRole, LecturerDashboardPage)
    else if path == LecturerProfilePath then GuardedRoute(user, AdvisorRole, LecturerProfilePage)
    else if path == LegacyStudentProfilePath then
      if IsRole(user, StudentRole) then Navigate(StudentRedirectPath(sp)) else Navigate(LoginPath)
    else Navigate(HomePath)
  }

  /** Follows at most `hops` redirects from `path`. */
  function Follow(path: string, user: Option<User>, sp: Option<StudentRecord>, ap: Option<AdvisorRecord>, hops: nat): Element
    decreases hops
  {
    var e := RouteElement(path, user, sp, ap);
    if hops == 0 || !e.Navigate? then e else Follow(e.to, user, sp, ap, hops - 1)
  }

  /** Every policy target is a page guarded for the same role, so following
      the target renders it without a second redirect. */
  lemma TargetRenders(u: User, sp: Option<StudentRecord>, ap: Option<AdvisorRecord>)
    requires u.role == Some(StudentRole) || u.role == Some(AdvisorRole)
    ensures RouteElement(SignedInTarget(u, sp, ap), Some(u), sp, ap).Render?
  {
  }

  /** With nobody signed in, or with a student or advisor signed in, any
      location renders a page after at most two redirects. */
  lemma RedirectsSettle(path: string, user: Option<User>, sp: Option<StudentRecord>, ap: Option<AdvisorRecord>)
    requires user.None? || IsRole(user, StudentRole) || IsRole(user, AdvisorRole)
    ensures Follow(path, user, sp, ap, 2).Render?
  {
    var e := RouteElement(path, user, sp, ap);
    if e.Navigate? {
      var e1 := RouteElement(e.to, user, sp, ap);
      if user.Some? {
        TargetRenders(user.value, sp, ap);
      }
      if e1.Navigate? {
        assert Follow(e1.to, user, sp, ap, 0) == RouteElement(e1.to, user, sp, ap);
      }
    }
  }

  /** A signed-in user whose role is neither "student" nor "advisor" is sent
      from "/" back to "/", however many redirects are followed. */
  lemma {:induction false} UnknownRoleNeverSettles(u: User, sp: Option<StudentRecord>, ap: Option<AdvisorRecord>, hops: nat)
    requires u.role != Some(StudentRole) && u.role != Some(AdvisorRole)
    ensures Follow(HomePath, Some(u), sp, ap, hops) == Navigate(HomePath)
  {
    if hops > 0 {
      UnknownRoleNeverSettles(u, sp, ap, hops - 1);
    }
  }

  /** The outcome of `JSON.parse` on the stored user text: a throw, the value
      `null` (whose `.role` throws inside the same `try`), or a record. */
  datatype ParseOutcome = Malformed | JsonNull | JsonValue(user: User)

  /** The background profile fetch a session step starts, with its token. */
  datatype ProfileCheck = NoCheck | CheckStudent(token: string) | CheckAdvisor(token: string)

  /** Which profile fetch follows a user's sign-in, by role. */
  function CheckFor(u: User, token: string): (c: ProfileCheck)
    ensures c.CheckStudent? <==> u.role == Some(StudentRole)
    ensures c.CheckAdvisor? <==> u.role == Some(AdvisorRole)
    ensures !c.NoCheck? ==> c.token == token
  {
    if u.role == Some(StudentRole) then CheckStudent(token)
    else if u.role == Some(AdvisorRole) then CheckAdvisor(token)
    else NoCheck
  }

  /** The result of `GET /api/match/student/profile`: an ok response with its
      JSON body (`None` for `null`), a non-ok status, or a thrown error. */
  datatype StudentResponse = StudentOk(body: Option<StudentRecord>) | StudentNotOk(status: int) | StudentFailed

  /** The result of `POST /api/advisors/profile`: an ok response with its
      `success` flag and `advisor` property, a non-ok status, or a thrown error. */
  datatype AdvisorResponse =
    | AdvisorOk(success: bool, advisor: Option<AdvisorRecord>)
    | AdvisorNotOk(status: int)
    | AdvisorFailed

  /** The profile App caches after a student check. */
  function StudentAfter(cached: Option<StudentRecord>, r: StudentResponse): (p: Option<StudentRecord>)
    ensures !r.StudentOk? ==> p == cached
    ensures r.StudentOk? ==> p == r.body
  {
    if r.StudentOk? then r.body else cached
  }

  /** The profile App caches after an advisor check. */
  function AdvisorAfter(cached: Option<AdvisorRecord>, r: AdvisorResponse): (p: Option<AdvisorRecord>)
    ensures p != cached ==> r.AdvisorOk? && r.success
    ensures r.AdvisorOk? && r.success ==> p == r.advisor
  {
    if r.AdvisorOk? && r.success then r.advisor else cached
  }

  /** The state App holds, over the shared storage. */
  class Session {
    const store: LocalStorage
    var user: Option<User>
    var loadingUser: bool
    var studentProfile: Option<StudentRecord>
    var advisorProfile: Option<AdvisorRecord>

    /** The first render: nobody signed in, still loading. */
    constructor (store: LocalStorage)
      ensures this.store == store
      ensures user.None? && loadingUser && studentProfile.None? && advisorProfile.None?
    {
      this.store := store;
      user := None;
      loadingUser := true;
      studentProfile := None;
      advisorProfile := None;
    }

    /** What App renders at `path`. */
    function View(path: string): (e: Element)
      reads this
      ensures e.Loading? <==> loadingUser
      ensures !loadingUser ==> e == RouteElement(path, user, studentProfile, advisorProfile)
    {
      if loadingUser then Loading else RouteElement(path, user, studentProfile, advisorProfile)
    }

    /** The mount effect: restore the user when both keys hold a value, clear
        both keys when the user text does not parse to a record, and start
        the role's profile check. A `null` text is set as the user before
        reading its role throws, so it leaves nobody signed in; a malformed
        text throws before the user is set. Loading ends at once, before any
        check completes. */
    method Boot(parse: string -> ParseOutcome) returns (check: ProfileCheck)
      modifies this, store
      ensures !loadingUser
      ensures studentProfile == old(studentProfile) && advisorProfile == old(advisorProfile)
      ensures user != old(user) ==> old(store.Holds(TokenKey)) && old(store.Holds(UserKey))
      ensures user.Some? && user != old(user) ==> store.items == old(store.items)
      ensures !(old(store.Holds(TokenKey)) && old(store.Holds(UserKey))) ==>
        user == old(user) && check.NoCheck? && store.items == old(store.items)
      ensures old(store.Holds(TokenKey)) && old(store.Holds(UserKey)) ==>
        var outcome := parse(old(store.items[UserKey]));
        match outcome
        case JsonValue(u) =>
          user == Some(u) && store.items == old(store.items) && check == CheckFor(u, old(store.items[TokenKey]))
        case JsonNull =>
          user.None? && check.NoCheck? && store.items == old(store.items) - {TokenKey, UserKey}
        case Malformed =>
          user == old(user) && check.NoCheck? && store.items == old(store.items) - {TokenKey, UserKey}
    {
      check := NoCheck;
      var token := store.GetItem(TokenKey);
      var userData := store.GetItem(UserKey);
      if token.Some? && token.value != "" && userData.Some? && userData.value != "" {
        var outcome := parse(userData.value);
        match outcome {
          case JsonValue(u) =>
            user := Some(u);
            check := CheckFor(u, token.value);
          case JsonNull =>
            user := None;
            store.RemoveItem(TokenKey);
            store.RemoveItem(UserKey);
          case Malformed =>
            store.RemoveItem(TokenKey);
            store.RemoveItem(UserKey);
        }
      }
      loadingUser := false;
    }

    /** checkStudentProfile's completion: only an ok response is cached. */
    method OnStudentResponse(r: StudentResponse)
      modifies this
      ensures studentProfile == StudentAfter(old(studentProfile), r)
      ensures user == old(user) && loadingUser == old(loadingUser) && advisorProfile == old(advisorProfile)
    {
      if r.StudentOk? {
        studentProfile := r.body;
      }
    }

    /** checkAdvisorProfile's completion: only an ok response with `success`
        is cached; a 404 and every other failure leave the cache as it was. */
    method OnAdvisorResponse(r: AdvisorResponse)
      modifies this
      ensures advisorProfile == AdvisorAfter(old(advisorProfile), r)
      ensures user == old(user) && loadingUser == old(loadingUser) && studentProfile == old(studentProfile)
    {
      if r.AdvisorOk? {
        if r.success {
          advisorProfile := r.advisor;
        }
      } else if r.AdvisorNotOk? && r.status == 404 {
        // not created yet: nothing to cache
      }
    }

    /** login: persist both keys (`userText` is `JSON.stringify(userData)`),
        set the user and start the role's profile check. Cached profiles are
        not touched. */
    method Login(userData: User, token: string, userText: string) returns (check: ProfileCheck)
      modifies this, store
      ensures store.items == old(store.items)[TokenKey := token][UserKey := userText]
      ensures user == Some(userData)
      ensures check == CheckFor(userData, token)
      ensures loadingUser == old(loadingUser)
      ensures studentProfile == old(studentProfile) && advisorProfile == old(advisorProfile)
    {
      store.SetItem(TokenKey, token);
      store.SetItem(UserKey, userText);
      user := Some(userData);
      check := CheckFor(userData, token);
    }

    /** logout: remove both keys and forget the user and both profiles;
        afterwards every guarded route sends the visitor to "/login". */
    method Logout()
      modifies this, store
      ensures store.items == old(store.items) - {TokenKey, UserKey}
      ensures user.None? && studentProfile.None? && advisorProfile.None?
      ensures loadingUser == old(loadingUser)
      ensures forall p :: p in StudentPaths + AdvisorPaths + {LegacyStudentProfilePath} ==>
        RouteElement(p, user, studentProfile, advisorProfile) == Navigate(LoginPath)
    {
      store.RemoveItem(TokenKey);
      store.RemoveItem(UserKey);
      user := None;
      studentProfile := None;
      advisorProfile := None;
    }
  }
}

/**
 * The route table of `src/App.tsx`: which element each path shows, and with which guard
 * flags. Combined with the guard it gives what a visitor sees on each path.
 */
module Routes {
  import opened Auth
  import opened Guard

  datatype Page = OvertimeInputPage | EmployeeRegistrationPage | ReportsPage | ExportPage | SettingsPage

  /** The element a route renders: the sign-in page, a page inside the guard, or NotFound. */
  datatype Element = AuthPage | Guarded(page: Page, requireAdmin: bool, allowGuests: bool) | NotFound

  /** What the visitor ends up seeing. */
  datatype Screen = Loading | ShowPage(page: Page) | ShowAuthPage | ShowNotFound | Redirected(to: string)

  /** The `<Routes>` table; the last route `*` catches every other path. */
  function RouteFor(path: string): Element {
    if path == "/auth" then AuthPage
    else if path == "/" then Guarded(OvertimeInputPage, false, true)
    else if path == "/employee-registration" then Guarded(EmployeeRegistrationPage, false, true)
    else if path == "/reports" then Guarded(ReportsPage, true, false)
    else if path == "/export" then Guarded(ExportPage, true, false)
    else if path == "/settings" then Guarded(SettingsPage, true, false)
    else NotFound
  }

  /** What a visitor in state `st` sees on `path`. */
  function Visit(path: string, st: AuthState): Screen {
    match RouteFor(path)
    case AuthPage => ShowAuthPage
    case NotFound => ShowNotFound
    case Guarded(page, requireAdmin, allowGuests) =>
      match Decide(st, requireAdmin, allowGuests)
      case Spinner => Loading
      case RenderChildren => ShowPage(page)
      case Redirect(to) => Redirected(to)
  }

  predicate IsGuestPath(path: string) { path == "/" || path == "/employee-registration" }
  predicate IsAdminPath(path: string) { path == "/reports" || path == "/export" || path == "/settings" }

  /** `/auth` is served without a guard, in every state. */
  lemma AuthRouteUnguarded(st: AuthState)
    ensures Visit("/auth", st) == ShowAuthPage
  {
  }

  /** The two guest-open paths show their page to anyone, signed in or not, once loading ends. */
  lemma GuestPathsOpen(path: string, st: AuthState)
    requires IsGuestPath(path) && !st.loading
    ensures Visit(path, st) == ShowPage(RouteFor(path).page)
  {
  }

  /** On the three admin paths, a signed-in `user`-role identity is redirected to `/`. */
  lemma UserRoleSentHomeFromAdminPaths(path: string, st: AuthState)
    requires IsAdminPath(path) && !st.loading && st.signedIn
    requires st.profile.Some? && st.profile.value.role == User
    ensures Visit(path, st) == Redirected("/")
  {
  }

  /** Reports, Export and Settings are shown only to a signed-in admin. */
  lemma AdminPagesOnlyForAdmins(path: string, st: AuthState)
    requires Visit(path, st) == ShowPage(ReportsPage) || Visit(path, st) == ShowPage(ExportPage)
          || Visit(path, st) == ShowPage(SettingsPage)
    ensures IsAdminPath(path) && !st.loading && st.signedIn && IsAdmin(st.profile)
  {
  }

  /** Every path outside the table shows NotFound, without a guard. */
  lemma OtherPathsNotFound(path: string, st: AuthState)
    requires path != "/auth" && !IsGuestPath(path) && !IsAdminPath(path)
    ensures Visit(path, st) == ShowNotFound
  {
  }

  /** No route sets both guard flags, and the admin-only routes are exactly the three admin paths. */
  lemma FlagsNeverBoth(path: string)
    ensures RouteFor(path).Guarded? ==> !(RouteFor(path).requireAdmin && RouteFor(path).allowGuests)
    ensures RouteFor(path).Guarded? && RouteFor(path).requireAdmin <==> IsAdminPath(path)
    ensures RouteFor(path).Guarded? && RouteFor(path).allowGuests <==> IsGuestPath(path)
  {
  }
}

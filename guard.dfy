/**
 * `src/components/AuthGuard.tsx`: what a guarded route shows, decided by an ordered chain
 * of checks on the authentication state and the route's two flags.
 */
module Guard {
  import opened Common
  import opened Auth

  /** What `useAuth()` exposes to the guard: whether a user is signed in, and their profile. */
  datatype AuthState = AuthState(loading: bool, signedIn: bool, profile: Option<Profile>)

  /** What the guard renders. */
  datatype Decision = Spinner | RenderChildren | Redirect(to: string)

  /** The guard's chain: loading, then allowGuests, then no user, then requireAdmin. */
  function Decide(st: AuthState, requireAdmin: bool, allowGuests: bool): Decision {
    if st.loading then Spinner
    else if allowGuests then RenderChildren
    else if !st.signedIn then Redirect("/auth")
    else if requireAdmin && !IsAdmin(st.profile) then Redirect("/")
    else RenderChildren
  }

  /** While the session is loading, the spinner shows whatever the flags and identity. */
  lemma LoadingShowsSpinner(st: AuthState, requireAdmin: bool, allowGuests: bool)
    requires st.loading
    ensures Decide(st, requireAdmin, allowGuests) == Spinner
  {
  }

  /** Once loaded, a guest-open page renders for anyone, even when it also requires admin. */
  lemma GuestsAlwaysRender(st: AuthState, requireAdmin: bool)
    requires !st.loading
    ensures Decide(st, requireAdmin, true) == RenderChildren
  {
  }

  /**
   * Once loaded, a page that is not guest-open sends a visitor who is not signed in to
   * `/auth`, and such a visitor is never sent to `/`.
   */
  lemma SignedOutGoesToAuth(st: AuthState, requireAdmin: bool)
    requires !st.loading && !st.signedIn
    ensures Decide(st, requireAdmin, false) == Redirect("/auth")
    ensures Decide(st, requireAdmin, false) != Redirect("/")
  {
  }

  /** A signed-in non-admin on an admin page is sent to `/`. */
  lemma NonAdminGoesHome(st: AuthState)
    requires !st.loading && st.signedIn && !IsAdmin(st.profile)
    ensures Decide(st, true, false) == Redirect("/")
  {
  }

  /** A page with neither flag renders for every signed-in user, with any profile or none. */
  lemma UnflaggedRendersForAnyUser(st: AuthState)
    requires !st.loading && st.signedIn
    ensures Decide(st, false, false) == RenderChildren
  {
  }

  /** An admin page that is not guest-open renders iff loading ended and a signed-in admin visits. */
  lemma AdminPageRendersOnlyForAdmins(st: AuthState)
    ensures Decide(st, true, false) == RenderChildren <==> !st.loading && st.signedIn && IsAdmin(st.profile)
  {
  }

  /** Outside the loading state the guard never shows the spinner, and it only redirects to the two pages. */
  lemma Outcomes(st: AuthState, requireAdmin: bool, allowGuests: bool)
    ensures Decide(st, requireAdmin, allowGuests) == Spinner <==> st.loading
    ensures Decide(st, requireAdmin, allowGuests).Redirect? ==>
      Decide(st, requireAdmin, allowGuests).to in {"/auth", "/"}
  {
  }
}

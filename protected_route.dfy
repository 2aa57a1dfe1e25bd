/**
 * components/auth/ProtectedRoute.tsx: the gate around every dashboard page. It restores the
 * session from local storage, fetches the signed-in profile, sends anyone who is not an
 * authenticated "Admin" back to /auth/login, and renders the page only for an admin profile.
 */
module ProtectedRoute {
  import opened Wrappers

  const AdminRole := "Admin"

  /**
   * What the component sees on one render: whether the mount effect has run, the auth
   * slice's flag, and the profile query's `data` (its role), `isLoading` and `isError`.
   */
  datatype RouteInputs = RouteInputs(
    isInitialized: bool,
    isAuthenticated: bool,
    profileRole: Option<string>,
    isLoading: bool,
    isError: bool)

  /** The profile query is skipped until the session is restored and someone is signed in. */
  function QuerySkipped(isAuthenticated: bool, isInitialized: bool): (skip: bool)
    ensures !skip <==> isAuthenticated && isInitialized
  {
    !isAuthenticated || !isInitialized
  }

  /** A skipped query holds no profile. */
  predicate QueryConsistent(i: RouteInputs)
  {
    QuerySkipped(i.isAuthenticated, i.isInitialized) ==> i.profileRole.None? && !i.isError
  }

  /** The redirect effect: once initialized, no session, a non-admin profile or a failed fetch leads to /auth/login. */
  function Redirects(i: RouteInputs): (r: bool)
    ensures r <==>
      i.isInitialized && (!i.isAuthenticated || (i.profileRole.Some? && i.profileRole.value != AdminRole) || i.isError)
  {
    if !i.isInitialized then false
    else if !i.isAuthenticated then true
    else if i.profileRole.Some? && i.profileRole.value != AdminRole then true
    else i.isError
  }

  datatype View = Loading | Nothing | Children

  /** What is rendered: a spinner until a profile is loaded, nothing for a non-admin, else the page. */
  function Render(i: RouteInputs): (v: View)
    ensures v == Loading <==> !i.isInitialized || i.isLoading || i.profileRole.None?
    ensures v == Children <==> i.isInitialized && !i.isLoading && i.profileRole == Some(AdminRole)
  {
    if !i.isInitialized || i.isLoading || i.profileRole.None? then Loading
    else if i.profileRole.value != AdminRole then Nothing
    else Children
  }

  /**
   * The page is only ever rendered for a signed-in admin; and unless the last profile fetch
   * failed, a rendered page is never redirected away from.
   */
  lemma ChildrenOnlyForAdmins(i: RouteInputs)
    requires QueryConsistent(i)
    ensures Render(i) == Children ==> i.isInitialized && i.isAuthenticated && i.profileRole == Some(AdminRole)
    ensures Render(i) == Children && !i.isError ==> !Redirects(i)
  {
  }

  /** A visitor without a session, or with a non-admin profile, never sees the page and is redirected. */
  lemma OutsidersAreTurnedAway(i: RouteInputs)
    requires QueryConsistent(i) && i.isInitialized
    requires !i.isAuthenticated || (i.profileRole.Some? && i.profileRole.value != AdminRole)
    ensures Redirects(i) && Render(i) != Children
  {
  }
}

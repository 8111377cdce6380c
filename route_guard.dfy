/** The route guard (frontend/src/components/ProtectedRoute.tsx): from the session state and
    the route's required role, decide whether to render the page or redirect. */
module RouteGuard {
  import opened Domain
  import opened Api

  datatype RouteOutcome = RedirectToLogin | RedirectToDashboard | RenderChildren

  /** The decision table: no token sends to `/login`; a required role that the stored user
      does not have (or no stored user at all) sends to `/dashboard`; otherwise render. */
  function Decide(isAuthenticated: bool, currentUser: Option<User>, requiredRole: Option<Role>): (o: RouteOutcome)
    ensures !isAuthenticated ==> o == RedirectToLogin
    ensures isAuthenticated && requiredRole.Some? && currentUser.None? ==> o == RedirectToDashboard
    ensures isAuthenticated && requiredRole.Some? && currentUser.Some? && currentUser.value.role != requiredRole.value
      ==> o == RedirectToDashboard
    ensures o == RenderChildren <==>
      isAuthenticated && (requiredRole.None? || (currentUser.Some? && currentUser.value.role == requiredRole.value))
  {
    if !isAuthenticated then RedirectToLogin
    else if requiredRole.Some? && (currentUser.None? || currentUser.value.role != requiredRole.value) then
      RedirectToDashboard
    else RenderChildren
  }

  /** `ProtectedRoute` evaluated on a browser storage. */
  function ProtectedRoute(st: Storage, requiredRole: Option<Role>): (o: RouteOutcome)
    ensures TokenKey !in st || st[TokenKey] == Text("") ==> o == RedirectToLogin
    ensures o == RenderChildren <==>
      && TokenKey in st && st[TokenKey] != Text("")
      && (requiredRole.None? || (UserKey in st && st[UserKey].UserJson? && st[UserKey].user.role == requiredRole.value))
    ensures o == RedirectToDashboard <==>
      && TokenKey in st && st[TokenKey] != Text("")
      && requiredRole.Some? && !(UserKey in st && st[UserKey].UserJson? && st[UserKey].user.role == requiredRole.value)
  {
    Decide(IsAuthenticatedIn(st), CurrentUserIn(st), requiredRole)
  }

  /** After a logout (or a 401) every protected route sends to the login page. */
  lemma ClearedSessionRedirectsToLogin(st: Storage, requiredRole: Option<Role>)
    ensures ProtectedRoute(Cleared(st), requiredRole) == RedirectToLogin
  {
  }

  /** With a token stored and no required role the page renders, even with no stored user. */
  lemma TokenAloneRendersOpenRoutes(st: Storage)
    requires IsAuthenticatedIn(st) && UserKey !in st
    ensures ProtectedRoute(st, None) == RenderChildren
    ensures ProtectedRoute(st, Some(Manager)) == RedirectToDashboard
  {
  }

  /** After a successful login, the routes of the user's own role render and the routes of
      the other role redirect to the dashboard. */
  lemma LoggedInUserReachesOwnRole(st: Storage, token: Token, user: User, requiredRole: Role)
    requires token.accessToken != ""
    ensures var after := st[TokenKey := Text(token.accessToken)][UserKey := UserJson(user)];
      ProtectedRoute(after, Some(requiredRole)) ==
        if user.role == requiredRole then RenderChildren else RedirectToDashboard
  {
    LoginEstablishesSession(st, token, user);
  }
}

/**
 * `AuthGuard`: from a snapshot of the auth store and the roles a page
 * allows, what the guard renders and where its effect sends the browser.
 */
module AuthGuard {
  import opened Wrappers
  import opened Messages
  import opened AuthModel

  /** What a page gate renders. */
  datatype Screen = LoadingScreen | Children

  /** What a page gate's effect does: nothing, `router.replace('/')` or `router.back()`, each after a toast. */
  datatype Navigation = Stay | ReplaceHome(notice: Message) | GoBack(notice: Message)

  /** Hydrated and not syncing: the only state in which the guard decides anything. */
  predicate Ready(s: AuthState) {
    s.hasHydrated && !s.isSyncing
  }

  /** There is a user and its role is one of `allowedRoles`. */
  predicate RoleAllowed(s: AuthState, allowedRoles: seq<string>) {
    s.user.Some? && s.user.value.role in allowedRoles
  }

  /** The guard's effect. */
  function GuardNavigation(s: AuthState, allowedRoles: seq<string>): (n: Navigation)
    ensures !Ready(s) ==> n == Stay
    ensures Ready(s) && !s.isLoggedIn ==> n == ReplaceHome(LoginRequiredNotice)
    ensures Ready(s) && s.isLoggedIn && !RoleAllowed(s, allowedRoles) ==> n == ReplaceHome(NoPermissionNotice)
    ensures !n.GoBack?
  {
    if !Ready(s) then Stay
    else if !s.isLoggedIn then ReplaceHome(LoginRequiredNotice)
    else if !RoleAllowed(s, allowedRoles) then ReplaceHome(NoPermissionNotice)
    else Stay
  }

  /** What the guard renders. */
  function GuardScreen(s: AuthState, allowedRoles: seq<string>): (r: Screen)
    ensures r == Children <==> Ready(s) && s.isLoggedIn && RoleAllowed(s, allowedRoles)
  {
    if !Ready(s) then LoadingScreen
    else if s.isLoggedIn && RoleAllowed(s, allowedRoles) then Children
    else LoadingScreen
  }

  /** Until the store is ready: the loading screen and no redirect. */
  lemma WaitsUntilReady(s: AuthState, allowedRoles: seq<string>)
    requires !Ready(s)
    ensures GuardScreen(s, allowedRoles) == LoadingScreen && GuardNavigation(s, allowedRoles) == Stay
  {
  }

  /** Once ready, the guard either renders the page or redirects home, never both and never neither. */
  lemma ReadyRendersOrRedirects(s: AuthState, allowedRoles: seq<string>)
    requires Ready(s)
    ensures (GuardScreen(s, allowedRoles) == Children) != GuardNavigation(s, allowedRoles).ReplaceHome?
  {
    if GuardScreen(s, allowedRoles) == Children {
      assert s.isLoggedIn && RoleAllowed(s, allowedRoles);
    }
  }

  /** The login check comes first: a signed-out state gets the login notice whatever its user. */
  lemma LoginCheckedBeforeRole(s: AuthState, allowedRoles: seq<string>)
    requires Ready(s) && !s.isLoggedIn && RoleAllowed(s, allowedRoles)
    ensures GuardNavigation(s, allowedRoles) == ReplaceHome(LoginRequiredNotice)
    ensures GuardScreen(s, allowedRoles) == LoadingScreen
  {
  }

  /** The state `setLoggedIn(true)` can leave behind (logged in, no user) is refused as unauthorized. */
  lemma LoggedInWithoutUserRefused(s: AuthState, allowedRoles: seq<string>)
    requires Ready(s) && s.isLoggedIn && s.user.None?
    ensures GuardNavigation(s, allowedRoles) == ReplaceHome(NoPermissionNotice)
    ensures GuardScreen(s, allowedRoles) == LoadingScreen
  {
  }
}

/**
 * `withAuth`: the component wrapper's gate. Its effect waits only for
 * hydration (the syncing flag is not read); a signed-out state goes home,
 * a missing user or a disallowed role goes back; the wrapped component is
 * rendered in every state.
 */
module WithAuth {
  import opened Wrappers
  import opened Messages
  import opened AuthModel
  import opened AuthGuard

  /** What the wrapper renders: the wrapped component, alongside the effect's navigation. */
  datatype Gate = Gate(rendersWrapped: bool, navigation: Navigation)

  function WithAuthNavigation(s: AuthState, allowedRoles: seq<string>): (n: Navigation)
    ensures !s.hasHydrated ==> n == Stay
    ensures s.hasHydrated && !s.isLoggedIn ==> n == ReplaceHome(LoginRequiredNotice)
    ensures s.hasHydrated && s.isLoggedIn && !RoleAllowed(s, allowedRoles) ==> n == GoBack(NoPermissionNotice)
    ensures n == Stay <==> !s.hasHydrated || (s.isLoggedIn && RoleAllowed(s, allowedRoles))
  {
    if !s.hasHydrated then Stay
    else if !s.isLoggedIn then ReplaceHome(LoginRequiredNotice)
    else if !RoleAllowed(s, allowedRoles) then GoBack(NoPermissionNotice)
    else Stay
  }

  function WithAuthGate(s: AuthState, allowedRoles: seq<string>): Gate {
    Gate(true, WithAuthNavigation(s, allowedRoles))
  }

  /**
   * Unlike `AuthGuard`, the wrapper never holds the page back: wherever the
   * guard shows its loading screen, the wrapper renders the wrapped page, and
   * a wrapper that redirects has rendered it first.
   */
  lemma RendersWhereGuardLoads(s: AuthState, allowedRoles: seq<string>)
    requires GuardScreen(s, allowedRoles) == LoadingScreen
    ensures WithAuthGate(s, allowedRoles).rendersWrapped
    ensures WithAuthGate(s, allowedRoles).navigation.Stay? <==>
      !s.hasHydrated || (s.isLoggedIn && RoleAllowed(s, allowedRoles))
  {
  }

  /**
   * While a sync is in flight, an admitted user already sees the page under
   * the wrapper, with no navigation, while the guard still shows its loading
   * screen.
   */
  lemma AdmitsDuringSync(s: AuthState, allowedRoles: seq<string>)
    requires s.hasHydrated && s.isSyncing && s.isLoggedIn && RoleAllowed(s, allowedRoles)
    ensures WithAuthGate(s, allowedRoles) == Gate(true, Stay)
    ensures GuardScreen(s, allowedRoles) == LoadingScreen && GuardNavigation(s, allowedRoles) == Stay
  {
  }

  /** The wrapper's decision does not depend on the syncing flag. */
  lemma IgnoresSyncing(s: AuthState, allowedRoles: seq<string>, syncing: bool)
    ensures WithAuthNavigation(s.(isSyncing := syncing), allowedRoles) == WithAuthNavigation(s, allowedRoles)
  {
  }

  /**
   * Where both gates decide, they agree on who is let in and on the login
   * notice; they differ only in sending a refused role home or back.
   */
  lemma AgreesWithGuard(s: AuthState, allowedRoles: seq<string>)
    requires Ready(s)
    ensures WithAuthNavigation(s, allowedRoles) == Stay <==> GuardScreen(s, allowedRoles) == Children
    ensures GuardNavigation(s, allowedRoles).ReplaceHome? && WithAuthNavigation(s, allowedRoles).GoBack? ==>
      GuardNavigation(s, allowedRoles).notice == WithAuthNavigation(s, allowedRoles).notice == NoPermissionNotice
    ensures !s.isLoggedIn ==> WithAuthNavigation(s, allowedRoles) == GuardNavigation(s, allowedRoles)
  {
    ReadyRendersOrRedirects(s, allowedRoles);
  }
}

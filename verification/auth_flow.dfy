/**
 * The auth store driven by every caller of its setters that the modelled
 * code contains: start-up rehydration, the sync hook, and the login and
 * logout dialogs (which call `setLoggedIn(true)` and `logout()`). None of
 * them calls `setIsSyncing`, so the syncing flag keeps its initial `true`.
 */
module AuthFlow {
  import opened Wrappers
  import opened Messages
  import opened Api
  import opened AuthModel
  import opened SyncAuth
  import opened AuthGuard
  import opened WithAuth

  datatype AppEvent =
    | Rehydrated(r: Rehydration)
    | Synced(o: Outcome<Envelope<UserInfo>>)
    | DialogLogin
    | DialogLogout

  function Step(s: AuthState, e: AppEvent): AuthState {
    match e
    case Rehydrated(r) => Rehydrate(s, r)
    case Synced(o) => SyncTransition(s, o)
    case DialogLogin => SetLoggedIn(s, true)
    case DialogLogout => Logout(s)
  }

  /** The state after the events `es`, in order, starting from `s`. */
  function Replay(s: AuthState, es: seq<AppEvent>): AuthState {
    if es == [] then s else Step(Replay(s, es[..|es| - 1]), es[|es| - 1])
  }

  /** No modelled event (rehydration, sync, dialog login or logout) clears the syncing flag. */
  lemma {:induction false} SyncingNeverCleared(es: seq<AppEvent>)
    ensures Replay(Initial, es).isSyncing
    decreases |es|
  {
    if es != [] {
      SyncingNeverCleared(es[..|es| - 1]);
    }
  }

  /** Hence a page behind `AuthGuard` shows the loading screen and never redirects, under any sequence of the modelled events. */
  lemma GuardNeverLeavesLoading(es: seq<AppEvent>, allowedRoles: seq<string>)
    ensures GuardScreen(Replay(Initial, es), allowedRoles) == LoadingScreen
    ensures GuardNavigation(Replay(Initial, es), allowedRoles) == Stay
  {
    SyncingNeverCleared(es);
  }

  /** Right after a dialog login, before a sync brings the user, `withAuth` sends the visitor back. */
  lemma DialogLoginThenWithAuth(s: AuthState, allowedRoles: seq<string>)
    requires s.hasHydrated && Consistent(s) && !s.isLoggedIn
    ensures WithAuthNavigation(Step(s, DialogLogin), allowedRoles) == GoBack(NoPermissionNotice)
  {
  }

  /** A sync that returns a user with an allowed role opens a `withAuth` page once hydrated. */
  lemma SyncedUserAdmitted(s: AuthState, allowedRoles: seq<string>, e: Envelope<UserInfo>)
    requires s.hasHydrated && e.data.Some? && e.data.value.role in allowedRoles
    ensures WithAuthNavigation(Step(s, Synced(Returned(e))), allowedRoles) == Stay
  {
  }
}

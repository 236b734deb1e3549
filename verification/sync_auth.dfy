/**
 * The auth sync hook: fetch the current user and feed the answer to the
 * store (`setUser` when the envelope carries data, `logout` otherwise or on
 * any thrown error); run once on mount and again on every
 * `visibilitychange` and `focus` event until cleanup removes the listeners.
 */
module SyncAuth {
  import opened Wrappers
  import opened Api
  import opened AuthModel
  import AuthStore

  /** The store transition one completed sync performs. */
  function SyncTransition(s: AuthState, o: Outcome<Envelope<UserInfo>>): (t: AuthState)
    ensures Consistent(t)
    ensures t.isLoggedIn <==> o.Returned? && o.response.data.Some?
    ensures t.isLoggedIn ==> t.user == o.response.data
    ensures t.hasHydrated == s.hasHydrated && t.isSyncing == s.isSyncing
  {
    if o.Returned? && o.response.data.Some? then SetUser(s, o.response.data) else Logout(s)
  }

  /** `syncAuth()`: one call of the user endpoint and the store update it leads to. */
  method Sync(store: AuthStore.Store, o: Outcome<Envelope<UserInfo>>)
    modifies store
    ensures store.State() == SyncTransition(old(store.State()), o)
  {
    match o
    case Returned(response) =>
      if response.data.Some? {
        store.SetUser(response.data);
      } else {
        store.Logout();
      }
    case _ =>
      store.Logout();
  }

  datatype WindowEvent = VisibilityChange | Focus | OtherEvent

  /** The events the hook subscribes `handleSync` to. */
  const SyncTriggers: set<WindowEvent> := {VisibilityChange, Focus}

  /** The window's `handleSync` listeners, as far as this hook adds and removes them. */
  class SyncAuthHook {
    var listening: set<WindowEvent>

    constructor ()
      ensures listening == {}
    {
      listening := {};
    }

    /** The effect on mount: one sync straight away, then subscribe to both events. */
    method Mount(store: AuthStore.Store, o: Outcome<Envelope<UserInfo>>)
      modifies this, store
      ensures listening == old(listening) + SyncTriggers
      ensures store.State() == SyncTransition(old(store.State()), o)
    {
      Sync(store, o);
      listening := listening + {VisibilityChange};
      listening := listening + {Focus};
    }

    /** A window event: a subscribed one triggers a sync with the outcome `o`. */
    method Dispatch(e: WindowEvent, store: AuthStore.Store, o: Outcome<Envelope<UserInfo>>)
      modifies store
      ensures e in listening ==> store.State() == SyncTransition(old(store.State()), o)
      ensures e !in listening ==> store.State() == old(store.State())
    {
      if e in listening {
        Sync(store, o);
      }
    }

    /** The effect's cleanup: both listeners are removed. */
    method Cleanup()
      modifies this
      ensures listening == old(listening) - SyncTriggers
    {
      listening := listening - {VisibilityChange};
      listening := listening - {Focus};
    }
  }
}

/**
 * The client-side auth store: four fields updated in place by setters, of
 * which only `isLoggedIn` and `user` are persisted. `AuthModel` gives the
 * transitions as functions on a snapshot of the fields; the `Store` class of
 * `AuthStore` holds the fields and its methods perform those transitions.
 */
module AuthModel {
  import opened Wrappers

  /** The signed-in user as the backend describes it. */
  datatype UserInfo = UserInfo(id: int, username: string, role: string)

  /** The store's fields (`user` is `null` when `None`). */
  datatype AuthState = AuthState(isLoggedIn: bool, user: Option<UserInfo>, hasHydrated: bool, isSyncing: bool)

  /** What `partialize` hands to storage. */
  datatype Snapshot = Snapshot(isLoggedIn: bool, user: Option<UserInfo>)

  /** What reading the storage at start-up gave. */
  datatype Rehydration = Stored(snapshot: Snapshot) | NothingStored | ReadFailed

  /** The login flag agrees with the presence of a user. */
  predicate Consistent(s: AuthState) {
    s.isLoggedIn == s.user.Some?
  }

  /** The state before anything has run. */
  const Initial: AuthState := AuthState(false, None, false, true)

  lemma InitialState()
    ensures Consistent(Initial) && !Initial.hasHydrated && Initial.isSyncing
  {
  }

  /** `setUser(user)`: the login flag follows the user. */
  function SetUser(s: AuthState, user: Option<UserInfo>): (t: AuthState)
    ensures Consistent(t) && t.user == user
    ensures t.hasHydrated == s.hasHydrated && t.isSyncing == s.isSyncing
  {
    s.(user := user, isLoggedIn := user.Some?)
  }

  /** `setLoggedIn(b)`: only the flag; the user is left as it was. */
  function SetLoggedIn(s: AuthState, b: bool): (t: AuthState)
    ensures t.isLoggedIn == b && t.(isLoggedIn := s.isLoggedIn) == s
  {
    s.(isLoggedIn := b)
  }

  /** `logout()`: signed out, with the flags left alone. */
  function Logout(s: AuthState): (t: AuthState)
    ensures Consistent(t) && !t.isLoggedIn
    ensures t.hasHydrated == s.hasHydrated && t.isSyncing == s.isSyncing
  {
    s.(isLoggedIn := false, user := None)
  }

  function SetHasHydrated(s: AuthState, b: bool): (t: AuthState)
    ensures t.hasHydrated == b && t.(hasHydrated := s.hasHydrated) == s
  {
    s.(hasHydrated := b)
  }

  function SetIsSyncing(s: AuthState, b: bool): (t: AuthState)
    ensures t.isSyncing == b && t.(isSyncing := s.isSyncing) == s
  {
    s.(isSyncing := b)
  }

  /** `partialize`: the persisted part of the state. */
  function Partialize(s: AuthState): (p: Snapshot)
    ensures p.isLoggedIn == s.isLoggedIn && p.user == s.user
  {
    Snapshot(s.isLoggedIn, s.user)
  }

  /** The persistence layer's default merge: the stored fields over the current state. */
  function Merge(s: AuthState, p: Snapshot): (t: AuthState)
    ensures Partialize(t) == p && t.hasHydrated == s.hasHydrated && t.isSyncing == s.isSyncing
  {
    s.(isLoggedIn := p.isLoggedIn, user := p.user)
  }

  /**
   * Start-up rehydration: the stored snapshot, if any, is merged in and the
   * callback marks the store hydrated; when reading fails the callback gets
   * no state and nothing changes.
   */
  function Rehydrate(s: AuthState, r: Rehydration): (t: AuthState)
    ensures t.isSyncing == s.isSyncing
    ensures t.hasHydrated <==> s.hasHydrated || !r.ReadFailed?
    ensures r.Stored? ==> Partialize(t) == r.snapshot
    ensures !r.Stored? ==> Partialize(t) == Partialize(s)
  {
    match r
    case Stored(p) => SetHasHydrated(Merge(s, p), true)
    case NothingStored => SetHasHydrated(s, true)
    case ReadFailed => s
  }

  /** The persisted part ignores the hydration and syncing flags. */
  lemma PartializeIgnoresFlags(s: AuthState, hydrated: bool, syncing: bool)
    ensures Partialize(s.(hasHydrated := hydrated, isSyncing := syncing)) == Partialize(s)
  {
  }

  /** Persisting and rehydrating restores the persisted fields and keeps the flags. */
  lemma RehydrateRoundTrip(s: AuthState, current: AuthState)
    ensures var t := Rehydrate(current, Stored(Partialize(s)));
      t.isLoggedIn == s.isLoggedIn && t.user == s.user
      && t.hasHydrated && t.isSyncing == current.isSyncing
  {
  }

  /** Every setter except `setLoggedIn` keeps the login flag in step with the user. */
  lemma ConsistencyPreserved(s: AuthState, u: Option<UserInfo>, b: bool, r: Rehydration)
    requires Consistent(s)
    requires r.Stored? ==> r.snapshot.isLoggedIn == r.snapshot.user.Some?
    ensures Consistent(SetUser(s, u)) && Consistent(Logout(s))
    ensures Consistent(SetHasHydrated(s, b)) && Consistent(SetIsSyncing(s, b))
    ensures Consistent(Rehydrate(s, r))
  {
  }

  /** `setLoggedIn(true)` on a signed-out store yields a logged-in state with no user. */
  lemma SetLoggedInBreaksConsistency()
    ensures var t := SetLoggedIn(Initial, true); t.isLoggedIn && t.user.None? && !Consistent(t)
  {
  }

}

module AuthStore {
  import opened Wrappers
  import opened AuthModel

  /** The store object; its methods are the store's setters. */
  class Store {
    var isLoggedIn: bool
    var user: Option<UserInfo>
    var hasHydrated: bool
    var isSyncing: bool

    function State(): AuthState
      reads this
    {
      AuthState(isLoggedIn, user, hasHydrated, isSyncing)
    }

    constructor ()
      ensures State() == Initial
    {
      isLoggedIn := false;
      user := None;
      hasHydrated := false;
      isSyncing := true;
    }

    method SetUser(u: Option<UserInfo>)
      modifies this
      ensures State() == AuthModel.SetUser(old(State()), u)
    {
      user := u;
      isLoggedIn := u.Some?;
    }

    method SetLoggedIn(b: bool)
      modifies this
      ensures State() == AuthModel.SetLoggedIn(old(State()), b)
    {
      isLoggedIn := b;
    }

    method Logout()
      modifies this
      ensures State() == AuthModel.Logout(old(State()))
    {
      isLoggedIn := false;
      user := None;
    }

    method SetHasHydrated(b: bool)
      modifies this
      ensures State() == AuthModel.SetHasHydrated(old(State()), b)
    {
      hasHydrated := b;
    }

    method SetIsSyncing(b: bool)
      modifies this
      ensures State() == AuthModel.SetIsSyncing(old(State()), b)
    {
      isSyncing := b;
    }

    /** Reads the persisted part; changes nothing. */
    method Partialize() returns (p: Snapshot)
      ensures p == AuthModel.Partialize(State())
    {
      p := Snapshot(isLoggedIn, user);
    }

    /** Merges what storage gave, then runs the rehydration callback on the store. */
    method Rehydrate(r: Rehydration)
      modifies this
      ensures State() == AuthModel.Rehydrate(old(State()), r)
    {
      match r
      case Stored(p) =>
        isLoggedIn := p.isLoggedIn;
        user := p.user;
        SetHasHydrated(true);
      case NothingStored =>
        SetHasHydrated(true);
      case ReadFailed =>
    }
  }
}

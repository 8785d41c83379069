/**
 * The session store of src/store/auth.ts: the signed-in user, the access
 * token and a loading flag, with the login, signup, me, refresh and logout
 * actions and the projection that is persisted to local storage.
 *
 * Every action that awaits a server call is split at its `await`: a
 * `...Start` method for what runs before the call (only login and signup
 * change anything there) and a `...Settle` method that receives the server's
 * outcome as a parameter and does what runs after it.
 */
module SessionStore {
  import opened Types

  /** The persisted projection (`partialize`), stored under "cloudflix-auth". */
  datatype Snapshot = Snapshot(user: Option<User>, accessToken: Option<string>)

  /** The whole in-memory state of the store. */
  datatype StoreState = StoreState(user: Option<User>, accessToken: Option<string>, loading: bool)

  /** The initial state before anything is restored. */
  const Initial: StoreState := StoreState(None, None, false)

  /** What is written to storage: the user and the token, never `loading`. */
  function Partialize(s: StoreState): Snapshot
  {
    Snapshot(s.user, s.accessToken)
  }

  /**
   * Start-up state: the persisted fields, if any, merged over the initial
   * state; `loading` keeps its initial value.
   */
  function Rehydrate(stored: Option<Snapshot>): StoreState
  {
    match stored
    case None => Initial
    case Some(p) => StoreState(p.user, p.accessToken, Initial.loading)
  }

  /** Persisting and restoring gives back the user and token, with `loading` reset. */
  lemma PersistRoundTrip(s: StoreState)
    ensures Rehydrate(Some(Partialize(s))) == s.(loading := false)
    ensures Partialize(Rehydrate(Some(Partialize(s)))) == Partialize(s)
  {
  }

  /** `loading` never reaches storage: two states that differ only in it persist alike. */
  lemma LoadingNotPersisted(s: StoreState, b: bool)
    ensures Partialize(s.(loading := b)) == Partialize(s)
  {
  }

  /** The refresh body hint `{userId}`: sent only when the id is truthy (present and not 0). */
  function RefreshHint(userId: Option<int>): (body: Option<int>)
    ensures body.Some? <==> userId.Some? && userId.value != 0
    ensures body.Some? ==> body == userId
  {
    if userId.Some? && userId.value != 0 then userId else None
  }

  /** `user?.id` */
  function UserId(user: Option<User>): (id: Option<int>)
    ensures id.Some? <==> user.Some?
    ensures user.Some? ==> id == Some(user.value.id)
  {
    match user
    case None => None
    case Some(u) => Some(u.id)
  }

  class AuthStore {
    var user: Option<User>
    var accessToken: Option<string>
    var loading: bool

    function State(): StoreState
      reads this
    {
      StoreState(user, accessToken, loading)
    }

    /** The store as created at start-up, restored from storage when a snapshot exists. */
    constructor (stored: Option<Snapshot>)
      ensures State() == Rehydrate(stored)
    {
      match stored {
        case None =>
          user, accessToken, loading := None, None, false;
        case Some(p) =>
          user, accessToken, loading := p.user, p.accessToken, false;
      }
    }

    method SetAccessToken(t: Option<string>)
      modifies this
      ensures accessToken == t
      ensures user == old(user) && loading == old(loading)
    {
      accessToken := t;
    }

    method SetUser(u: Option<User>)
      modifies this
      ensures user == u
      ensures accessToken == old(accessToken) && loading == old(loading)
    {
      user := u;
    }

    /** `login` up to its server call: the store is loading. */
    method LoginStart()
      modifies this
      ensures loading
      ensures user == old(user) && accessToken == old(accessToken)
    {
      loading := true;
    }

    /**
     * `login` after its server call: on success both the user and the token
     * are replaced by the reply's; on failure nothing but `loading` changes and
     * the error is rethrown. `loading` is false either way (the `finally`).
     */
    method LoginSettle(reply: Result<Reply, HttpError>) returns (out: Result<(), HttpError>)
      modifies this
      ensures !loading
      ensures reply.Ok? ==> out.Ok? && user == reply.value.user && accessToken == reply.value.accessToken
      ensures reply.Err? ==> out == Err(reply.error) && user == old(user) && accessToken == old(accessToken)
    {
      match reply {
        case Ok(r) =>
          user, accessToken := r.user, r.accessToken;
          out := Ok(());
        case Err(e) =>
          out := Err(e);
      }
      loading := false;
    }

    /** `signup` up to its server call. */
    method SignupStart()
      modifies this
      ensures loading
      ensures user == old(user) && accessToken == old(accessToken)
    {
      loading := true;
    }

    /** `signup` after its server call; the same replace-or-rethrow as `login`. */
    method SignupSettle(reply: Result<Reply, HttpError>) returns (out: Result<(), HttpError>)
      modifies this
      ensures !loading
      ensures reply.Ok? ==> out.Ok? && user == reply.value.user && accessToken == reply.value.accessToken
      ensures reply.Err? ==> out == Err(reply.error) && user == old(user) && accessToken == old(accessToken)
    {
      match reply {
        case Ok(r) =>
          user, accessToken := r.user, r.accessToken;
          out := Ok(());
        case Err(e) =>
          out := Err(e);
      }
      loading := false;
    }

    /** `me` after its server call: only the user is replaced; a failure changes nothing. */
    method MeSettle(reply: Result<Reply, HttpError>) returns (out: Result<(), HttpError>)
      modifies this
      ensures accessToken == old(accessToken) && loading == old(loading)
      ensures reply.Ok? ==> out.Ok? && user == reply.value.user
      ensures reply.Err? ==> out == Err(reply.error) && user == old(user)
    {
      match reply {
        case Ok(r) =>
          user := r.user;
          out := Ok(());
        case Err(e) =>
          out := Err(e);
      }
    }

    /** `refresh` after its server call: both token and user are overwritten on success only. */
    method RefreshSettle(reply: Result<Reply, HttpError>) returns (out: Result<(), HttpError>)
      modifies this
      ensures loading == old(loading)
      ensures reply.Ok? ==> out.Ok? && accessToken == reply.value.accessToken && user == reply.value.user
      ensures reply.Err? ==> out == Err(reply.error) && accessToken == old(accessToken) && user == old(user)
    {
      match reply {
        case Ok(r) =>
          accessToken, user := r.accessToken, r.user;
          out := Ok(());
        case Err(e) =>
          out := Err(e);
      }
    }

    /**
     * `logout` after its server call: the session is cleared whatever the
     * server answered (the `finally`), and a failure still propagates.
     */
    method LogoutSettle(reply: Result<(), HttpError>) returns (out: Result<(), HttpError>)
      modifies this
      ensures user == None && accessToken == None && loading == old(loading)
      ensures out == reply
    {
      user, accessToken := None, None;
      out := reply;
    }
  }

  /**
   * A logout on a store that is already logged out leaves it logged out, and
   * the persisted snapshot is then empty, whatever the server answers.
   */
  method LogoutWhenLoggedOut(reply: Result<(), HttpError>) returns (snap: Snapshot, out: Result<(), HttpError>)
    ensures snap == Snapshot(None, None)
    ensures out == reply
  {
    var s := new AuthStore(None);
    out := s.LogoutSettle(reply);
    snap := Partialize(s.State());
  }

  /**
   * Two overlapping logins share one flag: the first to settle clears
   * `loading` while the second is still waiting for its reply.
   */
  method OverlappingLogins(stored: Option<Snapshot>, first: Result<Reply, HttpError>)
    returns (loadingWhileSecondPending: bool)
    ensures !loadingWhileSecondPending
  {
    var s := new AuthStore(stored);
    s.LoginStart();
    s.LoginStart();
    var _ := s.LoginSettle(first);
    loadingWhileSecondPending := s.loading;
  }
}

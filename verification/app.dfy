/**
 * The application shell of src/App.tsx: the start-up sequence that renews a
 * restored session, and the table from paths to pages with the guards on
 * the protected ones.
 */
module App {
  import opened Types
  import opened SessionStore
  import opened Guard

  /* ---------------- Start-up ---------------- */

  /** A store action the start-up sequence invokes, in the order invoked. */
  datatype Call = RefreshCalled(userId: Option<int>) | MeCalled | LogoutCalled

  /**
   * The start-up effect (App.tsx:18-30). It reads the token and user once. If
   * the token is truthy it awaits `refresh(user?.id)` and then `me()`. If
   * either throws, it calls `logout()`. The replies to the three server calls
   * are parameters; `logout` clears the session whatever its reply.
   */
  method Bootstrap(store: AuthStore, refreshReply: Result<Reply, HttpError>, meReply: Result<Reply, HttpError>,
                   logoutReply: Result<(), HttpError>)
    returns (calls: seq<Call>)
    modifies store
    ensures store.loading == old(store.loading)
    ensures !Truthy(old(store.accessToken)) ==>
              calls == [] && store.user == old(store.user) && store.accessToken == old(store.accessToken)
    ensures Truthy(old(store.accessToken)) ==> |calls| >= 1 && calls[0] == RefreshCalled(UserId(old(store.user)))
    ensures Truthy(old(store.accessToken)) && refreshReply.Err? ==>
              calls == [RefreshCalled(UserId(old(store.user))), LogoutCalled]
              && store.user == None && store.accessToken == None
    ensures Truthy(old(store.accessToken)) && refreshReply.Ok? && meReply.Err? ==>
              calls == [RefreshCalled(UserId(old(store.user))), MeCalled, LogoutCalled]
              && store.user == None && store.accessToken == None
    ensures Truthy(old(store.accessToken)) && refreshReply.Ok? && meReply.Ok? ==>
              calls == [RefreshCalled(UserId(old(store.user))), MeCalled]
              && store.accessToken == refreshReply.value.accessToken && store.user == meReply.value.user
  {
    var accessToken, user := store.accessToken, store.user;
    calls := [];
    if Truthy(accessToken) {
      calls := calls + [RefreshCalled(UserId(user))];
      var r := store.RefreshSettle(refreshReply);
      if r.Ok? {
        calls := calls + [MeCalled];
        r := store.MeSettle(meReply);
      }
      if r.Err? {
        calls := calls + [LogoutCalled];
        var _ := store.LogoutSettle(logoutReply);
      }
    }
  }

  /**
   * The snapshot that start-up leaves in storage, as a function of the
   * restored one: unchanged without a token, the renewed session when both
   * calls succeed, and empty when either fails.
   */
  function SessionAfterStartup(s: Snapshot, refreshReply: Result<Reply, HttpError>, meReply: Result<Reply, HttpError>): (r: Snapshot)
  {
    if !Truthy(s.accessToken) then s
    else if refreshReply.Err? || meReply.Err? then Snapshot(None, None)
    else Snapshot(meReply.value.user, refreshReply.value.accessToken)
  }

  /** Start-up from a restored snapshot, on a fresh store, ends in `SessionAfterStartup`. */
  method StartupFrom(stored: Snapshot, refreshReply: Result<Reply, HttpError>, meReply: Result<Reply, HttpError>,
                     logoutReply: Result<(), HttpError>)
    returns (after: Snapshot, calls: seq<Call>)
    ensures after == SessionAfterStartup(stored, refreshReply, meReply)
    ensures Truthy(stored.accessToken) <==> |calls| > 0
    ensures (LogoutCalled in calls) <==> Truthy(stored.accessToken) && (refreshReply.Err? || meReply.Err?)
    ensures (MeCalled in calls) <==> Truthy(stored.accessToken) && refreshReply.Ok?
  {
    var store := new AuthStore(Some(stored));
    calls := Bootstrap(store, refreshReply, meReply, logoutReply);
    after := Partialize(store.State());
  }

  /** A failed start-up always leaves the visitor signed out, so every guard redirects to /login. */
  lemma FailedStartupSignsOut(s: Snapshot, refreshReply: Result<Reply, HttpError>, meReply: Result<Reply, HttpError>,
                              roles: Option<seq<UserRole>>, pathname: string)
    requires Truthy(s.accessToken) && (refreshReply.Err? || meReply.Err?)
    ensures var a := SessionAfterStartup(s, refreshReply, meReply);
      AuthGuard(a.accessToken, a.user, roles, pathname) == Redirect("/login", true, Some(pathname))
  {
  }

  /* ---------------- Routes ---------------- */

  datatype Page = Landing | Login | Signup | Upload | Feed | Me | VideoDetail(id: string) | NotFound

  /** What a route renders: a page as is, a page behind the guard, or a navigation. */
  datatype Element =
    | Plain(page: Page)
    | Guarded(roles: Option<seq<UserRole>>, page: Page)
    | Navigate(to: string, replace: bool)

  /** The `/v/:id` pattern: one non-empty segment after "/v/". */
  predicate IsVideoPath(path: string)
  {
    |path| > 3 && path[..3] == "/v/" && '/' !in path[3..]
  }

  /**
   * The route table (App.tsx:35-61), matched as exact strings: `/upload`
   * is for creators only, `/me` for any signed-in user, `/home` forwards
   * to `/feed`, and anything unknown is the not-found page.
   */
  function Route(path: string): (e: Element)
    ensures e.Guarded? <==> path == "/upload" || path == "/me"
    ensures path == "/" ==> e == Plain(Landing)
    ensures path == "/login" ==> e == Plain(Login)
    ensures path == "/signup" ==> e == Plain(Signup)
    ensures path == "/feed" ==> e == Plain(Feed)
    ensures path == "/upload" ==> e == Guarded(Some([Creator]), Upload)
    ensures path == "/me" ==> e == Guarded(None, Me)
    ensures e.Navigate? <==> path == "/home"
    ensures path == "/home" ==> e == Navigate("/feed", true)
    ensures e == Plain(NotFound) <==>
              path !in {"/", "/login", "/signup", "/upload", "/feed", "/me", "/home"} && !IsVideoPath(path)
  {
    if path == "/" then Plain(Landing)
    else if path == "/login" then Plain(Login)
    else if path == "/signup" then Plain(Signup)
    else if path == "/upload" then Guarded(Some([Creator]), Upload)
    else if path == "/feed" then Plain(Feed)
    else if path == "/me" then Guarded(None, Me)
    else if IsVideoPath(path) then
      assert path[1] == path[..3][1] == 'v';
      Plain(VideoDetail(path[3..]))
    else if path == "/home" then Navigate("/feed", true)
    else Plain(NotFound)
  }

  /** What a visitor sees at `path`: a page, or where they are sent. */
  datatype Screen = Shows(page: Page) | SentTo(to: string)

  function Visit(path: string, accessToken: Option<string>, user: Option<User>): Screen
  {
    match Route(path)
    case Plain(p) => Shows(p)
    case Navigate(to, _) => SentTo(to)
    case Guarded(roles, p) =>
      match AuthGuard(accessToken, user, roles, path)
      case Render => Shows(p)
      case Redirect(to, _, _) => SentTo(to)
  }

  /** The upload page is shown exactly to signed-in creators; signed-in consumers go to /feed. */
  lemma UploadOnlyForCreators(accessToken: Option<string>, user: Option<User>)
    ensures Visit("/upload", accessToken, user) == Shows(Upload)
        <==> Truthy(accessToken) && user.Some? && user.value.role == Creator
    ensures Truthy(accessToken) && user.Some? && user.value.role == Consumer ==>
              Visit("/upload", accessToken, user) == SentTo("/feed")
  {
  }

  /** The profile page is shown exactly to signed-in users, whatever their role. */
  lemma MeForAnySignedInUser(accessToken: Option<string>, user: Option<User>)
    ensures Visit("/me", accessToken, user) == Shows(Me) <==> Truthy(accessToken) && user.Some?
    ensures Visit("/me", accessToken, user) != Shows(Me) ==> Visit("/me", accessToken, user) == SentTo("/login")
  {
  }

  /** Every other path looks the same with or without a session. */
  lemma OtherPathsIgnoreSession(path: string, t1: Option<string>, u1: Option<User>, t2: Option<string>, u2: Option<User>)
    requires path != "/upload" && path != "/me"
    ensures Visit(path, t1, u1) == Visit(path, t2, u2)
  {
  }

  /** A video link shows that video's page, with the segment after "/v/" as its id. */
  lemma VideoLinks(id: string, accessToken: Option<string>, user: Option<User>)
    requires id != "" && '/' !in id
    ensures Visit("/v/" + id, accessToken, user) == Shows(VideoDetail(id))
  {
    var path := "/v/" + id;
    assert path[..3] == "/v/" && path[3..] == id && path[1] == 'v';
  }
}

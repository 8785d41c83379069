/**
 * The route guard of src/components/AuthGuard.tsx: from the session and
 * the roles a route admits, either render the protected page or redirect.
 */
module Guard {
  import opened Types

  /**
   * What the guard returns: a navigation (`replace` says whether it replaces
   * the history entry; `redirectTo` is the location state handed to the
   * login page), or the protected children.
   */
  datatype Decision = Redirect(to: string, replace: bool, redirectTo: Option<string>) | Render

  /** `roles && !roles.includes(role)`: an absent list admits everyone, a given one only its members. */
  predicate Admits(roles: Option<seq<UserRole>>, role: UserRole)
  {
    roles.None? || role in roles.value
  }

  /**
   * The decision for a visit to `pathname`. Authentication is checked first:
   * without a truthy token and a user the visitor is sent to /login with
   * the path to come back to. A signed-in user whose role the route does not
   * admit is sent to /feed. Both redirects replace the history entry.
   */
  function AuthGuard(accessToken: Option<string>, user: Option<User>, roles: Option<seq<UserRole>>, pathname: string): (d: Decision)
    ensures d == Render <==> Truthy(accessToken) && user.Some? && Admits(roles, user.value.role)
    ensures !Truthy(accessToken) || user.None? ==> d == Redirect("/login", true, Some(pathname))
    ensures Truthy(accessToken) && user.Some? && !Admits(roles, user.value.role) ==> d == Redirect("/feed", true, None)
  {
    if !Truthy(accessToken) || user.None? then Redirect("/login", true, Some(pathname))
    else if roles.Some? && user.value.role !in roles.value then Redirect("/feed", true, None)
    else Render
  }

  /** A visitor without a session is never sent to /feed, whatever the roles. */
  lemma AnonymousNeverSentToFeed(accessToken: Option<string>, user: Option<User>, roles: Option<seq<UserRole>>, pathname: string)
    requires !Truthy(accessToken) || user.None?
    ensures AuthGuard(accessToken, user, roles, pathname).Redirect?
    ensures AuthGuard(accessToken, user, roles, pathname).to == "/login"
  {
  }

  /** Without a role list, every signed-in user sees the page. */
  lemma NoRolesAdmitsEveryone(accessToken: Option<string>, u: User, pathname: string)
    requires Truthy(accessToken)
    ensures AuthGuard(accessToken, Some(u), None, pathname) == Render
  {
  }

  /** An empty role list is still a list (an array is truthy): nobody sees the page. */
  lemma EmptyRolesAdmitNobody(accessToken: Option<string>, user: Option<User>, pathname: string)
    ensures AuthGuard(accessToken, user, Some([]), pathname) != Render
  {
  }

  /** Admitting more roles never turns a rendered page into a redirect. */
  lemma MoreRolesAdmitMore(accessToken: Option<string>, user: Option<User>, r1: seq<UserRole>, r2: seq<UserRole>, pathname: string)
    requires forall r :: r in r1 ==> r in r2
    requires AuthGuard(accessToken, user, Some(r1), pathname) == Render
    ensures AuthGuard(accessToken, user, Some(r2), pathname) == Render
  {
  }

  /** The decision does not depend on the path except through the login redirect's state. */
  lemma PathOnlyInLoginState(accessToken: Option<string>, user: Option<User>, roles: Option<seq<UserRole>>, p: string, q: string)
    ensures var d1, d2 := AuthGuard(accessToken, user, roles, p), AuthGuard(accessToken, user, roles, q);
      d1.Render? == d2.Render? && (d1.Redirect? ==> d1.to == d2.to)
  {
  }
}

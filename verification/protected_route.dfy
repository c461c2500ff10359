/** The route guard in front of every dashboard: it sends a visitor without
    a token to the login page, a signed-in user whose role the route does
    not allow to the unauthorized page, and renders the nested route
    otherwise; it also asks for the profile when a token has no user yet. */
module ProtectedRoute {
  import opened Common
  import opened Entities
  import AuthSlice

  datatype Decision = ToLogin | ToUnauthorized | RenderOutlet

  /** The render decision for the session's token and user and the route's
      allowed roles (an empty list allows every role). */
  function Guard(token: Option<string>, user: Option<User>, allowedRoles: seq<string>): (d: Decision)
    ensures d == ToLogin <==> !Truthy(token)
    ensures d == ToUnauthorized <==>
              Truthy(token) && |allowedRoles| > 0 && user.Some? && user.value.role !in allowedRoles
    ensures d == RenderOutlet <==>
              Truthy(token) && (|allowedRoles| == 0 || user.None? || user.value.role in allowedRoles)
  {
    if !Truthy(token) then ToLogin
    else if |allowedRoles| > 0 && user.Some? && user.value.role !in allowedRoles then ToUnauthorized
    else RenderOutlet
  }

  /** Whether the guard's effect dispatches the profile fetch when it runs
      (on mount and on every change of the token). */
  function FetchesProfile(token: Option<string>, user: Option<User>): (b: bool)
    ensures b <==> Truthy(token) && user.None?
  {
    Truthy(token) && user.None?
  }

  // ---- properties ----

  /** Without a token the visitor goes to the login page whatever the user
      and the roles are. */
  lemma NoTokenAlwaysLogin(user: Option<User>, roles: seq<string>, other: Option<User>, others: seq<string>)
    ensures Guard(None, user, roles) == ToLogin
    ensures Guard(Some(""), user, roles) == Guard(None, other, others)
  {
  }

  /** An empty role list never yields the unauthorized redirect. */
  lemma EmptyRolesNeverUnauthorized(token: Option<string>, user: Option<User>)
    ensures Guard(token, user, []) != ToUnauthorized
    ensures Truthy(token) ==> Guard(token, user, []) == RenderOutlet
  {
  }

  /** While the profile is still loading (token, no user) the nested route
      is rendered, and exactly then the profile is fetched; once the user
      arrives, the roles decide. */
  lemma TokenWithoutUser(t: string, roles: seq<string>, u: User)
    requires t != ""
    ensures Guard(Some(t), None, roles) == RenderOutlet
    ensures FetchesProfile(Some(t), None)
    ensures !FetchesProfile(Some(t), Some(u))
    ensures Guard(Some(t), Some(u), roles) == (if |roles| > 0 && u.role !in roles then ToUnauthorized else RenderOutlet)
  {
  }

  /** The profile is only ever fetched behind a rendered route: a fetch
      means a token without a user, which the guard lets through whatever
      the roles. */
  lemma FetchingRendersOutlet(token: Option<string>, user: Option<User>, roles: seq<string>)
    ensures FetchesProfile(token, user) ==> Guard(token, user, roles) == RenderOutlet
    ensures Guard(token, user, roles) == ToLogin ==> !FetchesProfile(token, user)
  {
  }

  /** A reload: the session restarts from the stored token with no user.
      A truthy stored token renders the route and fetches the profile, any
      other goes to login and fetches nothing; once the profile arrives the
      fetching stops and the roles decide. */
  lemma RestartedSession(stored: Option<string>, roles: seq<string>, p: AuthSlice.ProfilePayload)
    ensures var s := AuthSlice.InitialState(stored);
            && (FetchesProfile(s.token, s.user) <==> Truthy(stored))
            && (Guard(s.token, s.user, roles) == RenderOutlet <==> Truthy(stored))
            && (Guard(s.token, s.user, roles) == ToLogin <==> !Truthy(stored))
    ensures var s := AuthSlice.InitialState(stored);
            var t := AuthSlice.Step(AuthSlice.Session(s, stored), AuthSlice.FetchProfile(Fulfilled(p))).state;
            var u := AuthSlice.ProfileUser(p);
            && !FetchesProfile(t.token, t.user)
            && (Truthy(stored) ==>
                  Guard(t.token, t.user, roles) == (if |roles| > 0 && u.role !in roles then ToUnauthorized else RenderOutlet))
  {
  }

  /** Allowing more roles never turns a rendered route into a redirect. */
  lemma MoreRolesMonotone(token: Option<string>, user: Option<User>, roles: seq<string>, extra: seq<string>)
    requires |roles| > 0
    requires Guard(token, user, roles) == RenderOutlet
    ensures Guard(token, user, roles + extra) == RenderOutlet
  {
    if user.Some? && user.value.role in roles {
      assert user.value.role in roles + extra;
    }
  }
}

/** The session container: the signed-in user, the bearer token, one
    loading flag and one error slot, together with the token persisted in
    the browser's storage. */
module AuthSlice {
  import opened Common
  import opened Entities

  datatype State = State(user: Option<User>, token: Option<string>, loading: bool, error: Option<string>)

  /** The container and the persisted `token` entry, which the login
      operation writes and the logout reducer removes. */
  datatype Session = Session(state: State, stored: Option<string>)

  /** The state at start-up: `localStorage.getItem('token') || null`. */
  function InitialState(stored: Option<string>): (s: State)
    ensures s.user == None && !s.loading && s.error == None
    ensures Truthy(stored) <==> s.token.Some?
    ensures s.token.Some? ==> s.token == stored
  {
    State(None, if Truthy(stored) then stored else None, false, None)
  }

  /** The body of a successful login. */
  datatype LoginResponse = LoginResponse(token: string, user: User)

  /** The two shapes of a profile response: `{ user }` or the user itself. */
  datatype ProfilePayload = WithUser(user: User) | BareUser(bare: User)

  /** `payload.user || payload`. */
  function ProfileUser(p: ProfilePayload): User {
    match p
    case WithUser(u) => u
    case BareUser(u) => u
  }

  datatype Action =
    | Logout
    | RegisterUser(Phase<(), ErrorBody>)
    | LoginUser(Phase<LoginResponse, ErrorBody>)
    | FetchProfile(Phase<ProfilePayload, ErrorBody>)

  /** The reducer, and on a login response also the token write the login
      operation makes just before it fulfils. */
  function Step(ss: Session, a: Action): Session {
    var s := ss.state;
    match a
    case Logout => Session(s.(user := None, token := None), None)
    case RegisterUser(ph) =>
      (match ph
       case Pending => ss.(state := s.(loading := true))
       case Fulfilled(_) => ss.(state := s.(loading := false))
       case Rejected(b) => ss.(state := s.(loading := false, error := b.message)))
    case LoginUser(ph) =>
      (match ph
       case Pending => ss.(state := s.(loading := true))
       case Fulfilled(res) =>
         Session(s.(loading := false, token := Some(res.token), user := Some(res.user)), Some(res.token))
       case Rejected(b) => ss.(state := s.(loading := false, error := b.message)))
    case FetchProfile(ph) =>
      (match ph
       case Fulfilled(p) => ss.(state := s.(user := Some(ProfileUser(p))))
       case _ => ss)
  }

  // ---- properties ----

  /** A login persists the token it sets, so a reload starts signed in with
      the same token. */
  lemma LoginPersistsToken(ss: Session, res: LoginResponse)
    requires res.token != ""
    ensures var r := Step(ss, LoginUser(Fulfilled(res)));
            && r.state.token == Some(res.token) && r.state.user == Some(res.user)
            && !r.state.loading && r.stored == Some(res.token)
            && InitialState(r.stored).token == r.state.token
  {
  }

  /** Logging out drops the user, the token and the persisted token
      together, and leaves the flag and the error as they were; a reload
      after it starts signed out. */
  lemma LogoutClearsSession(ss: Session)
    ensures var r := Step(ss, Logout);
            && r.state.user == None && r.state.token == None && r.stored == None
            && r.state.loading == ss.state.loading && r.state.error == ss.state.error
            && InitialState(r.stored).token == None
  {
  }

  /** A profile response sets the user from either shape; a profile fetch
      that is pending or fails has no case and leaves the session alone, so
      a stale token survives a failed profile fetch. */
  lemma ProfileCases(ss: Session, u: User, b: ErrorBody)
    ensures Step(ss, FetchProfile(Fulfilled(WithUser(u)))).state.user == Some(u)
    ensures Step(ss, FetchProfile(Fulfilled(BareUser(u)))).state.user == Some(u)
    ensures Step(ss, FetchProfile(Fulfilled(WithUser(u)))).state.token == ss.state.token
    ensures Step(ss, FetchProfile(Rejected(b))) == ss
    ensures Step(ss, FetchProfile(Pending)) == ss
  {
  }

  /** Login and registration pending cases raise the flag without clearing
      an earlier error; their rejections store `payload?.message`, which is
      null when the body has no message. */
  lemma PendingKeepsError(ss: Session, b: ErrorBody)
    ensures Step(ss, LoginUser(Pending)).state.error == ss.state.error
    ensures Step(ss, RegisterUser(Pending)).state.error == ss.state.error
    ensures Step(ss, LoginUser(Pending)).state.loading
    ensures var r := Step(ss, LoginUser(Rejected(b)));
            !r.state.loading && r.state.error == b.message && r.state.token == ss.state.token
            && r.stored == ss.stored
    ensures Step(ss, RegisterUser(Rejected(ErrorBody(None)))).state.error == None
  {
  }

  /** An error from a failed attempt is still there after a successful
      login. */
  lemma LoginKeepsStaleError(ss: Session, msg: string, res: LoginResponse)
    ensures var r := Step(Step(Step(ss, LoginUser(Rejected(ErrorBody(Some(msg))))), LoginUser(Pending)),
                          LoginUser(Fulfilled(res)));
            r.state.error == Some(msg) && r.state.user == Some(res.user)
  {
  }
}

/** The authentication context: the signed-in user, the session, the time the session
    started and whether the first session lookup is still running, and how initialisation,
    auth events and the sign-in, sign-up and sign-out calls change them. The authentication
    service's answers are inputs; `now` stands for the ISO-8601 text of the current time. */
module AuthContext {
  import opened Common

  const DefaultRedirectUrl: string := "https://soulmate-ai-ten.vercel.app"
  const OutsideProviderError: string := "useAuth must be used within an AuthProvider"

  datatype User = User(id: string)

  /** A service session always carries its user. */
  datatype Session = Session(accessToken: string, user: User)

  /** The four state variables of the provider. */
  datatype AuthState = AuthState(
    user: Option<User>,
    session: Option<Session>,
    sessionStartTime: Option<string>,
    loading: bool)

  /** Nothing known yet and the lookup running. */
  const InitialState: AuthState := AuthState(None, None, None, true)

  /** `REDIRECT_URL`: the configured public URL, or the production URL when unset or empty. */
  function RedirectUrl(env: Option<string>): (url: string)
    ensures url != ""
    ensures Truthy(env) ==> url == env.value
    ensures !Truthy(env) ==> url == DefaultRedirectUrl
  {
    OrElse(env, DefaultRedirectUrl)
  }

  /** `session?.user ?? null` */
  function UserOf(s: Option<Session>): Option<User> {
    if s.Some? then Some(s.value.user) else None
  }

  /** `initSession`: a fetched session is stored with its user and starts the clock; no
      session keeps whatever start time is already set; a failed lookup changes nothing;
      in every case the lookup is over. */
  function AfterInit(st: AuthState, fetched: Result<Option<Session>, string>, now: string): AuthState {
    match fetched
    case Ok(current) =>
      AuthState(UserOf(current), current,
                if current.Some? then Some(now) else st.sessionStartTime, false)
    case Err(_) => st.(loading := false)
  }

  /** The auth-event handler: the event's session replaces the old one. */
  function AfterAuthEvent(st: AuthState, s: Option<Session>, now: string): AuthState {
    AuthState(UserOf(s), s, if s.Some? then Some(now) else None, false)
  }

  /** `signOut`: a successful call forgets the session; a failed one changes nothing. */
  function AfterSignOut(st: AuthState, outcome: Result<(), string>): AuthState {
    if outcome.Ok? then st.(user := None, session := None, sessionStartTime := None) else st
  }

  /** The user is the session's user, and a stored session has a start time. */
  predicate Consistent(st: AuthState) {
    st.user == UserOf(st.session) && (st.session.Some? ==> st.sessionStartTime.Some?)
  }

  /** The start time is set exactly while a session is stored. */
  predicate Clocked(st: AuthState) {
    st.sessionStartTime.Some? <==> st.session.Some?
  }

  lemma InitialConsistent()
    ensures Consistent(InitialState) && Clocked(InitialState) && InitialState.loading
  {
  }

  /** Initialisation keeps the state consistent and always ends the lookup. */
  lemma InitKeepsConsistent(st: AuthState, fetched: Result<Option<Session>, string>, now: string)
    requires Consistent(st)
    ensures Consistent(AfterInit(st, fetched, now))
    ensures !AfterInit(st, fetched, now).loading
    ensures fetched.Ok? && fetched.value.Some? ==>
              AfterInit(st, fetched, now).sessionStartTime == Some(now)
    ensures fetched.Ok? && fetched.value.None? ==>
              AfterInit(st, fetched, now).sessionStartTime == st.sessionStartTime
    ensures fetched.Err? ==> AfterInit(st, fetched, now).(loading := st.loading) == st
  {
  }

  /** An auth event determines the whole state by itself, whatever came before. */
  lemma AuthEventForgetsPast(st1: AuthState, st2: AuthState, s: Option<Session>, now: string)
    ensures AfterAuthEvent(st1, s, now) == AfterAuthEvent(st2, s, now)
    ensures Consistent(AfterAuthEvent(st1, s, now)) && Clocked(AfterAuthEvent(st1, s, now))
    ensures !AfterAuthEvent(st1, s, now).loading
    ensures AfterAuthEvent(st1, s, now).session == s
    ensures s.Some? <==> AfterAuthEvent(st1, s, now).sessionStartTime == Some(now)
  {
  }

  /** Sign-out keeps the state consistent and leaves the lookup flag alone; after a
      successful one nobody is signed in. */
  lemma SignOutKeepsConsistent(st: AuthState, outcome: Result<(), string>)
    requires Consistent(st)
    ensures Consistent(AfterSignOut(st, outcome))
    ensures Clocked(st) ==> Clocked(AfterSignOut(st, outcome))
    ensures AfterSignOut(st, outcome).loading == st.loading
    ensures outcome.Ok? ==>
              AfterSignOut(st, outcome).user == None && AfterSignOut(st, outcome).sessionStartTime == None
    ensures outcome.Err? ==> AfterSignOut(st, outcome) == st
  {
  }

  /** Once the lookup is over it never runs again. */
  lemma LoadingSettles(st: AuthState, fetched: Result<Option<Session>, string>,
                       s: Option<Session>, outcome: Result<(), string>, now: string)
    requires !st.loading
    ensures !AfterInit(st, fetched, now).loading
    ensures !AfterAuthEvent(st, s, now).loading
    ensures !AfterSignOut(st, outcome).loading
  {
  }

  /** When initialisation answers "no session" after an auth event already signed a user
      in, the session is dropped but the event's start time stays: a start time without a
      session. */
  lemma LateInitKeepsStaleStartTime(s: Session, t1: string, t2: string)
    ensures var st := AfterInit(AfterAuthEvent(InitialState, Some(s), t1), Ok(None), t2);
            st.session == None && st.sessionStartTime == Some(t1) && !Clocked(st)
  {
  }

  /** What `signUp` hands to the service. */
  datatype SignUpRequest = SignUpRequest(
    email: string, password: string, emailRedirectTo: string, timestamp: string)

  /** The provider's state. `redirectUrl` is fixed when the application is built. */
  class AuthProvider {
    var user: Option<User>
    var session: Option<Session>
    var sessionStartTime: Option<string>
    var loading: bool
    const redirectUrl: string

    function State(): AuthState
      reads this
    {
      AuthState(user, session, sessionStartTime, loading)
    }

    constructor(env: Option<string>)
      ensures State() == InitialState
      ensures redirectUrl == RedirectUrl(env)
    {
      user := None;
      session := None;
      sessionStartTime := None;
      loading := true;
      redirectUrl := RedirectUrl(env);
    }

    /** `initSession`: `fetched` is the answer of the session lookup. */
    method InitSession(fetched: Result<Option<Session>, string>, now: string)
      modifies this
      ensures State() == AfterInit(old(State()), fetched, now)
    {
      if fetched.Ok? {
        var current := fetched.value;
        session := current;
        user := if current.Some? then Some(current.value.user) else None;
        if current.Some? {
          sessionStartTime := Some(now);
        }
      }
      loading := false;
    }

    /** The handler subscribed to auth events. */
    method OnAuthStateChange(s: Option<Session>, now: string)
      modifies this
      ensures State() == AfterAuthEvent(old(State()), s, now)
    {
      session := s;
      user := if s.Some? then Some(s.value.user) else None;
      if s.Some? {
        sessionStartTime := Some(now);
      } else {
        sessionStartTime := None;
      }
      loading := false;
    }

    /** `signOut`: `outcome` is the service's answer, returned to the caller as is. */
    method SignOut(outcome: Result<(), string>) returns (result: Result<(), string>)
      modifies this
      ensures State() == AfterSignOut(old(State()), outcome)
      ensures result == outcome
    {
      if outcome.Err? {
        return outcome;
      }
      sessionStartTime := None;
      user := None;
      session := None;
      result := outcome;
    }

    /** `signUp`: the request carries the redirect URL and the time of the call; a service
        error is passed on to the caller. The state is unchanged. */
    method SignUp(email: string, password: string, now: string, outcome: Result<(), string>)
      returns (request: SignUpRequest, result: Result<(), string>)
      ensures request.email == email && request.password == password
      ensures request.emailRedirectTo == redirectUrl && request.timestamp == now
      ensures result.Err? <==> outcome.Err?
      ensures result.Err? ==> result.error == outcome.error
    {
      request := SignUpRequest(email, password, redirectUrl, now);
      if outcome.Err? {
        return request, Err(outcome.error);
      }
      result := Ok(());
    }

    /** `signIn`: the credentials go to the service and its error is passed on. */
    method SignIn(email: string, password: string, outcome: Result<(), string>)
      returns (request: (string, string), result: Result<(), string>)
      ensures request == (email, password)
      ensures result.Err? <==> outcome.Err?
      ensures result.Err? ==> result.error == outcome.error
    {
      request := (email, password);
      if outcome.Err? {
        return request, Err(outcome.error);
      }
      result := Ok(());
    }
  }

  /** `useAuth`: the provider's value, or an error outside any provider. */
  function UseAuth<T>(context: Option<T>): (r: Result<T, string>)
    ensures r.Ok? <==> context.Some?
    ensures r.Ok? ==> r.value == context.value
    ensures r.Err? ==> r.error == OutsideProviderError
  {
    if context.None? then Err(OutsideProviderError) else Ok(context.value)
  }
}

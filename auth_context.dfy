/** The session kept by `AuthProvider` (AuthContext/AuthContext.jsx): the signed-in user and
    token, the two browser-storage keys `user` and `token`, and the default `Authorization`
    header of the HTTP client. Each server reply is an input. */
module AuthContext {
  import opened Js
  import opened Remote

  const LoginFailed := "Login failed"
  const SignupPolicy := "Email should be last from einfratech.com or .tech only and password should be alphanumeric password"

  /** The `{ user, token }` body of a successful login or registration. */
  datatype AuthReply = AuthReply(user: Identity, token: string)

  /** Everything the provider changes, as a value. `storedUser` is the `user` key holding
      the serialised identity; `authorization` is the header, None when it is not set. */
  datatype AuthState = AuthState(
    user: Option<Identity>,
    token: Option<string>,
    loading: bool,
    storedUser: Option<Identity>,
    storedToken: Option<string>,
    authorization: Option<string>)

  function Bearer(token: string): string {
    "Bearer " + token
  }

  /** A user is signed in with `u` and `t` in memory, in storage and in the header. */
  predicate SignedIn(s: AuthState, u: Identity, t: string) {
    && s.user == Some(u) && s.token == Some(t)
    && s.storedUser == Some(u) && s.storedToken == Some(t)
    && s.authorization == Some(Bearer(t))
  }

  /** The state a fresh provider starts from: nothing in memory, the given storage. */
  function Fresh(storedUser: Option<Identity>, storedToken: Option<string>): AuthState {
    AuthState(None, None, true, storedUser, storedToken, None)
  }

  /** Reloading the page: memory and the header are lost, storage survives. */
  function Reload(s: AuthState): AuthState {
    Fresh(s.storedUser, s.storedToken)
  }

  /** The mount effect: `storedUser && storedToken` (an empty token is falsy) restores the
      user, the token and the header; loading ends in any case; storage is only read. */
  function Restored(s: AuthState): (t: AuthState)
    ensures !t.loading && t.storedUser == s.storedUser && t.storedToken == s.storedToken
    ensures s.storedUser.Some? && s.storedToken.Some? && s.storedToken.value != "" ==>
      SignedIn(t, s.storedUser.value, s.storedToken.value)
    ensures s.storedUser.None? || s.storedToken.None? || s.storedToken == Some("") ==>
      t == s.(loading := false)
  {
    if s.storedUser.Some? && s.storedToken.Some? && s.storedToken.value != "" then
      s.(user := s.storedUser, token := s.storedToken, authorization := Some(Bearer(s.storedToken.value)),
         loading := false)
    else
      s.(loading := false)
  }

  /** The updates of a successful login or registration. */
  function SignedInWith(s: AuthState, r: AuthReply): (t: AuthState)
    ensures SignedIn(t, r.user, r.token) && t.loading == s.loading
  {
    s.(user := Some(r.user), token := Some(r.token), storedUser := Some(r.user),
       storedToken := Some(r.token), authorization := Some(Bearer(r.token)))
  }

  /** `error.response?.data?.message || "Login failed"`: `undefined`, `null` and `""` are
      falsy. */
  function LoginErrorMessage(message: ErrorMessage): (m: string)
    ensures m != ""
    ensures message.Text? && message.text != "" ==> m == message.text
    ensures message.Absent? || message.Null? || message == Text("") ==> m == LoginFailed
  {
    if message.Text? && message.text != "" then message.text else LoginFailed
  }

  /** `new Error(error.response?.data?.message && POLICY).message`: the fixed policy text
      when the server sent a non-empty message (the server's own text is never shown); for
      `null`, `null && POLICY` is `null` and the message reads "null"; for `undefined` or
      `""` it is empty. */
  function SignupErrorMessage(message: ErrorMessage): (m: string)
    ensures m == SignupPolicy <==> message.Text? && message.text != ""
    ensures message.Null? ==> m == "null"
    ensures message.Absent? || message == Text("") ==> m == ""
  {
    match message
    case Absent => ""
    case Null => "null"
    case Text(t) => if t != "" then SignupPolicy else ""
  }

  /** `login` and `signup` alike: success signs in, failure changes nothing. */
  function AfterAuth(s: AuthState, reply: Response<AuthReply>): (t: AuthState)
    ensures reply.Ok? ==> SignedIn(t, reply.data.user, reply.data.token)
    ensures reply.Failed? ==> t == s
  {
    if reply.Ok? then SignedInWith(s, reply.data) else s
  }

  /** `logout`: the server's answer decides; only a success clears memory, storage and the
      header, and a failure is only logged. */
  function AfterLogout(s: AuthState, reply: Response<()>): (t: AuthState)
    ensures reply.Ok? ==> t.user.None? && t.token.None? && t.storedUser.None? && t.storedToken.None?
    ensures reply.Ok? ==> t.authorization.None? && t.loading == s.loading
    ensures reply.Failed? ==> t == s
  {
    if reply.Ok? then s.(user := None, token := None, storedUser := None, storedToken := None, authorization := None)
    else s
  }

  /** The header `logout` sends: `Bearer ${token}`, which reads "Bearer null" when signed out. */
  function LogoutAuthorization(token: Option<string>): (h: string)
    ensures token.Some? ==> h == Bearer(token.value)
    ensures token.None? ==> h == Bearer("null")
  {
    Bearer(if token.Some? then token.value else "null")
  }

  /** After a successful login with a non-empty token, reloading the page and running the
      mount effect signs the same user in again, with the same header. */
  lemma ReloadAfterLogin(s: AuthState, r: AuthReply)
    requires r.token != ""
    ensures SignedIn(Restored(Reload(AfterAuth(s, Ok(r)))), r.user, r.token)
  {
  }

  /** After a successful logout, a reload finds nothing to restore. */
  lemma ReloadAfterLogout(s: AuthState)
    ensures Restored(Reload(AfterLogout(s, Ok(())))).user.None?
    ensures Restored(Reload(AfterLogout(s, Ok(())))).authorization.None?
  {
  }

  /** A logout the server refused leaves the session in storage, so a reload signs the
      same user in again. */
  lemma FailedLogoutSurvivesReload(s: AuthState, u: Identity, t: string, status: Option<int>, message: ErrorMessage)
    requires SignedIn(s, u, t) && t != ""
    ensures SignedIn(Restored(Reload(AfterLogout(s, Failed(status, message)))), u, t)
  {
  }

  /** The provider's events. */
  datatype Event = Restore | Login(reply: Response<AuthReply>) | Signup(reply: Response<AuthReply>) | Logout(outcome: Response<()>)

  function Step(s: AuthState, e: Event): AuthState {
    match e
    case Restore => Restored(s)
    case Login(r) => AfterAuth(s, r)
    case Signup(r) => AfterAuth(s, r)
    case Logout(r) => AfterLogout(s, r)
  }

  function Run(s: AuthState, es: seq<Event>): AuthState
    decreases |es|
  {
    if es == [] then s else Run(Step(s, es[0]), es[1..])
  }

  /** Memory, storage and header agree: whenever a user is in memory, the token is too, and
      both are what storage holds and what the header carries. */
  predicate Coherent(s: AuthState) {
    && (s.user.Some? <==> s.token.Some?)
    && (s.user.Some? ==> SignedIn(s, s.user.value, s.token.value))
  }

  /** Every fresh provider is coherent, and no sequence of events breaks coherence. */
  lemma {:induction false} RunStaysCoherent(s: AuthState, es: seq<Event>)
    requires Coherent(s)
    ensures Coherent(Run(s, es))
    decreases |es|
  {
    if es != [] {
      var t := Step(s, es[0]);
      assert Coherent(t);
      RunStaysCoherent(t, es[1..]);
    }
  }

  lemma FreshIsCoherent(storedUser: Option<Identity>, storedToken: Option<string>)
    ensures Coherent(Fresh(storedUser, storedToken))
  {
  }

  /** The provider. */
  class Session {
    var user: Option<Identity>
    var token: Option<string>
    var loading: bool
    var storedUser: Option<Identity>
    var storedToken: Option<string>
    var authorization: Option<string>

    ghost function Snapshot(): AuthState
      reads this
    {
      AuthState(user, token, loading, storedUser, storedToken, authorization)
    }

    /** A provider mounted on a browser whose storage holds the given keys. */
    constructor (storedUser: Option<Identity>, storedToken: Option<string>)
      ensures Snapshot() == Fresh(storedUser, storedToken)
    {
      user, token, loading := None, None, true;
      this.storedUser, this.storedToken, authorization := storedUser, storedToken, None;
    }

    /** The mount effect. */
    method Restore()
      modifies this
      ensures Snapshot() == Restored(old(Snapshot()))
    {
      if storedUser.Some? && storedToken.Some? && storedToken.value != "" {
        user := storedUser;
        token := storedToken;
        authorization := Some(Bearer(storedToken.value));
      }
      loading := false;
    }

    method SetSignedIn(r: AuthReply)
      modifies this
      ensures Snapshot() == SignedInWith(old(Snapshot()), r)
    {
      user := Some(r.user);
      token := Some(r.token);
      storedUser := Some(r.user);
      storedToken := Some(r.token);
      authorization := Some(Bearer(r.token));
    }

    /** `login`: `thrown` is the message of the error it throws, None when it resolves. */
    method Login(reply: Response<AuthReply>) returns (thrown: Option<string>)
      modifies this
      ensures Snapshot() == AfterAuth(old(Snapshot()), reply)
      ensures thrown.None? <==> reply.Ok?
      ensures reply.Failed? ==> thrown == Some(LoginErrorMessage(reply.message))
    {
      match reply {
        case Ok(r) =>
          SetSignedIn(r);
          thrown := None;
        case Failed(_, message) =>
          thrown := Some(LoginErrorMessage(message));
      }
    }

    /** `signup`: the same updates as `login` on success, a different message on failure. */
    method Signup(reply: Response<AuthReply>) returns (thrown: Option<string>)
      modifies this
      ensures Snapshot() == AfterAuth(old(Snapshot()), reply)
      ensures thrown.None? <==> reply.Ok?
      ensures reply.Failed? ==> thrown == Some(SignupErrorMessage(reply.message))
    {
      match reply {
        case Ok(r) =>
          SetSignedIn(r);
          thrown := None;
        case Failed(_, message) =>
          thrown := Some(SignupErrorMessage(message));
      }
    }

    /** `logout`: `sent` is the Authorization header of the request. */
    method Logout(outcome: Response<()>) returns (sent: string)
      modifies this
      ensures sent == LogoutAuthorization(old(token))
      ensures Snapshot() == AfterLogout(old(Snapshot()), outcome)
    {
      sent := LogoutAuthorization(token);
      if outcome.Ok? {
        user, token, storedUser, storedToken, authorization := None, None, None, None, None;
      }
    }
  }
}

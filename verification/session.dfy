/** The session store: the signed-in user and bearer token held in memory,
    mirrored in two local-storage keys (`authToken`, `authUser`), with the
    transitions login, logout, set-or-clear and the startup auto-login. */
module Session {
  import opened Common
  import Api

  /** A user's role arrives either as a name or as a numeric enum value. */
  datatype Role = Named(name: string) | Code(code: int)

  datatype User = User(id: string, name: string, email: string, role: Role)

  /** The user is signed in with the role named "Admin" (a strict
      comparison with the string, so a numeric role never qualifies). */
  predicate IsAdmin(u: Option<User>) {
    u.Some? && u.value.role == Named("Admin")
  }

  /** The two local-storage keys. The user is stored serialised; the model
      stores the user value itself. */
  datatype Storage = Storage(authToken: Option<string>, authUser: Option<User>)

  const Cleared := Storage(None, None)

  datatype AuthState = AuthState(user: Option<User>, token: Option<string>, isLoading: bool, storage: Storage)

  /** The in-memory user and token are both set or both null. */
  predicate Paired(s: AuthState) {
    s.user.Some? <==> s.token.Some?
  }

  predicate Anonymous(s: AuthState) {
    s.user.None? && s.token.None?
  }

  /** Storage holds exactly the in-memory session. */
  predicate Mirrored(s: AuthState) {
    s.storage == Storage(s.token, s.user)
  }

  /** Both storage keys are present or both absent. */
  predicate StoragePaired(st: Storage) {
    st.authToken.Some? <==> st.authUser.Some?
  }

  /** The provider as mounted: nobody signed in, still loading, and whatever
      an earlier visit left in storage. */
  function Mount(stored: Storage): (s: AuthState)
    ensures Anonymous(s) && Paired(s)
    ensures s.isLoading
    ensures s.storage == stored
  {
    AuthState(None, None, true, stored)
  }

  /** `login(token, user)`: persist both keys and adopt both values. No
      backend call. */
  function Login(s: AuthState, token: string, user: User): (r: AuthState)
    ensures r.storage.authToken == Some(token) && r.storage.authUser == Some(user)
    ensures r.user == Some(user) && r.token == Some(token)
    ensures Paired(r) && Mirrored(r)
    ensures r.isLoading == s.isLoading
  {
    AuthState(Some(user), Some(token), s.isLoading, Storage(Some(token), Some(user)))
  }

  /** The outcome of `logout()`: the new state and the backend logout
      request it fires, if any. Nothing waits for that request. */
  datatype LogoutStep = LogoutStep(state: AuthState, backendCall: Option<Api.Request>)

  /** `logout()`: read the stored token, clear both keys and both fields,
      then notify the backend only if the stored token was truthy. */
  function Logout(s: AuthState): (r: LogoutStep)
    ensures Anonymous(r.state) && r.state.storage == Cleared
    ensures Mirrored(r.state)
    ensures r.state.isLoading == s.isLoading
    ensures r.backendCall.Some? <==> Present(s.storage.authToken)
    ensures r.backendCall.Some? ==> r.backendCall.value == Api.LogoutRequest(s.storage.authToken.value)
  {
    var stored := s.storage.authToken;
    var cleared := AuthState(None, None, s.isLoading, Cleared);
    LogoutStep(cleared, if Present(stored) then Some(Api.LogoutRequest(stored.value)) else None)
  }

  /** `setUserAndToken(user, token)`: with a user and a truthy token, behave
      as `login`; otherwise clear both keys and both fields. */
  function SetUserAndToken(s: AuthState, user: Option<User>, token: Option<string>): (r: AuthState)
    ensures user.Some? && Present(token) ==> r.user == user && r.token == token
    ensures !(user.Some? && Present(token)) ==> Anonymous(r) && r.storage == Cleared
    ensures Paired(r) && Mirrored(r)
    ensures r.isLoading == s.isLoading
  {
    if user.Some? && Present(token) then Login(s, token.value, user.value)
    else AuthState(None, None, s.isLoading, Cleared)
  }

  /** The outcome of the startup auto-login: the new state and the
      verification request it sent, if any. */
  datatype AutoLoginStep = AutoLoginStep(state: AuthState, verifyCall: Option<Api.Request>)

  /** `attemptAutoLogin`: with a truthy stored token, ask `/auth/me` with it.
      An ok reply adopts the token and the returned user and rewrites
      `authUser`; a non-ok reply or a rejected fetch removes both keys. With
      no stored token nothing is touched. Loading ends on every branch.
      `verification` is what the `/auth/me` request produced; it is read only
      when the request is sent. */
  function AttemptAutoLogin(s: AuthState, verification: Api.Outcome<User>): (r: AutoLoginStep)
    ensures !r.state.isLoading
    ensures r.verifyCall.Some? <==> Present(s.storage.authToken)
    ensures r.verifyCall.Some? ==> r.verifyCall.value == Api.GetCurrentUser(s.storage.authToken.value)
    ensures !Present(s.storage.authToken) ==> r.state == s.(isLoading := false)
    ensures Present(s.storage.authToken) && verification.Delivered? && verification.response.Okay? ==>
      r.state.user == Some(verification.response.payload) && r.state.token == s.storage.authToken
      && r.state.storage == Storage(s.storage.authToken, Some(verification.response.payload))
    ensures Present(s.storage.authToken) && !(verification.Delivered? && verification.response.Okay?) ==>
      r.state.storage == Cleared && r.state.user == s.user && r.state.token == s.token
  {
    var stored := s.storage.authToken;
    if !Present(stored) then
      AutoLoginStep(s.(isLoading := false), None)
    else
      var call := Some(Api.GetCurrentUser(stored.value));
      match verification
      case Delivered(Okay(u)) =>
        AutoLoginStep(AuthState(Some(u), stored, false, Storage(stored, Some(u))), call)
      case _ =>
        AutoLoginStep(s.(isLoading := false, storage := Cleared), call)
  }

  /** Startup from any stored state ends with the in-memory session paired;
      it is signed in exactly when a truthy stored token was verified, and
      then storage mirrors memory. */
  lemma StartupOutcome(stored: Storage, verification: Api.Outcome<User>)
    ensures var r := AttemptAutoLogin(Mount(stored), verification).state;
            Paired(r) && !r.isLoading
            && (r.user.Some? <==> Present(stored.authToken) && verification.Delivered? && verification.response.Okay?)
            && (r.user.Some? ==> Mirrored(r))
  {
  }

  /** A failed verification leaves the session anonymous with both keys
      removed. */
  lemma FailedVerificationClearsStorage(stored: Storage, verification: Api.Outcome<User>)
    requires Present(stored.authToken)
    requires !(verification.Delivered? && verification.response.Okay?)
    ensures var r := AttemptAutoLogin(Mount(stored), verification).state;
            Anonymous(r) && r.storage == Cleared && Mirrored(r)
  {
  }

  /** With no usable stored token, startup leaves a stale `authUser` in
      place. */
  lemma StaleUserSurvivesStartup(u: User, verification: Api.Outcome<User>)
    ensures var r := AttemptAutoLogin(Mount(Storage(None, Some(u))), verification).state;
            Anonymous(r) && r.storage.authUser == Some(u) && !Mirrored(r)
  {
  }

  /** Every transition keeps the in-memory user and token paired, and keeps
      paired storage paired. */
  lemma TransitionsPreservePairing(s: AuthState, t: string, u: User, ou: Option<User>, ot: Option<string>,
                                   verification: Api.Outcome<User>)
    requires Paired(s) && StoragePaired(s.storage)
    ensures Paired(Login(s, t, u)) && StoragePaired(Login(s, t, u).storage)
    ensures Paired(Logout(s).state) && StoragePaired(Logout(s).state.storage)
    ensures Paired(SetUserAndToken(s, ou, ot)) && StoragePaired(SetUserAndToken(s, ou, ot).storage)
    ensures Paired(AttemptAutoLogin(s, verification).state)
    ensures StoragePaired(AttemptAutoLogin(s, verification).state.storage)
  {
  }

  /** Logging out after logging in always ends anonymous, and fires the
      backend logout request exactly when the new token is truthy. */
  lemma LoginThenLogout(s: AuthState, t: string, u: User)
    ensures var r := Logout(Login(s, t, u));
            Anonymous(r.state) && r.state.storage == Cleared
            && (r.backendCall.Some? <==> t != "")
  {
  }
}

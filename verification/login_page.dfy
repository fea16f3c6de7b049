/** The login page: the form's password rule, and what a submission does
    with the backend's reply. */
module LoginPage {
  import opened Common
  import opened Query
  import Api
  import Session

  /** The password must be at least one character long. */
  predicate PasswordValid(password: string) {
    |password| >= 1
  }

  /** The `token` object of the login response. */
  datatype TokenField = TokenField(accessToken: Option<string>)

  /** The parsed login response; any field may be missing. */
  datatype LoginResponse = LoginResponse(user: Option<Session.User>, token: Option<TokenField>)

  /** The response carries a user and a truthy access token. */
  predicate WellFormed(response: Option<LoginResponse>) {
    response.Some? && response.value.user.Some? && response.value.token.Some?
    && Present(response.value.token.value.accessToken)
  }

  /** The outcome of a submission: the session afterwards, the request sent,
      the toast, and where the browser goes. */
  datatype SubmitStep = SubmitStep(auth: Session.AuthState, request: Option<Api.Request>, notice: Option<Notice>,
                                   navigate: Option<Url>)

  /** A submission. The form only calls the handler when both fields pass
      validation (`emailAccepted` is the email rule's verdict). A
      well-formed reply signs in with the access token and user, greets the
      user by name and goes home; a malformed reply and a failed request
      both leave the session alone and show "Login Failed" with the error's
      message, or the fallback when it is empty. */
  function Submit(auth: Session.AuthState, email: string, password: string, emailAccepted: bool,
                  outcome: Api.Outcome<Option<LoginResponse>>): (r: SubmitStep)
    ensures !(emailAccepted && PasswordValid(password)) ==> r == SubmitStep(auth, None, None, None)
    ensures emailAccepted && PasswordValid(password) ==> r.request == Some(Api.LoginUser(email, password))
    ensures emailAccepted && PasswordValid(password) && Api.Call(outcome).Ok? && WellFormed(Api.Call(outcome).value) ==>
      var resp := Api.Call(outcome).value.value;
      r.auth == Session.Login(auth, resp.token.value.accessToken.value, resp.user.value)
      && r.notice == Some(Plain("Login Successful", "Welcome back, " + resp.user.value.name + "!"))
      && r.navigate == Some(Url("/", []))
    ensures emailAccepted && PasswordValid(password) && Api.Call(outcome).Ok? && !WellFormed(Api.Call(outcome).value) ==>
      r.auth == auth && r.navigate.None? && r.notice == Some(Plain("Login Failed", "Invalid API response structure."))
    ensures emailAccepted && PasswordValid(password) && Api.Call(outcome).Err? ==>
      r.auth == auth && r.navigate.None?
      && r.notice == Some(Plain("Login Failed", Or(Api.Call(outcome).message, "Invalid email or password.")))
  {
    if !(emailAccepted && PasswordValid(password)) then SubmitStep(auth, None, None, None)
    else
      var request := Some(Api.LoginUser(email, password));
      match Api.Call(outcome)
      case Ok(response) =>
        if WellFormed(response) then
          var user := response.value.user.value;
          SubmitStep(Session.Login(auth, response.value.token.value.accessToken.value, user), request,
                     Some(Plain("Login Successful", "Welcome back, " + user.name + "!")), Some(Url("/", [])))
        else
          SubmitStep(auth, request, Some(Plain("Login Failed", "Invalid API response structure.")), None)
      case Err(m) =>
        SubmitStep(auth, request, Some(Plain("Login Failed", Or(m, "Invalid email or password."))), None)
  }

  /** Signing in succeeds exactly on an ok, well-formed reply, and then the
      session is signed in with a truthy token and mirrored in storage. */
  lemma SignInIff(auth: Session.AuthState, email: string, password: string,
                  outcome: Api.Outcome<Option<LoginResponse>>)
    requires PasswordValid(password)
    ensures var r := Submit(auth, email, password, true, outcome);
            r.navigate.Some? <==> outcome.Delivered? && outcome.response.Okay? && WellFormed(outcome.response.payload)
    ensures var r := Submit(auth, email, password, true, outcome);
            r.navigate.Some? ==> r.auth.user.Some? && Present(r.auth.token) && Session.Paired(r.auth) && Session.Mirrored(r.auth)
  {
  }

  /** The fallback "Invalid email or password." is never chosen for an
      answer from the server: an HTTP error always carries a non-empty
      message, so the fallback only appears for a network failure whose
      message is empty. */
  lemma FallbackOnlyForSilentNetworkFailure(auth: Session.AuthState, email: string, password: string,
                                            status: nat, statusText: string, body: Api.ErrorBody)
    requires PasswordValid(password)
    ensures var n := Submit(auth, email, password, true, Api.Delivered(Api.NotOk(status, statusText, body))).notice;
            n == Some(Plain("Login Failed", Api.ErrorMessage(status, body)))
    ensures Submit(auth, email, password, true, Api.NetworkError("")).notice
            == Some(Plain("Login Failed", "Invalid email or password."))
  {
  }
}

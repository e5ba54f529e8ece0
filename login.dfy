/** The login form (src/pages/LoginPage.jsx): its field state and the submit
    handler, with the remote login call replaced by its outcome. */
module Login {
  import opened Options
  import opened Auth
  import Routing

  const DEMO_EMAIL := "eve.holt@reqres.in"
  const DEMO_PASSWORD := "cityslicka"
  const INVALID_CREDENTIALS := "Invalid credentials!"

  /** Outcome of the login request: a 2xx response carrying `data.token`
      (possibly absent), or any failure. */
  datatype LoginResponse = LoginOk(token: Token) | LoginError

  /** The page's state together with the session token it writes and the
      last navigation it requested. */
  datatype LoginState = LoginState(
    email: string,
    password: string,
    error: string,
    token: Token,
    navigation: Option<string>)

  /** The form's state when it is first mounted over the session token `token`. */
  function Initial(token: Token): (s: LoginState)
    ensures s.error == "" && !ShowsError(s)
    ensures s.email == DEMO_EMAIL && s.password == DEMO_PASSWORD
    ensures s.token == token && s.navigation == None
  {
    LoginState(DEMO_EMAIL, DEMO_PASSWORD, "", token, None)
  }

  /** The error banner is rendered exactly when `error` is truthy. */
  predicate ShowsError(s: LoginState)
    ensures ShowsError(s) <==> |s.error| > 0
  {
    s.error != ""
  }

  /** First step of a submission, before the request goes out: the error is cleared. */
  function SubmitStarted(s: LoginState): (t: LoginState)
    ensures t.error == "" && !ShowsError(t)
    ensures t.email == s.email && t.password == s.password
    ensures t.token == s.token && t.navigation == s.navigation
  {
    s.(error := "")
  }

  /** Second step: the response arrives. */
  function SubmitFinished(s: LoginState, response: LoginResponse): (t: LoginState)
    ensures t.email == s.email && t.password == s.password
    ensures response.LoginOk? ==>
              t.token == response.token && t.navigation == Some(Routing.USERS_PATH) && t.error == s.error
    ensures response.LoginError? ==>
              t.token == s.token && t.navigation == s.navigation && t.error == INVALID_CREDENTIALS
  {
    match response
    case LoginOk(token) => s.(token := token, navigation := Some(Routing.USERS_PATH))
    case LoginError => s.(error := INVALID_CREDENTIALS)
  }

  /** `handleLogin`: one whole submission. */
  function Submitted(s: LoginState, response: LoginResponse): (t: LoginState)
    ensures t.email == s.email && t.password == s.password
    ensures ShowsError(t) <==> response.LoginError?
    ensures response.LoginOk? ==>
              t.token == response.token && t.navigation == Some(Routing.USERS_PATH) && t.error == ""
    ensures response.LoginError? ==>
              t.token == s.token && t.navigation == s.navigation && t.error == INVALID_CREDENTIALS
  {
    SubmitFinished(SubmitStarted(s), response)
  }

  /** The error left by a submission does not depend on any earlier error:
      a failed attempt never leaks into the next one. */
  lemma SubmissionForgetsOldError(s1: LoginState, s2: LoginState, response: LoginResponse)
    ensures Submitted(s1, response).error == Submitted(s2, response).error
  {
  }

  /** Submitting twice with the same outcome is the same as submitting once. */
  lemma SubmitIdempotent(s: LoginState, response: LoginResponse)
    ensures Submitted(Submitted(s, response), response) == Submitted(s, response)
  {
  }

  /** The login form, holding the session store it writes to. */
  class LoginPage {
    var email: string
    var password: string
    var error: string
    var navigation: Option<string>
    const auth: AuthSession

    function State(): LoginState
      reads this, auth
    {
      LoginState(email, password, error, auth.token, navigation)
    }

    constructor (auth: AuthSession)
      ensures this.auth == auth
      ensures State() == Initial(auth.token)
    {
      this.auth := auth;
      email := DEMO_EMAIL;
      password := DEMO_PASSWORD;
      error := "";
      navigation := None;
    }

    /** The email input's change handler. */
    method SetEmail(value: string)
      modifies this
      ensures State() == old(State()).(email := value)
    {
      email := value;
    }

    /** The password input's change handler. */
    method SetPassword(value: string)
      modifies this
      ensures State() == old(State()).(password := value)
    {
      password := value;
    }

    /** `handleLogin`, with the awaited request replaced by `response`. */
    method HandleLogin(response: LoginResponse)
      modifies this, auth
      ensures State() == Submitted(old(State()), response)
    {
      error := "";
      match response
      case LoginOk(token) =>
        auth.Login(token);
        navigation := Some(Routing.USERS_PATH);
      case LoginError =>
        error := INVALID_CREDENTIALS;
    }
  }
}

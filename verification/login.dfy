/** `LoginView`: the login and signup form, its validation, and what a
    finished authentication request does to it. */
module Login {
  import opened Wrappers
  import opened Models
  import opened Api

  /** The view's state, with the token and user the `TokenManager` holds. */
  datatype LoginForm = LoginForm(
    email: string,
    password: string,
    fullName: string,
    isSignupMode: bool,
    isLoading: bool,
    errorMessage: string,
    showError: bool,
    isLoggedIn: bool,
    savedToken: Option<string>,
    savedUser: Option<User>)

  /** Shortest password signup accepts. */
  const MinPasswordLength: nat := 6

  /** `isFormValid`: both modes need an email and a password; signup also
      needs a name and a password of at least six characters. */
  predicate IsFormValid(f: LoginForm) {
    if f.isSignupMode then
      |f.email| > 0 && |f.password| > 0 && |f.fullName| > 0 && |f.password| >= MinPasswordLength
    else
      |f.email| > 0 && |f.password| > 0
  }

  /** The Log In / Sign Up button is disabled while loading or while the
      form is invalid. */
  predicate ActionDisabled(f: LoginForm) {
    f.isLoading || !IsFormValid(f)
  }

  /** Any values that pass signup pass login, but not the other way round:
      login has no name or length rule. */
  lemma SignupStricterThanLogin(f: LoginForm)
    ensures IsFormValid(f.(isSignupMode := true)) ==> IsFormValid(f.(isSignupMode := false))
    ensures var g := f.(email := "a", password := "12345", fullName := "", isSignupMode := false);
      IsFormValid(g) && !IsFormValid(g.(isSignupMode := true))
  {
  }

  /** The request `handleAuth` sends: its path and body fields. */
  datatype AuthCall = AuthCall(path: string, email: string, password: string, name: Option<string>)

  /** Pressing the button: the spinner starts, the old message is cleared,
      and signup or login is called with the form's fields. */
  function SubmitAuth(f: LoginForm): (r: (LoginForm, AuthCall))
    ensures r.0.isLoading && r.0.errorMessage == "" && ActionDisabled(r.0)
    ensures r.1.email == f.email && r.1.password == f.password
    ensures f.isSignupMode ==> r.1.path == SignupPath && r.1.name == Some(f.fullName)
    ensures !f.isSignupMode ==> r.1.path == LoginPath && r.1.name.None?
  {
    var call := if f.isSignupMode then AuthCall(SignupPath, f.email, f.password, Some(f.fullName))
                else AuthCall(LoginPath, f.email, f.password, None);
    (f.(isLoading := true, errorMessage := ""), call)
  }

  const NetworkMessage: string := "Network error. Please check your connection."
  const CredentialsMessage: string := "Invalid credentials."
  const GenericMessage: string := "An error occurred. Please try again."
  const UnexpectedMessage: string := "An unexpected error occurred."

  /** The alert text for a failed authentication. */
  function LoginErrorMessage(t: Thrown): string {
    match t
    case ApiFailure(ServerError(m)) => m
    case ApiFailure(NetworkError(_)) => NetworkMessage
    case ApiFailure(Unauthorized) => CredentialsMessage
    case ApiFailure(_) => GenericMessage
    case _ => UnexpectedMessage
  }

  /** `handleAuth` once the request has returned. Success stores the access
      token and the user and logs in; failure shows the message, stops the
      spinner and leaves the session alone. */
  function FinishAuth(f: LoginForm, outcome: Result<AuthResponse, Thrown>): LoginForm {
    match outcome
    case Ok(resp) => f.(savedToken := Some(resp.accessToken), savedUser := Some(resp.user), isLoggedIn := true)
    case Err(t) => f.(errorMessage := LoginErrorMessage(t), showError := true, isLoading := false)
  }

  /** A success saves the access token, not the refresh token, and raises
      no alert. A failure keeps the fields and the session, and the button
      comes back exactly when the form is valid. */
  lemma AuthOutcome(f: LoginForm, resp: AuthResponse, t: Thrown)
    ensures var r := FinishAuth(SubmitAuth(f).0, Ok(resp));
      && r.isLoggedIn && r.savedToken == Some(resp.accessToken) && r.savedUser == Some(resp.user)
      && r.showError == f.showError && r.errorMessage == ""
    ensures var r := FinishAuth(SubmitAuth(f).0, Err(t));
      && r.isLoggedIn == f.isLoggedIn && r.savedToken == f.savedToken && r.savedUser == f.savedUser
      && r.showError && !r.isLoading && r.errorMessage == LoginErrorMessage(t)
      && r.email == f.email && r.password == f.password && r.fullName == f.fullName
      && (ActionDisabled(r) <==> !IsFormValid(f))
  {
  }

  /** The alert for each way the request can end on the wire: a 401 reads
      "Invalid credentials.", another failing status the server's own message
      or "HTTP n", a transport failure the connection message, an unreadable
      success the generic text, and a body that fails to encode the
      unexpected-error text. */
  lemma {:induction false} MessageForExchange(x: Exchange<AuthResponse>, encodingError: string)
    ensures x.HttpResponse? && x.status == 401 ==>
      LoginErrorMessage(Send(true, Pass, x).error) == CredentialsMessage
    ensures x.HttpResponse? && x.status != 401 && !IsSuccess(x.status) ==>
      LoginErrorMessage(Send(true, Pass, x).error) ==
        if x.errorBody.Some? then x.errorBody.value.error else HttpStatusText(x.status)
    ensures !x.HttpResponse? ==> LoginErrorMessage(Send(true, Pass, x).error) == NetworkMessage
    ensures x.HttpResponse? && IsSuccess(x.status) && x.decoded.Err? ==>
      LoginErrorMessage(Send(true, Pass, x).error) == GenericMessage
    ensures LoginErrorMessage(Send(true, Fail(encodingError), x).error) == UnexpectedMessage
  {
    PerformRequestCauses(x);
  }
}

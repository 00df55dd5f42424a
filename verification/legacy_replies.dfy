/** The reply generator of the older `MainView`: tone chips that may all be
    switched off, an optional context, and a logout on `unauthorized`. */
module LegacyReplies {
  import opened Wrappers
  import opened Models
  import opened Api
  import LegacyApi

  /** The generator's state, with the session it can end. */
  datatype LegacyForm = LegacyForm(
    message: string,
    context: string,
    selectedPlatform: string,
    selectedTones: set<string>,
    generatedReplies: seq<GeneratedReply>,
    isLoading: bool,
    errorMessage: string,
    showError: bool,
    isLoggedIn: bool,
    savedToken: Option<string>)

  const AvailableTones: seq<string> := ["friendly", "professional", "brief"]
  const DefaultTone: string := "friendly"

  /** The generator as first shown to a signed-in user. */
  function InitialForm(token: string): (r: LegacyForm)
    ensures r.selectedTones == {DefaultTone} && r.message == "" && r.isLoggedIn
  {
    LegacyForm("", "", "Instagram", {DefaultTone}, [], false, "", false, true, Some(token))
  }

  /** `toggleTone`: a plain set toggle, with no guard on the last tone. */
  function ToggleTone(tones: set<string>, tone: string): (r: set<string>)
    ensures tone in tones ==> r == tones - {tone}
    ensures tone !in tones ==> r == tones + {tone}
    ensures forall t :: t != tone ==> (t in r <==> t in tones)
  {
    if tone in tones then tones - {tone} else tones + {tone}
  }

  /** Toggling a tone twice restores any selection; and switching off the
      only tone empties it, which the history filter never allows. */
  lemma ToggleToneTwice(tones: set<string>, tone: string)
    ensures ToggleTone(ToggleTone(tones, tone), tone) == tones
    ensures ToggleTone({tone}, tone) == {}
  {
  }

  /** Generate is enabled when idle, with a message and at least one tone. */
  predicate CanGenerate(f: LegacyForm) {
    !f.isLoading && |f.message| > 0 && f.selectedTones != {}
  }

  /** Switching off the default tone blocks Generate until a tone is back on. */
  lemma EmptyTonesBlockGenerate(f: LegacyForm, tone: string)
    requires f.selectedTones == {DefaultTone}
    ensures !CanGenerate(f.(selectedTones := ToggleTone(f.selectedTones, DefaultTone)))
    ensures CanGenerate(f) <==> !f.isLoading && |f.message| > 0
    ensures var g := f.(selectedTones := ToggleTone(ToggleTone(f.selectedTones, DefaultTone), tone));
      CanGenerate(g) <==> !f.isLoading && |f.message| > 0
  {
  }

  /** The context field as sent: an empty field is omitted. */
  function ContextParam(context: string): (r: Option<string>)
    ensures r.None? <==> context == ""
    ensures r.Some? ==> r.value == context
  {
    if |context| == 0 then None else Some(context)
  }

  /** The `generateReplies(message:context:platform:tones:)` request; the
      tones are a set because their order in the request is unspecified. */
  datatype LegacyCall = LegacyCall(message: string, context: Option<string>, platform: string, tones: set<string>)

  /** Pressing Generate: the spinner starts and the form is sent, the
      platform as displayed. */
  function SubmitGenerate(f: LegacyForm): (r: (LegacyForm, LegacyCall))
    ensures r.0.isLoading && r.0.errorMessage == "" && !CanGenerate(r.0)
    ensures r.1.message == f.message && r.1.platform == f.selectedPlatform && r.1.tones == f.selectedTones
    ensures r.1.context == ContextParam(f.context)
  {
    (f.(isLoading := true, errorMessage := ""),
     LegacyCall(f.message, ContextParam(f.context), f.selectedPlatform, f.selectedTones))
  }

  const FailedMessage: string := "Failed to generate replies. Please try again."
  const UnexpectedMessage: string := "An unexpected error occurred."

  /** `logout`: the stored token is cleared and the app returns to login. */
  function Logout(f: LegacyForm): (r: LegacyForm)
    ensures !r.isLoggedIn && r.savedToken.None?
  {
    f.(savedToken := None, isLoggedIn := false)
  }

  /** `generateReplies` once the request has returned. */
  function FinishGenerate(f: LegacyForm, outcome: Result<seq<GeneratedReply>, Thrown>): LegacyForm {
    match outcome
    case Ok(replies) => f.(generatedReplies := replies, isLoading := false)
    case Err(ApiFailure(Unauthorized)) => Logout(f).(isLoading := false)
    case Err(ApiFailure(ServerError(m))) => f.(errorMessage := m, showError := true, isLoading := false)
    case Err(ApiFailure(_)) => f.(errorMessage := FailedMessage, showError := true, isLoading := false)
    case Err(_) => f.(errorMessage := UnexpectedMessage, showError := true, isLoading := false)
  }

  /** `unauthorized` ends the session and raises no new alert; any other
      outcome keeps the session. Any other failure keeps the replies and
      raises an alert: the server's message for a server error, the generic
      failure text for another `APIError`, and the unexpected-error text for
      anything else. Success replaces the replies. */
  lemma FinishOutcome(f: LegacyForm, outcome: Result<seq<GeneratedReply>, Thrown>)
    ensures var r := FinishGenerate(f, outcome);
      && !r.isLoading
      && (outcome == Err(ApiFailure(Unauthorized)) ==>
            !r.isLoggedIn && r.savedToken.None? && r.showError == f.showError && r.errorMessage == f.errorMessage)
      && (outcome != Err(ApiFailure(Unauthorized)) ==> r.isLoggedIn == f.isLoggedIn && r.savedToken == f.savedToken)
      && (outcome.Err? && outcome.error != ApiFailure(Unauthorized) ==>
            r.showError && r.generatedReplies == f.generatedReplies)
      && (outcome.Err? && outcome.error.ApiFailure? && outcome.error.error.ServerError? ==>
            r.errorMessage == outcome.error.error.message)
      && ((outcome.Err? && outcome.error.ApiFailure? && !outcome.error.error.ServerError?
           && !outcome.error.error.Unauthorized?) ==> r.errorMessage == FailedMessage)
      && (outcome.Err? && !outcome.error.ApiFailure? ==> r.errorMessage == UnexpectedMessage)
      && (outcome.Ok? ==> r.generatedReplies == outcome.value && r.showError == f.showError)
  {
  }

  /** A 401 from the server, whatever its body, signs the user out once the
      older client has classified it. */
  lemma UnauthorizedResponseLogsOut<T>(f: LegacyForm, body: Option<ErrorResponse>, decoded: Result<T, string>)
    ensures var sent := LegacyApi.PerformRequest(HttpResponse(401, body, decoded));
      sent.Err? && !FinishGenerate(f, Err(ApiFailure(sent.error))).isLoggedIn
  {
  }
}

/**
 * The sign-up page (app/routes/signup.tsx): a loader that turns signed-in
 * visitors away, an action that registers the account with the provider and
 * maps its reply to JSON, and the page's reaction to that JSON.
 */
module SignUp {
  import opened Http
  import AuthServer

  /** The loader: home for a logged-in visitor, otherwise `null`. */
  function Loader(user: Option<User>): (r: Response<JsonNull>)
    ensures user.Some? <==> r == Redirect("/", [])
    ensures user.None? <==> r == Reply(200, JsonNull, [])
  {
    if AuthServer.IsUserLoggedIn(user) then Redirect("/", []) else Reply(200, JsonNull, [])
  }

  datatype SignUpFormData = SignUpFormData(email: string, password: string, fullname: string)

  /** The `signUp` request sent to the provider; the full name travels as `fullname` user metadata. */
  datatype SignUpRequest = SignUpRequest(email: string, password: string, emailRedirectTo: string, fullnameMetadata: string)

  /** The action's JSON: `{ success: "Sign Up registered" }` or `{ success: false, error }`. */
  datatype ActionData = Registered(success: string) | Failed(error: string)

  const RegisteredMessage := "Sign Up registered"
  const SignUpFallbackError := "An error occurred during signup."
  const EmailRedirectTo := "http://localhost:5173/auth/callback"

  /** What the action did: the request it sent and the response it returned. */
  datatype SignUpOutcome = SignUpOutcome(request: SignUpRequest, response: Response<ActionData>)

  /**
   * The action. `signUpError` is the provider's error (or the exception the
   * call threw) and `errorMessage` the application's opaque
   * `getErrorMessage`.
   */
  function Action(form: SignUpFormData, signUpError: Option<AuthError>, errorMessage: AuthError -> string): (r: SignUpOutcome)
    ensures r.request.email == form.email && r.request.password == form.password
    ensures r.request.fullnameMetadata == form.fullname
    ensures signUpError.None? ==> r.response == Reply(200, Registered(RegisteredMessage), [])
    ensures signUpError.Some? ==> r.response.Reply? && r.response.status == 400 && r.response.body.Failed?
    ensures signUpError.Some? && errorMessage(signUpError.value) != "" ==>
      r.response.body == Failed(errorMessage(signUpError.value))
    ensures signUpError.Some? && errorMessage(signUpError.value) == "" ==>
      r.response.body == Failed(SignUpFallbackError)
  {
    var request := SignUpRequest(form.email, form.password, EmailRedirectTo, form.fullname);
    match signUpError
    case None => SignUpOutcome(request, Reply(200, Registered(RegisteredMessage), []))
    case Some(e) =>
      var message := errorMessage(e);
      SignUpOutcome(request, Reply(400, Failed(if message != "" then message else SignUpFallbackError), []))
  }

  /** The page's effect: navigate home exactly when `actionData.success` is truthy. */
  function NavigatesHome(data: Option<ActionData>): (navigates: bool)
    ensures navigates <==> data.Some? && data.value.Registered? && data.value.success != ""
  {
    match data
    case Some(Registered(success)) => success != ""
    case _ => false
  }

  /** The error banner: shown exactly when `actionData.success === false`. */
  function ShowsErrorBanner(data: Option<ActionData>): (shown: bool)
    ensures shown <==> data.Some? && data.value.Failed?
  {
    data.Some? && data.value.Failed?
  }

  /** `useActionData()` after the action: the JSON body of its reply. */
  function ActionDataOf(outcome: SignUpOutcome): (data: Option<ActionData>)
    ensures outcome.response.Reply? ==> data == Some(outcome.response.body)
  {
    if outcome.response.Reply? then Some(outcome.response.body) else None
  }

  /**
   * After a submit, the page navigates home exactly when the provider
   * reported no error, and shows the banner exactly when it did; never both.
   */
  lemma SubmitNavigatesIffRegistered(form: SignUpFormData, signUpError: Option<AuthError>, errorMessage: AuthError -> string)
    ensures var data := ActionDataOf(Action(form, signUpError, errorMessage));
      (NavigatesHome(data) <==> signUpError.None?)
      && (ShowsErrorBanner(data) <==> signUpError.Some?)
      && !(NavigatesHome(data) && ShowsErrorBanner(data))
  {
    var data := ActionDataOf(Action(form, signUpError, errorMessage));
    if signUpError.None? {
      assert data == Some(Registered(RegisteredMessage));
    }
  }
}

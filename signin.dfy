/**
 * The sign-in page (app/routes/signin.tsx): a loader that turns signed-in
 * visitors away, and an action that dispatches on the `signin` form value
 * to password sign-in or to Google OAuth.
 */
module SignIn {
  import opened Http
  import AuthServer

  /** The loader: the dashboard for a logged-in visitor, otherwise `null`. */
  function Loader(user: Option<User>): (r: Response<JsonNull>)
    ensures user.Some? <==> r == Redirect("/dashboard", [])
    ensures user.None? <==> r == Reply(200, JsonNull, [])
  {
    if AuthServer.IsUserLoggedIn(user) then Redirect("/dashboard", []) else Reply(200, JsonNull, [])
  }

  /** The submitted form: the `signin` button value and the credentials, each possibly missing. */
  datatype SignInFormData = SignInFormData(signin: Option<string>, email: Option<string>, password: Option<string>)

  /**
   * What the action produces: nothing (`undefined`), a response, or a
   * TypeError thrown when the Google reply has no data to read a URL from.
   */
  datatype ActionOutcome =
    | Undefined
    | Respond(response: Response<AuthServer.ErrorBody>)
    | TypeError

  /**
   * `signInWithGoogle`'s body after `json(...)` and `response.json()`:
   * JSON serialisation writes a Fetch `Headers` object as `{}`, so the
   * cookie mutations do not survive the round trip.
   */
  function JsonRoundTrip(body: AuthServer.GoogleSignIn): (parsed: AuthServer.GoogleSignIn)
    ensures parsed == body.(headers := [])
  {
    AuthServer.GoogleSignIn(body.ok, body.data, body.error, [])
  }

  /** The Google branch as written: redirect to `data.url` with the headers read back from the JSON body. */
  function GoogleRedirectAsWritten(body: AuthServer.GoogleSignIn): (r: ActionOutcome)
    ensures body.data.None? <==> r.TypeError?
    ensures body.data.Some? ==> r == Respond(Redirect(body.data.value.url, []))
  {
    var parsed := JsonRoundTrip(body);
    match parsed.data
    case None => TypeError
    case Some(d) => Respond(Redirect(d.url, parsed.headers))
  }

  /** As written, a Google sign-in redirect loses every cookie mutation of the OAuth call. */
  lemma GoogleRedirectDropsCookies(url: string, clientHeaders: Headers)
    requires clientHeaders != []
    ensures var r := GoogleRedirectAsWritten(AuthServer.SignInWithGoogle(Some(AuthServer.OAuthData(url)), None, clientHeaders));
      r.Respond? && r.response.Redirect? && r.response.headers != clientHeaders
  {
  }

  /** The Google branch as intended: redirect to the provider URL carrying the client's cookie mutations. */
  function GoogleRedirect(body: AuthServer.GoogleSignIn): (r: ActionOutcome)
    ensures body.data.None? <==> r.TypeError?
    ensures body.data.Some? ==> r == Respond(Redirect(body.data.value.url, body.headers))
  {
    match body.data
    case None => TypeError
    case Some(d) => Respond(Redirect(d.url, body.headers))
  }

  /** Where `signInWithGoogle` asks the provider to send the browser back to. */
  const OAuthCallback := "http://localhost:5173/auth/callback"

  /** What the action did: the provider calls it made and the outcome. */
  datatype SignInAction = SignInAction(calls: seq<ProviderCall>, outcome: ActionOutcome)

  /**
   * The action as written. `passwordError` is the provider's reply to a
   * password sign-in, `googleData`/`googleError` its reply to the OAuth
   * request, and `clientHeaders` the server client's cookie mutations.
   */
  function Action(form: SignInFormData, passwordError: Option<AuthError>,
                  googleData: Option<AuthServer.OAuthData>, googleError: Option<AuthError>,
                  clientHeaders: Headers): (r: SignInAction)
    ensures form.signin == Some("credentials") ==> r.calls == [PasswordSignIn(form.email, form.password)]
    ensures form.signin == Some("google") ==> r.calls == [OAuthSignIn("google", OAuthCallback)]
    ensures r.calls == [] <==> form.signin != Some("credentials") && form.signin != Some("google")
    ensures r.outcome.Undefined? <==> form.signin != Some("credentials") && form.signin != Some("google")
    ensures form.signin == Some("credentials") && passwordError.None? ==>
      r.outcome == Respond(Redirect("/", clientHeaders))
    ensures form.signin == Some("credentials") && passwordError.Some? ==>
      r.outcome == Respond(Reply(200, AuthServer.ErrorBody(passwordError.value.message), []))
    ensures form.signin == Some("google") && googleData.Some? ==>
      r.outcome == Respond(Redirect(googleData.value.url, []))
    ensures form.signin == Some("google") && googleData.None? ==> r.outcome == TypeError
  {
    if form.signin == Some("credentials") then
      SignInAction([PasswordSignIn(form.email, form.password)],
                   Respond(AuthServer.SignInWithPassword(passwordError, clientHeaders, "/")))
    else if form.signin == Some("google") then
      SignInAction([OAuthSignIn("google", OAuthCallback)],
                   GoogleRedirectAsWritten(AuthServer.SignInWithGoogle(googleData, googleError, clientHeaders)))
    else SignInAction([], Undefined)
  }

  /** The action as intended: the Google redirect carries the client's cookie mutations. */
  function IntendedAction(form: SignInFormData, passwordError: Option<AuthError>,
                          googleData: Option<AuthServer.OAuthData>, googleError: Option<AuthError>,
                          clientHeaders: Headers): (r: SignInAction)
    ensures form.signin == Some("google") && googleData.Some? ==>
      r.outcome == Respond(Redirect(googleData.value.url, clientHeaders))
    ensures r.calls == Action(form, passwordError, googleData, googleError, clientHeaders).calls
    ensures form.signin != Some("google") ==> r == Action(form, passwordError, googleData, googleError, clientHeaders)
    ensures googleData.None? ==> r == Action(form, passwordError, googleData, googleError, clientHeaders)
  {
    var written := Action(form, passwordError, googleData, googleError, clientHeaders);
    if form.signin == Some("google") then
      written.(outcome := GoogleRedirect(AuthServer.SignInWithGoogle(googleData, googleError, clientHeaders)))
    else written
  }

  /** `useActionData()`: a redirect is followed, so only a JSON reply reaches the page, as its body. */
  function ActionData(outcome: ActionOutcome): (data: Option<AuthServer.ErrorBody>)
    ensures data.Some? <==> outcome.Respond? && outcome.response.Reply?
    ensures data.Some? ==> data.value == outcome.response.body
  {
    if outcome.Respond? && outcome.response.Reply? then Some(outcome.response.body) else None
  }

  /** The error heading: rendered only when action data exists, with its error text. */
  function ErrorHeading(data: Option<AuthServer.ErrorBody>): (heading: Option<string>)
    ensures heading.Some? <==> data.Some?
    ensures heading.Some? ==> heading.value == data.value.error
  {
    match data
    case None => None
    case Some(body) => Some(body.error)
  }

  /** A failed password sign-in shows the provider's message; a successful one shows no heading. */
  lemma PasswordSignInHeading(email: Option<string>, password: Option<string>, passwordError: Option<AuthError>,
                              googleData: Option<AuthServer.OAuthData>, googleError: Option<AuthError>,
                              clientHeaders: Headers)
    ensures var heading := ErrorHeading(ActionData(Action(SignInFormData(Some("credentials"), email, password),
                                                          passwordError, googleData, googleError, clientHeaders).outcome));
      (passwordError.None? ==> heading.None?)
      && (passwordError.Some? ==> heading == Some(passwordError.value.message))
  {
  }
}

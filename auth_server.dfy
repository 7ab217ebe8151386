/**
 * Server-side helpers around the authentication provider
 * (app/utils/auth.supabase.server.ts). Each helper turns the provider's reply
 * into a response or a value; the reply is an input of the model and
 * `clientHeaders` are the cookie mutations collected by the request's server
 * client.
 */
module AuthServer {
  import opened Http

  /** The provider's OAuth reply data: the URL to send the browser to. */
  datatype OAuthData = OAuthData(url: string)

  /** The JSON body `signInWithGoogle` builds. */
  datatype GoogleSignIn = GoogleSignIn(ok: bool, data: Option<OAuthData>, error: string, headers: Headers)

  /** The JSON body `{ error }` of a failed sign-in or sign-out. */
  datatype ErrorBody = ErrorBody(error: string)

  const SignInErrorFallback := "Sign In error occurred"
  const DefaultSignOutPath := "/"

  /**
   * `signInWithGoogle`: `ok` is true exactly when there is no error and data
   * is present; `error` is the provider's message when there is one and the
   * fixed fallback otherwise, on success too.
   */
  function SignInWithGoogle(data: Option<OAuthData>, error: Option<AuthError>, clientHeaders: Headers): (r: GoogleSignIn)
    ensures r.ok <==> error.None? && data.Some?
    ensures error.Some? ==> r.error == error.value.message
    ensures error.None? ==> r.error == SignInErrorFallback
    ensures r.data == data && r.headers == clientHeaders
  {
    GoogleSignIn(
      ok := error.None? && data.Some?,
      data := data,
      error := if error.Some? then error.value.message else SignInErrorFallback,
      headers := clientHeaders)
  }

  /**
   * `signInWithPassword`: with no provider error, a redirect to
   * `successPath` carrying the client's cookie mutations (thrown in the
   * source, which a route treats like a returned response); with an error,
   * `{ error: message }` with no cookie headers.
   */
  function SignInWithPassword(error: Option<AuthError>, clientHeaders: Headers, successPath: string): (r: Response<ErrorBody>)
    ensures error.None? <==> r.Redirect?
    ensures r.Redirect? ==> r.location == successPath && r.headers == clientHeaders
    ensures r.Reply? ==> r.status == 200 && r.body == ErrorBody(error.value.message) && r.headers == []
  {
    match error
    case None => Redirect(successPath, clientHeaders)
    case Some(e) => Reply(200, ErrorBody(e.message), [])
  }

  /**
   * `signOut`: with no provider error, a redirect to `successPath` (default
   * "/") carrying the client's cookie mutations; otherwise `{ error: message }`.
   */
  function SignOut(error: Option<AuthError>, clientHeaders: Headers, successPath: Option<string>): (r: Response<ErrorBody>)
    ensures error.None? <==> r.Redirect?
    ensures r.Redirect? ==> r.headers == clientHeaders
    ensures r.Redirect? && successPath.None? ==> r.location == "/"
    ensures r.Redirect? && successPath.Some? ==> r.location == successPath.value
    ensures r.Reply? ==> r.status == 200 && r.body == ErrorBody(error.value.message)
    ensures r.Reply? ==> r.headers == []
  {
    match error
    case None => Redirect(successPath.GetOr(DefaultSignOutPath), clientHeaders)
    case Some(e) => Reply(200, ErrorBody(e.message), [])
  }

  /** `getSession`: the session the provider read from the request's cookies, or null. */
  function GetSession(session: Option<Session>): (r: Option<Session>)
    ensures r.Some? <==> session.Some?
    ensures r.Some? ==> r.value == session.value
  {
    session
  }

  /** `getUser`: the user of the session read from the cookies, or null when there is no session. */
  function GetUser(session: Option<Session>): (r: Option<User>)
    ensures r.Some? <==> GetSession(session).Some?
    ensures r.Some? ==> r.value == GetSession(session).value.user
  {
    match session
    case None => None
    case Some(s) => Some(s.user)
  }

  /** `isUserLoggedIn`: true exactly when the provider's `getUser` returns a user. */
  function IsUserLoggedIn(user: Option<User>): (r: bool)
    ensures r <==> user.Some?
  {
    user.Some?
  }
}

/**
 * Values shared by every route of the application: optional values, results,
 * the provider's user and session records, server responses and the effects a
 * client-side handler performs.
 *
 * Every call into the authentication provider is an INPUT of the model: the
 * reply the provider would give is passed in, and a handler's result records
 * which provider calls it made, so that "the provider is called only when ..."
 * can be stated about the result.
 */
module Http {

  datatype Option<+T> = None | Some(value: T) {
    function GetOr(default: T): T {
      match this
      case Some(v) => v
      case None => default
    }
  }

  datatype Result<+T, +E> = Ok(value: T) | Err(error: E)

  /** JavaScript truthiness of a string that may be null/undefined: present and non-empty. */
  predicate Truthy(s: Option<string>) {
    s.Some? && s.value != ""
  }

  /** Header lines a response carries, in the order they were appended. */
  type Headers = seq<string>

  /** An error object returned by the provider; only its message is used. */
  datatype AuthError = AuthError(message: string)

  /** The provider's user record; `email` may be missing. */
  datatype User = User(id: string, email: Option<string>)

  /** The provider's session: its user and its access token. */
  datatype Session = Session(user: User, accessToken: string)

  /** A `{ data, error }` reply of the provider whose data is only tested for presence. */
  datatype ProviderReply = ProviderReply(error: Option<AuthError>, hasData: bool)

  /**
   * A server response: a redirect (status 302 with a Location header) or a
   * response with a status and a body of the route's own type.
   */
  datatype Response<B> =
    | Redirect(location: string, headers: Headers)
    | Reply(status: nat, body: B, headers: Headers)

  /** A provider call a server handler makes, with its arguments. */
  datatype ProviderCall =
    | ExchangeCodeForSession(code: string)
    | VerifyOtp(tokenHash: string, otpType: string)
    | PasswordSignIn(email: Option<string>, password: Option<string>)
    | OAuthSignIn(provider: string, redirectTo: string)

  /** The JSON body of a loader that returns `null`. */
  datatype JsonNull = JsonNull

  /** What a client-side handler does, in the order it does it. */
  datatype Effect =
    | ResetPasswordForEmail(email: string)
    | UpdateUser(password: string)
    | SignOut
    | Navigate(path: string)

  /** Field-level validation errors, keyed by the form's field, as a schema's flattened error map. */
  type FieldErrors<F> = map<F, seq<string>>

  /** The entry a field contributes to a flattened error map: present only when it has issues. */
  function Issues<F>(field: F, messages: seq<string>): (m: FieldErrors<F>)
    ensures field in m <==> messages != []
    ensures m.Keys <= {field}
    ensures field in m ==> m[field] == messages
  {
    if messages == [] then map[] else map[field := messages]
  }
}

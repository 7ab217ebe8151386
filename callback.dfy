/**
 * The OAuth / PKCE code-exchange endpoint (app/routes/auth.callback.tsx).
 *
 * With a `code` in the query string the loader exchanges it for a session;
 * an exchange error sends the visitor to the sign-in page, a successful
 * exchange to the dashboard with the server client's cookie mutations.
 * Without a code the answer is a plain 400.
 */
module Callback {
  import opened Http

  const AuthenticationFailed := "Authentication failed"

  /** What a code-exchange loader produced: its response and the provider calls it made. */
  datatype Exchange = Exchange(response: Response<string>, calls: seq<ProviderCall>)

  /**
   * The loader. `exchangeError` is the provider's reply if
   * `exchangeCodeForSession` is called; `clientHeaders` are the cookie
   * mutations of the request's server client.
   */
  function Loader(code: Option<string>, exchangeError: Option<AuthError>, clientHeaders: Headers): (r: Exchange)
    ensures r.calls != [] <==> Truthy(code)
    ensures Truthy(code) ==> r.calls == [ExchangeCodeForSession(code.value)]
    ensures !Truthy(code) ==> r.response == Reply(400, AuthenticationFailed, [])
    ensures Truthy(code) && exchangeError.Some? ==> r.response == Redirect("/signin", [])
    ensures Truthy(code) && exchangeError.None? ==> r.response == Redirect("/dashboard", clientHeaders)
  {
    if Truthy(code) then
      var calls := [ExchangeCodeForSession(code.value)];
      if exchangeError.Some? then Exchange(Redirect("/signin", []), calls)
      else Exchange(Redirect("/dashboard", clientHeaders), calls)
    else Exchange(Reply(400, AuthenticationFailed, []), [])
  }
}

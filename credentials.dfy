/**
 * The second code-exchange endpoint (app/routes/auth.credentials.tsx), a
 * variant of the callback route that also logs the error and raises a toast.
 * The log and the toast are side effects outside the model.
 */
module Credentials {
  import opened Http
  import Callback

  /** The loader, following this route's own branch structure. */
  function Loader(code: Option<string>, exchangeError: Option<AuthError>, clientHeaders: Headers): (r: Callback.Exchange)
    ensures r.calls != [] <==> Truthy(code)
    ensures !Truthy(code) ==> r.response == Reply(400, Callback.AuthenticationFailed, [])
    ensures Truthy(code) && exchangeError.Some? ==> r.response == Redirect("/signin", [])
    ensures Truthy(code) && exchangeError.None? ==> r.response == Redirect("/dashboard", clientHeaders)
  {
    if !Truthy(code) then Callback.Exchange(Reply(400, Callback.AuthenticationFailed, []), [])
    else
      match exchangeError
      case Some(_) => Callback.Exchange(Redirect("/signin", []), [ExchangeCodeForSession(code.value)])
      case None => Callback.Exchange(Redirect("/dashboard", clientHeaders), [ExchangeCodeForSession(code.value)])
  }

  /** The two code-exchange routes answer every request identically. */
  lemma SameAsCallback(code: Option<string>, exchangeError: Option<AuthError>, clientHeaders: Headers)
    ensures Loader(code, exchangeError, clientHeaders) == Callback.Loader(code, exchangeError, clientHeaders)
  {
  }
}

/**
 * The e-mail OTP confirmation endpoint (app/routes/auth.confirm.tsx).
 *
 * The loader reads `token_hash`, `type` and `next` from the query string,
 * creates one `Headers` object, and verifies the OTP with the provider only
 * when both `token_hash` and `type` are present. While it verifies, the
 * provider hands the cookies it wants set to the client's `setAll`, which
 * appends one Set-Cookie line per cookie to that `Headers` object. Every
 * response of the loader carries that same object.
 */
module Confirm {
  import opened Http

  /** A cookie the provider asks to set. */
  datatype Cookie = Cookie(name: string, value: string, options: seq<(string, string)>)

  const ErrorLanding := "/auth/auth-code-error"

  /** The Set-Cookie lines of a list of cookies, one per cookie and in order. */
  function SetCookieLines(cookies: seq<Cookie>, serialize: Cookie -> string): (lines: Headers)
    ensures |lines| == |cookies|
    ensures forall i :: 0 <= i < |cookies| ==> lines[i] == serialize(cookies[i])
  {
    if cookies == [] then []
    else [serialize(cookies[0])] + SetCookieLines(cookies[1..], serialize)
  }

  /** A Fetch `Headers` object that receives only Set-Cookie lines: its lines in append order. */
  class SetCookieHeaders {
    var lines: Headers

    constructor ()
      ensures lines == []
    {
      lines := [];
    }

    /** `headers.append("Set-Cookie", line)`. */
    method Append(line: string)
      modifies this
      ensures lines == old(lines) + [line]
    {
      lines := lines + [line];
    }
  }

  /** The cookie adapter's `setAll`: append one Set-Cookie line per cookie, in input order. */
  method SetAll(headers: SetCookieHeaders, cookies: seq<Cookie>, serialize: Cookie -> string)
    modifies headers
    ensures headers.lines == old(headers.lines) + SetCookieLines(cookies, serialize)
  {
    for i := 0 to |cookies|
      invariant headers.lines == old(headers.lines) + SetCookieLines(cookies[..i], serialize)
    {
      headers.Append(serialize(cookies[i]));
      assert SetCookieLines(cookies[..i + 1], serialize) == SetCookieLines(cookies[..i], serialize) + [serialize(cookies[i])];
    }
    assert cookies[..|cookies|] == cookies;
  }

  /** `searchParams.get("next") || "/"`: the target after a verified OTP. */
  function NextPath(next: Option<string>): (path: string)
    ensures Truthy(next) ==> path == next.value
    ensures !Truthy(next) ==> path == "/"
  {
    if Truthy(next) then next.value else "/"
  }

  /** Whether the loader verifies the OTP: both `token_hash` and `type` present and non-empty. */
  predicate WillVerify(tokenHash: Option<string>, otpType: Option<string>) {
    Truthy(tokenHash) && Truthy(otpType)
  }

  /**
   * The loader's response, given the provider's `verifyOtp` error and the
   * Set-Cookie lines `setAll` appended while it verified.
   */
  function ConfirmResponse(tokenHash: Option<string>, otpType: Option<string>, next: Option<string>,
                           verifyError: Option<AuthError>, cookieLines: Headers): (r: Response<JsonNull>)
    ensures r.Redirect?
    ensures !WillVerify(tokenHash, otpType) ==> r == Redirect(ErrorLanding, [])
    ensures WillVerify(tokenHash, otpType) && verifyError.None? ==> r == Redirect(NextPath(next), cookieLines)
    ensures WillVerify(tokenHash, otpType) && verifyError.Some? ==> r == Redirect(ErrorLanding, cookieLines)
  {
    if WillVerify(tokenHash, otpType) && verifyError.None? then Redirect(NextPath(next), cookieLines)
    else Redirect(ErrorLanding, if WillVerify(tokenHash, otpType) then cookieLines else [])
  }

  /**
   * The loader. `verifyError` and `cookiesToSet` are what the provider does
   * if `verifyOtp` is called: the error it reports and the cookies it hands
   * to `setAll`. `calls` lists the provider calls made.
   */
  method Loader(tokenHash: Option<string>, otpType: Option<string>, next: Option<string>,
                verifyError: Option<AuthError>, cookiesToSet: seq<Cookie>, serialize: Cookie -> string)
    returns (r: Response<JsonNull>, calls: seq<ProviderCall>)
    ensures calls == if WillVerify(tokenHash, otpType) then [VerifyOtp(tokenHash.value, otpType.value)] else []
    ensures r == ConfirmResponse(tokenHash, otpType, next, verifyError, SetCookieLines(cookiesToSet, serialize))
  {
    var nextPath := if Truthy(next) then next.value else "/";
    var headers := new SetCookieHeaders();
    calls := [];
    if Truthy(tokenHash) && Truthy(otpType) {
      calls := [VerifyOtp(tokenHash.value, otpType.value)];
      SetAll(headers, cookiesToSet, serialize);
      if verifyError.None? {
        return Redirect(nextPath, headers.lines), calls;
      }
    }
    r := Redirect(ErrorLanding, headers.lines);
  }
}

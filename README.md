# Session gating and form rules of a Remix + Supabase account site

This project is a Dafny model of the decision logic of a small Remix web
application. The application uses Supabase for sign-up, sign-in, OAuth,
e-mail OTP and password reset. Every call into the provider is an input of
the model: the reply the provider would give (`Option<User>`,
`Option<AuthError>`, a `{ data, error }` pair) is passed in. The server
loaders and actions are functions from query parameters, form values and
those replies to a `Response` (a redirect with its cookie headers, or a
status with a body). The browser-side pages are classes whose methods update
the same state the React components hold: form data, field errors, the
`isPasswordUpdated` flag, the broadcast channel and the root's auth-change
subscription.

Modules, one per source file:

- `Http` holds the shared values: `Option`, `Result`, `User`, `Session`, `Response`, client `Effect`s, provider calls and flattened field-error maps.
- `Schemas` covers `app/types.ts`: the sign-up and sign-in schemas, JavaScript `trim`, and the character-class tests.
- `AuthServer` covers `app/utils/auth.supabase.server.ts`.
- `ResetPassword`, `UpdatePassword`, `Confirm`, `Callback`, `Credentials`, `SignIn`, `SignUp` and `Dashboard` cover the routes under `app/routes/`.
- `Root` covers `app/root.tsx`.
- `Breadcrumbs` covers `app/components/Breadcrumbs/Breadcrumbs.tsx`.
- `RouteGuards` puts the guarded loaders side by side as one access-rule table.

Points where the model follows the code rather than the design description:

- Protected routes (dashboard, password update) send a visitor with no session to "/", not to "/signin".
- The OAuth callback goes to "/dashboard" on success, not to a `next` parameter. Only the OTP confirmation route reads `next`.
- The password-update effect closes over `isPasswordUpdated`. When a successful update sets the flag, React re-runs the effect. The cleanup of the previous run still holds `false`, so it posts "signOut" to the other tabs (`UpdatePasswordPage.FlagChanged`).
- The sign-in action keeps the Google redirect as written, so it carries no cookie mutations (see "## Findings"). `SignIn.IntendedAction` is the corrected action.
- The root loader forwards the cookie mutations of its own server client. `getSession` builds a second client, and that client's cookie mutations are dropped.

The schema semantics assumed are those of zod 3:

- A string's checks all run, and every failing check adds its message in declaration order.
- An object-level `refine` still runs when a field check failed.
- `flatten().fieldErrors` has a key only for fields with issues.
- A `trim()` in a chain applies only to the checks after it. So the sign-in email's `min(1)` tests the raw string.

## Model

| member | source | states |
|---|---|---|
| `Schemas.AnyChar` | app/types.ts:14-20 | an unanchored one-class regex test holds iff some character of the string is in the class |
| `Schemas.TrimStart` | app/types.ts:21 | the result is a suffix of the input; every character cut off is white space; the result does not start with white space |
| `Schemas.TrimEnd` | app/types.ts:21 | the result is a prefix of the input; every character cut off is white space; the result does not end with white space |
| `Schemas.TrimIsInnerSlice` | app/types.ts:21 | `trim` (the end trim of the start trim) returns a contiguous slice of the input; everything cut off at either end is white space, and the result neither starts nor ends with white space |
| `Schemas.TrimBlank` | app/types.ts:25 | a string of white space only trims to "" |
| `Schemas.TrimOneSpace` | app/types.ts:21 | one leading space before a string with no white space at its ends is trimmed away, and nothing else |
| `Schemas.TrimIdempotent` | app/types.ts:21 | trimming an already trimmed string changes nothing |
| `Schemas.SignUpPasswordIssues` | app/types.ts:11-20 | the password passes iff it has length ≥ 6, some A–Z, some 0–9 and some character outside A–Z, a–z, 0–9; each rule's message is present iff that rule fails; the list holds only the four password messages, at most four of them, each once and in the order the rules are declared (length, uppercase, digit, special) |
| `Schemas.FailingPasswordMessagesRanked` | app/types.ts:11-20 | whichever of the four password rules fail, their messages are listed each once, by rule order, at most four |
| `Schemas.FailingPasswordMessagesMembers` | app/types.ts:11-20 | a password rule's message is listed iff that rule fails, and the list is empty iff no rule fails |
| `Schemas.SignUpErrors` | app/types.ts:9-22 | `fullname` is reported iff it is empty, with "Full name is required"; `password` is reported iff one of its rules fails, with all its failing messages; `email` is reported iff the trimmed email is invalid, with "Invalid email address" |
| `Schemas.ParseSignUp` | app/types.ts:9-22 | sign-up succeeds iff the full name is non-empty, the password passes all four rules, and the TRIMMED email is valid; on success the email is returned trimmed; on failure each field is reported iff it fails, and the error map is exactly `SignUpErrors` of the form |
| `Schemas.SixCharacterPasswordPasses` | app/types.ts:11-20 | the six-character password "Abcd1!" passes every password rule, although the length message says "more than 6" |
| `Schemas.SignUpAcceptsSixCharacterPassword` | app/types.ts:9-22 | a sign-up with a non-empty name, the password "Abcd1!" and a valid email typed with one leading space parses to the same form with the email trimmed |
| `Schemas.SignInEmailIssues` | app/types.ts:25 | the sign-in email passes iff it is non-empty before trimming and valid after trimming; an empty email reports exactly "Required", followed by "Invalid email address" iff the empty string is not a valid email; a non-empty email that is invalid once trimmed reports exactly "Invalid email address" |
| `Schemas.ParseSignIn` | app/types.ts:24-27 | sign-in succeeds iff the email is non-empty and valid once trimmed and the password is non-empty; the password is reported iff it is empty, and then with exactly the message "Required" |
| `Schemas.SignInRejectsBlankEmail` | app/types.ts:24-27 | when the email check rejects "", an email of spaces only fails sign-in, and the email field reports only the email message (not "Required") |
| `AuthServer.SignInWithGoogle` | app/utils/auth.supabase.server.ts:4-25 | `ok` iff there is no error and data is present; `error` is the provider's message if there is one and "Sign In error occurred" otherwise, even on success; the data and headers are passed through |
| `AuthServer.SignInWithPassword` | app/utils/auth.supabase.server.ts:26-41 | no provider error gives a redirect to the success path carrying the client's headers; an error gives `{ error: message }` with no headers |
| `AuthServer.SignOut` | app/utils/auth.supabase.server.ts:43-53 | no provider error gives a redirect to the given path, or "/" when none is given, with the client's headers; an error gives `{ error: message }` |
| `AuthServer.GetSession` | app/utils/auth.supabase.server.ts:62-68 | returns the session the provider read, or null |
| `AuthServer.GetUser` | app/utils/auth.supabase.server.ts:55-61 | returns the session's user when there is a session, or null |
| `AuthServer.IsUserLoggedIn` | app/utils/auth.supabase.server.ts:69-75 | true iff the provider's `getUser` returns a user |
| `ResetPassword.Loader` | app/routes/resetpassword.tsx:28-43 | flag without login redirects to "/"; login without flag redirects to "/"; in the two other cases the JSON has `outcome` = flag and `email` = the session user's email, if any |
| `ResetPassword.ValidateForm` | app/routes/resetpassword.tsx:24-68 | the error map is empty iff the email is valid; otherwise it is `{ email: ["Invalid email"] }` |
| `ResetPassword.InitialEmail` | app/routes/resetpassword.tsx:50-52 | the form starts with the logged-in email, or "" when there is none |
| `ResetPassword.EmailInputDisabled` | app/routes/resetpassword.tsx:122 | the email input is disabled iff a non-empty logged-in email exists |
| `ResetPassword.ModeLabel` | app/routes/resetpassword.tsx:103-110 | the heading and legend read "Change" iff `outcome` is true, "Reset" otherwise |
| `ResetPassword.SubmitEffects` | app/routes/resetpassword.tsx:80-98 | no errors and a reply with no error and with data give exactly `resetPasswordForEmail`, then navigation to "/"; no errors and any other reply give exactly `resetPasswordForEmail`; any error gives no effects |
| `ResetPassword.ResetPasswordPage.constructor` | app/routes/resetpassword.tsx:45-53 | the page starts from its loader data, with the initial email and no errors |
| `ResetPassword.ResetPasswordPage.HandleChange` | app/routes/resetpassword.tsx:70-76 | the typed value replaces the email, and the errors become the validation of the new form |
| `ResetPassword.ResetPasswordPage.HandleReset` | app/routes/resetpassword.tsx:77-99 | the form is unchanged, the errors are re-validated, and the effects are exactly `SubmitEffects` of the new errors |
| `UpdatePassword.Loader` | app/routes/auth.update-password.tsx:32-39 | redirects to "/" iff not logged in, otherwise returns null |
| `UpdatePassword.ValidateForm` | app/routes/auth.update-password.tsx:17-65 | no errors iff `password` has length ≥ 6 and equals `confirmPassword`; `password` is reported iff shorter than 6; a mismatch is reported on `confirmPassword` |
| `UpdatePassword.MismatchOnlyOnConfirm` | app/routes/auth.update-password.tsx:24-28 | "Passwords do not match!" never appears under `password` |
| `UpdatePassword.SubmitEffects` | app/routes/auth.update-password.tsx:78-95 | `updateUser` is called, first and with the `confirmPassword` value, iff there are no errors; sign-out happens iff the call replies with no error and with data, and then the effects are exactly update, sign-out, navigate to "/signin" |
| `UpdatePassword.MessageEffects` | app/routes/auth.update-password.tsx:100-113 | a "signOut" message gives exactly sign-out then navigation to "/" when the captured flag is false, and exactly navigation to "/" when it is true; any other message does nothing |
| `UpdatePassword.TeardownPosts` | app/routes/auth.update-password.tsx:115-120 | a teardown posts "signOut" iff the captured flag is false |
| `UpdatePassword.UpdatePasswordPage.constructor` | app/routes/auth.update-password.tsx:41-50 | empty fields, no errors, flag false, and the first effect run open with the flag captured as false |
| `UpdatePassword.UpdatePasswordPage.HandleChange` | app/routes/auth.update-password.tsx:67-74 | only the named field is replaced, the other keeps its value, and the errors become the validation of the new form |
| `UpdatePassword.UpdatePasswordPage.HandleReset` | app/routes/auth.update-password.tsx:75-96 | fields unchanged, errors re-validated, effects exactly `SubmitEffects`, and the flag becomes true iff the update succeeded with data |
| `UpdatePassword.UpdatePasswordPage.Teardown` | app/routes/auth.update-password.tsx:115-120 | the channel is always closed, and "signOut" is appended to the posted messages iff the captured flag is false |
| `UpdatePassword.UpdatePasswordPage.RunEffect` | app/routes/auth.update-password.tsx:98-99 | a run opens the channel and captures the current flag |
| `UpdatePassword.UpdatePasswordPage.FlagChanged` | app/routes/auth.update-password.tsx:98-121 | when the flag changes, the old run is torn down, posting "signOut" iff the value it captured was false, and a new run captures the new flag; the flag, fields and errors are unchanged; when the flag became true exactly one "signOut" is posted |
| `UpdatePassword.SuccessfulUpdate` | app/routes/auth.update-password.tsx:67-121 | in a fresh page, typing the same valid password twice and a successful update give the effects update, sign-out, navigate to "/signin"; the effect re-run then posts exactly one "signOut" |
| `UpdatePassword.UpdatePasswordPage.OnMessage` | app/routes/auth.update-password.tsx:108-113 | the live run reacts to a message as `MessageEffects` with its captured flag |
| `Confirm.SetCookieLines` | app/routes/auth.confirm.tsx:24-31 | one Set-Cookie line per cookie, the i-th line being the i-th cookie serialised |
| `Confirm.SetCookieHeaders.constructor` | app/routes/auth.confirm.tsx:13 | a new `Headers` object is empty |
| `Confirm.SetCookieHeaders.Append` | app/routes/auth.confirm.tsx:26-29 | appending adds exactly one line at the end |
| `Confirm.SetAll` | app/routes/auth.confirm.tsx:24-31 | the headers become the old lines followed by one Set-Cookie line per cookie, in input order |
| `Confirm.NextPath` | app/routes/auth.confirm.tsx:12 | `next` is used when present and non-empty, "/" otherwise |
| `Confirm.ConfirmResponse` | app/routes/auth.confirm.tsx:15-46 | always a redirect: to the error landing with no cookies when `token_hash` or `type` is missing; to `next` when verification succeeds; to the error landing when it fails; in both verified cases it carries the Set-Cookie lines |
| `Confirm.Loader` | app/routes/auth.confirm.tsx:8-47 | `verifyOtp` is called iff both parameters are present, and the response is `ConfirmResponse` with the cookies the provider set during verification |
| `Callback.Loader` | app/routes/auth.callback.tsx:4-20 | the exchange is attempted iff `code` is present; no code gives 400 "Authentication failed"; an exchange error redirects to "/signin" without headers; success redirects to "/dashboard" with the client's headers |
| `Credentials.Loader` | app/routes/auth.credentials.tsx:6-25 | the same four outcomes as the callback route, following this route's own branches |
| `Credentials.SameAsCallback` | app/routes/auth.credentials.tsx:6-25 | the two code-exchange routes give the same response and the same provider calls for every input |
| `SignIn.Loader` | app/routes/signin.tsx:13-18 | redirects to "/dashboard" iff logged in, otherwise returns null |
| `SignIn.JsonRoundTrip` | app/utils/auth.supabase.server.ts:19-24 | serialising the body and reading it back keeps every field but empties the headers |
| `SignIn.GoogleRedirectAsWritten` | app/routes/signin.tsx:32-36 | as written, the Google branch redirects to the provider URL with the headers read back from JSON, which are empty; with no data it throws |
| `SignIn.GoogleRedirectDropsCookies` | app/routes/signin.tsx:32-36 | for any non-empty cookie mutations, the as-written Google redirect does not carry them |
| `SignIn.GoogleRedirect` | app/routes/signin.tsx:32-36 | corrected: the Google redirect goes to the provider URL and carries the client's headers |
| `SignIn.Action` | app/routes/signin.tsx:19-37 | as written: "credentials" calls the password sign-in with the form's email and password, then redirects to "/" with the client's headers or returns `{ error }`; "google" calls the OAuth sign-in for "google" with the callback URL, then redirects to the provider URL with no headers (or throws without data); any other value makes no provider call and returns nothing |
| `SignIn.IntendedAction` | app/routes/signin.tsx:32-36 | corrected: the same calls and outcomes, except that the Google redirect carries the client's headers |
| `SignIn.ActionData` | app/routes/signin.tsx:39 | the page receives data iff the action returned a JSON reply, not a redirect, and the data is that reply's body |
| `SignIn.ErrorHeading` | app/routes/signin.tsx:43 | the heading is rendered iff action data exists, and it shows its error |
| `SignIn.PasswordSignInHeading` | app/routes/signin.tsx:23-43 | a failed password sign-in shows the provider's message; a successful one shows nothing |
| `SignUp.Loader` | app/routes/signup.tsx:22-28 | redirects to "/" iff logged in, otherwise returns null |
| `SignUp.Action` | app/routes/signup.tsx:30-62 | the provider gets the submitted email and password, with the full name as `fullname` metadata; no error gives `{ success: "Sign Up registered" }`; an error gives status 400 with `success: false` and the error message, or "An error occurred during signup." when the message is empty |
| `SignUp.NavigatesHome` | app/routes/signup.tsx:68-73 | the page navigates to "/" iff `actionData.success` is truthy |
| `SignUp.ShowsErrorBanner` | app/routes/signup.tsx:80-84 | the banner is shown iff `success === false` |
| `SignUp.ActionDataOf` | app/routes/signup.tsx:65 | the page receives the action's JSON body |
| `SignUp.SubmitNavigatesIffRegistered` | app/routes/signup.tsx:49-84 | after a submit the page goes home iff the provider reported no error, and shows the banner iff it did; never both |
| `Root.Loader` | app/root.tsx:18-27 | a 200 JSON reply with the environment and the session, carrying the loader's own server-client headers |
| `Root.AccessToken` | app/root.tsx:64 | the server access token is present iff a session is, and is then that session's token |
| `Root.ShouldRevalidate` | app/root.tsx:69-73 | revalidate iff the notified access token differs from the server-rendered one; absent vs absent does not revalidate; absent vs present does |
| `Root.App.constructor` | app/root.tsx:57-77 | the first render creates the browser client from the environment and subscribes one listener that captures the server token |
| `Root.App.Render` | app/root.tsx:78 | the outlet context is exactly the one browser client and the current session |
| `Root.App.Unsubscribe` | app/root.tsx:74-76 | the cleanup leaves no live subscription |
| `Root.App.Subscribe` | app/root.tsx:66-73 | an effect run leaves exactly one live subscription, which captures the current server token |
| `Root.App.ReceiveLoaderData` | app/root.tsx:58-77 | new loader data keeps the same client; when the server token changed, the effect re-runs, and exactly one subscription with the new token stays live |
| `Root.App.Notify` | app/root.tsx:69-73 | a notification calls `revalidate` iff a listener is live and `ShouldRevalidate` holds for its captured token |
| `Root.App.NotifyAfterSync` | app/root.tsx:64-73 | once the server data carries the client's token, a notification of that token does not revalidate |
| `Dashboard.RouteHandle` | app/routes/dashboard.tsx:18-22 | the breadcrumb links to "/dashboard" with the label "Dashboard" |
| `Dashboard.Loader` | app/routes/dashboard.tsx:23-35 | redirects to "/" iff there is no user, otherwise a 200 response with body "..."; the headers are always empty, whatever cookie mutations the provider client made |
| `Dashboard.DashboardTrail` | app/routes/dashboard.tsx:18-22 | a trail whose only breadcrumb is the dashboard's renders one item at position 1, without a separator |
| `Breadcrumbs.WithCrumbs` | app/components/Breadcrumbs/Breadcrumbs.tsx:20-22 | only matches whose handle has a breadcrumb are kept |
| `Breadcrumbs.WithCrumbsKeepsOrder` | app/components/Breadcrumbs/Breadcrumbs.tsx:20-22 | filtering a concatenation of matches gives the concatenation of the filtered parts, so kept matches keep their relative order |
| `Breadcrumbs.WithCrumbsMembers` | app/components/Breadcrumbs/Breadcrumbs.tsx:20-22 | a match is kept iff it is one of the matches and its handle has a breadcrumb |
| `Breadcrumbs.ItemsFromAt` | app/components/Breadcrumbs/Breadcrumbs.tsx:31-41 | the item at index k of a mapped list has a separator iff its overall index is > 0, and position index + 1 |
| `Breadcrumbs.ItemsFromAll` | app/components/Breadcrumbs/Breadcrumbs.tsx:31-41 | a mapped list has one item per kept match, each with the separator and position of its overall index |
| `Breadcrumbs.Render` | app/components/Breadcrumbs/Breadcrumbs.tsx:20-41 | there is one list item per kept match, in order; item i has a separator iff i > 0, position i + 1, and the i-th kept match's breadcrumb and data |
| `RouteGuards.LoadersFollowRules` | app/routes/resetpassword.tsx:33-39 | each guarded loader (sign-in, sign-up, password update, dashboard, and the reset page with and without its flag) redirects exactly when its access rule is violated, and then to the rule's target |

## Findings

| source | as written | input that shows it | evidently intended | confidence | as-written member | corrected member |
|---|---|---|---|---|---|---|
| app/routes/signin.tsx:33-35 | `signInWithGoogle` puts the server client's `Headers` object in a JSON body. JSON serialises a `Headers` object as `{}`, so the action redirects with `headers: {}` | a Google sign-in during which the provider sets a cookie, such as a PKCE code verifier: the redirect carries no Set-Cookie line | the redirect to the provider carries the client's cookie mutations, as the other provider redirects do | medium, not executed; depends on `JSON.stringify` of a Fetch `Headers` object | `SignIn.GoogleRedirectAsWritten` | `SignIn.GoogleRedirect` |

## Left out

- Provider internals: credential checks, OAuth, OTP verification, token refresh, password-reset mail, user storage. Their replies are inputs.
- `app/utils/supabase.server.ts` is not part of this model. The cookie mutations of a server client are an input (`clientHeaders`).
- `serializeCookieHeader` is a parameter of the model. The same holds for the email check of the schema library and for `getErrorMessage` (`app/utils/errormsg`).
- A `signUp` call that throws and one that returns an error are one input. Both reach the same `catch` branch.
- Thrown redirects (`throw redirect(...)`) are modelled as returned responses. Remix handles both the same way.
- Delivery across tabs on the broadcast channel is best-effort and concurrent, so it is not modelled. The model covers what a tab posts on teardown and how it reacts to a message.
- React scheduling is not modelled. The model does not fix when a re-render, effect cleanup or effect run happens relative to the awaited provider calls in `handleReset`. `FlagChanged` stands for the re-run after the flag changed.
- Toasts, console logging, markup, styling, the show-password toggle and the `meta` exports are not modelled.
- `Root.Loader`: the `env` values read from the process environment are an input.
- `Schemas.SignUpPasswordIssues`, `Schemas.ParseSignUp`, `Schemas.ParseSignIn`: lengths are counted in Unicode scalar values, while JavaScript counts UTF-16 code units. The two differ only for characters outside the Basic Multilingual Plane.
- `UpdatePassword.ValidateForm`: the `min(6)` length check counts Unicode scalar values, not UTF-16 code units. Three characters outside the Basic Multilingual Plane pass in JavaScript (length 6) but are reported as too short here. The same holds for `UpdatePasswordPage.HandleChange` and `HandleReset`, which use it.
- `Schemas.TrimIsInnerSlice`: the white-space set is JavaScript's fixed list of code points. It is written out explicitly, not derived from the Unicode tables.
- `app/routes/signout.tsx` and `app/components/Breadcrumbs/BreadcrumbsItem.tsx` are one-line delegations, covered by `AuthServer.SignOut` and `Breadcrumbs`.
- `app/utils/supabase.client.ts` repeats the cookie-append pattern of `Confirm.SetAll`. `app/utils/createProfiles.ts` and `app/utils/seedTriggers.ts` only run database statements. Neither is modelled.

/**
 * The password reset / change page (app/routes/resetpassword.tsx).
 *
 * One URL serves two forms: with the `changepassword` query flag it is the
 * "change password" form for a signed-in user, without it the "reset
 * password" form for an anonymous visitor. The loader is a decision table on
 * the flag and the login status; the page holds the form state that its
 * handlers update.
 */
module ResetPassword {
  import opened Http
  import AuthServer

  /** The loader's JSON: whether this is the change form, and the session user's email if any. */
  datatype ResetData = ResetData(outcome: bool, email: Option<string>)

  /**
   * The loader. `user` is the provider's `getUser` reply (login status) and
   * `session` its `getSession` reply (where the email comes from).
   */
  function Loader(hasChangeFlag: bool, user: Option<User>, session: Option<Session>): (r: Response<ResetData>)
    ensures hasChangeFlag && user.None? ==> r == Redirect("/", [])
    ensures !hasChangeFlag && user.Some? ==> r == Redirect("/", [])
    ensures hasChangeFlag == user.Some? ==> r.Reply? && r.status == 200 && r.headers == []
    ensures r.Reply? ==> r.body.outcome == hasChangeFlag
    ensures r.Reply? && session.None? ==> r.body.email.None?
    ensures r.Reply? && session.Some? ==> r.body.email == session.value.user.email
  {
    var isLoggedIn := AuthServer.IsUserLoggedIn(user);
    if hasChangeFlag && !isLoggedIn then Redirect("/", [])
    else if !hasChangeFlag && isLoggedIn then Redirect("/", [])
    else
      var data := AuthServer.GetUser(session);
      Reply(200, ResetData(hasChangeFlag, if data.Some? then data.value.email else None), [])
  }

  /** The form's only field. */
  datatype ResetField = EmailField

  /** The schema library's default message for a failed email check. */
  const InvalidEmailMessage := "Invalid email"

  /** `validateForm`: the flattened errors of `{ email: z.string().email() }`. */
  function ValidateForm(email: string, isEmail: string -> bool): (errs: FieldErrors<ResetField>)
    ensures errs == map[] <==> isEmail(email)
    ensures errs != map[] ==> errs == map[EmailField := [InvalidEmailMessage]]
  {
    Issues(EmailField, if isEmail(email) then [] else [InvalidEmailMessage])
  }

  /** The initial email of the form: the logged-in email, or "" when there is none (or it is empty). */
  function InitialEmail(loggedInEmail: Option<string>): (e: string)
    ensures loggedInEmail.Some? ==> e == loggedInEmail.value
    ensures loggedInEmail.None? ==> e == ""
  {
    if Truthy(loggedInEmail) then loggedInEmail.value else ""
  }

  /** The email input is disabled exactly when a non-empty logged-in email exists. */
  function EmailInputDisabled(loggedInEmail: Option<string>): (disabled: bool)
    ensures disabled <==> loggedInEmail.Some? && loggedInEmail.value != ""
    ensures disabled ==> InitialEmail(loggedInEmail) != ""
  {
    Truthy(loggedInEmail)
  }

  /** The word in the heading and the legend: "Change" on the change form, "Reset" otherwise. */
  function ModeLabel(isChangePassword: bool): (word: string)
    ensures word == "Change" <==> isChangePassword
    ensures word == "Reset" <==> !isChangePassword
  {
    if isChangePassword then "Change" else "Reset"
  }

  /**
   * What a submit does after validation: the provider's
   * `resetPasswordForEmail` only when there is no error, then navigation
   * home only when the provider reports no error and returns data.
   */
  function SubmitEffects(errors: FieldErrors<ResetField>, email: string, reply: ProviderReply): (effects: seq<Effect>)
    ensures ResetPasswordForEmail(email) in effects <==> errors == map[]
    ensures effects != [] ==> effects[0] == ResetPasswordForEmail(email)
    ensures Navigate("/") in effects <==> errors == map[] && reply.error.None? && reply.hasData
    ensures reply.error.Some? ==> |effects| <= 1
    ensures errors == map[] && reply.error.None? && reply.hasData ==> effects == [ResetPasswordForEmail(email), Navigate("/")]
    ensures errors == map[] && !(reply.error.None? && reply.hasData) ==> effects == [ResetPasswordForEmail(email)]
    ensures errors != map[] ==> effects == []
  {
    if errors != map[] then []
    else if reply.error.Some? then [ResetPasswordForEmail(email)]
    else if reply.hasData then [ResetPasswordForEmail(email), Navigate("/")]
    else [ResetPasswordForEmail(email)]
  }

  /** The page's state: the loader data it was rendered with, the form data and the field errors. */
  class ResetPasswordPage {
    const isChangePassword: bool
    const loggedInEmail: Option<string>
    var email: string
    var errors: FieldErrors<ResetField>

    constructor (data: ResetData)
      ensures isChangePassword == data.outcome && loggedInEmail == data.email
      ensures email == InitialEmail(data.email) && errors == map[]
    {
      isChangePassword := data.outcome;
      loggedInEmail := data.email;
      email := InitialEmail(data.email);
      errors := map[];
    }

    /** `handleChange`: store the typed value, then validate the updated form. */
    method HandleChange(value: string, isEmail: string -> bool)
      modifies this
      ensures email == value
      ensures errors == ValidateForm(value, isEmail)
    {
      email := value;
      errors := ValidateForm(email, isEmail);
    }

    /**
     * `handleReset`: validate the current form, store the errors, and call
     * the provider only when there are none; `reply` is what the provider
     * answers if it is called.
     */
    method HandleReset(reply: ProviderReply, isEmail: string -> bool) returns (effects: seq<Effect>)
      modifies this
      ensures email == old(email)
      ensures errors == ValidateForm(email, isEmail)
      ensures effects == SubmitEffects(errors, email, reply)
    {
      var newErrors := ValidateForm(email, isEmail);
      errors := newErrors;
      effects := [];
      if newErrors == map[] {
        effects := effects + [ResetPasswordForEmail(email)];
        if reply.error.Some? {
          return;
        }
        if reply.hasData {
          effects := effects + [Navigate("/")];
        }
      }
    }
  }
}

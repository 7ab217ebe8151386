/**
 * The password update page reached from the reset e-mail
 * (app/routes/auth.update-password.tsx).
 *
 * The loader admits only signed-in visitors. The page holds the two password
 * fields, their errors and the `isPasswordUpdated` flag, and an effect that
 * opens a broadcast channel: when the effect is torn down before the update
 * completed it posts "signOut" to the other tabs, and a tab that receives
 * "signOut" goes home, signing out first if its own update did not complete.
 * The effect closes over the flag as it was when the effect ran; the model
 * keeps that captured value in a field of its own.
 */
module UpdatePassword {
  import opened Http
  import AuthServer

  /** The loader: home for a visitor who is not logged in, otherwise `null`. */
  function Loader(user: Option<User>): (r: Response<JsonNull>)
    ensures user.None? <==> r == Redirect("/", [])
    ensures user.Some? <==> r == Reply(200, JsonNull, [])
  {
    if !AuthServer.IsUserLoggedIn(user) then Redirect("/", []) else Reply(200, JsonNull, [])
  }

  datatype UpdateField = PasswordField | ConfirmField

  const TooShort := "Password must be more than 5 characters"
  const Mismatch := "Passwords do not match!"
  /** The message posted to the other tabs. */
  const SignOutMessage := "signOut"

  /**
   * The failing checks of one field: each field's `min(6)`, then the
   * refinement that the two agree, reported on `confirmPassword` only. The
   * refinement runs even when a length check failed.
   */
  function FieldIssues(password: string, confirmPassword: string, field: UpdateField): seq<string> {
    match field
    case PasswordField => if |password| < 6 then [TooShort] else []
    case ConfirmField =>
      (if |confirmPassword| < 6 then [TooShort] else []) + (if password != confirmPassword then [Mismatch] else [])
  }

  /** `validateForm`: the flattened errors of the update schema. */
  function ValidateForm(password: string, confirmPassword: string): (errs: FieldErrors<UpdateField>)
    ensures errs == map[] <==> |password| >= 6 && password == confirmPassword
    ensures PasswordField in errs <==> |password| < 6
    ensures PasswordField in errs ==> errs[PasswordField] == [TooShort]
    ensures ConfirmField in errs <==> |confirmPassword| < 6 || password != confirmPassword
    ensures password != confirmPassword ==> ConfirmField in errs && Mismatch in errs[ConfirmField]
    ensures forall field :: field in errs ==> errs[field] == FieldIssues(password, confirmPassword, field)
  {
    var errs := map field: UpdateField | FieldIssues(password, confirmPassword, field) != []
      :: FieldIssues(password, confirmPassword, field);
    assert PasswordField in errs <==> |password| < 6;
    assert ConfirmField in errs <==> |confirmPassword| < 6 || password != confirmPassword;
    assert password != confirmPassword ==> errs[ConfirmField][|errs[ConfirmField]| - 1] == Mismatch;
    errs
  }

  /** The mismatch is never reported on the `password` field. */
  lemma MismatchOnlyOnConfirm(password: string, confirmPassword: string)
    ensures var errs := ValidateForm(password, confirmPassword);
      PasswordField in errs ==> Mismatch !in errs[PasswordField]
  {
    var errs := ValidateForm(password, confirmPassword);
    if PasswordField in errs {
      assert errs[PasswordField] == [TooShort];
      assert |TooShort| != |Mismatch|;
    }
  }

  /**
   * What a submit does after validation: `updateUser` with the
   * `confirmPassword` value only when there is no error; on a reply with no
   * error and with data, sign out and go to the sign-in page, in that order.
   */
  function SubmitEffects(errors: FieldErrors<UpdateField>, confirmPassword: string, reply: ProviderReply): (effects: seq<Effect>)
    ensures effects != [] <==> errors == map[]
    ensures effects != [] ==> effects[0] == UpdateUser(confirmPassword)
    ensures SignOut in effects <==> errors == map[] && reply.error.None? && reply.hasData
    ensures SignOut in effects ==> effects == [UpdateUser(confirmPassword), SignOut, Navigate("/signin")]
    ensures SignOut !in effects ==> |effects| <= 1
  {
    if errors != map[] then []
    else if reply.error.Some? then [UpdateUser(confirmPassword)]
    else if reply.hasData then [UpdateUser(confirmPassword), SignOut, Navigate("/signin")]
    else [UpdateUser(confirmPassword)]
  }

  /** What a tab does on a channel message, given the flag its effect captured. */
  function MessageEffects(data: string, capturedUpdated: bool): (effects: seq<Effect>)
    ensures data != SignOutMessage ==> effects == []
    ensures data == SignOutMessage ==> |effects| > 0 && effects[|effects| - 1] == Navigate("/")
    ensures SignOut in effects <==> data == SignOutMessage && !capturedUpdated
    ensures data == SignOutMessage && !capturedUpdated ==> effects == [SignOut, Navigate("/")]
    ensures data == SignOutMessage && capturedUpdated ==> effects == [Navigate("/")]
  {
    if data == SignOutMessage then (if !capturedUpdated then [SignOut] else []) + [Navigate("/")]
    else []
  }

  /** The messages a teardown posts: "signOut" exactly when the captured flag is false. */
  function TeardownPosts(capturedUpdated: bool): (posts: seq<string>)
    ensures posts == [] <==> capturedUpdated
    ensures posts != [] ==> posts == [SignOutMessage]
  {
    if !capturedUpdated then [SignOutMessage] else []
  }

  class UpdatePasswordPage {
    var password: string
    var confirmPassword: string
    var errors: FieldErrors<UpdateField>
    var isPasswordUpdated: bool
    /** Whether the live effect run's channel is open. */
    var channelOpen: bool
    /** The value of `isPasswordUpdated` the live effect run closed over. */
    var capturedUpdated: bool
    /** Every message this page posted on the channel, in order. */
    var posted: seq<string>

    /** First render and the first run of the effect. */
    constructor ()
      ensures password == "" && confirmPassword == "" && errors == map[]
      ensures !isPasswordUpdated
      ensures channelOpen && !capturedUpdated && posted == []
    {
      password, confirmPassword := "", "";
      errors := map[];
      isPasswordUpdated := false;
      channelOpen, capturedUpdated := true, false;
      posted := [];
    }

    /** `handleChange`: replace the named field only, then validate the updated form. */
    method HandleChange(field: UpdateField, value: string)
      modifies this
      ensures field == PasswordField ==> password == value && confirmPassword == old(confirmPassword)
      ensures field == ConfirmField ==> confirmPassword == value && password == old(password)
      ensures errors == ValidateForm(password, confirmPassword)
      ensures isPasswordUpdated == old(isPasswordUpdated)
      ensures channelOpen == old(channelOpen) && capturedUpdated == old(capturedUpdated) && posted == old(posted)
    {
      match field {
        case PasswordField => password := value;
        case ConfirmField => confirmPassword := value;
      }
      errors := ValidateForm(password, confirmPassword);
    }

    /**
     * `handleReset`: validate, store the errors, and call `updateUser` only
     * when there are none; on success set the flag, sign out, and go to the
     * sign-in page. `reply` is what the provider answers if it is called.
     */
    method HandleReset(reply: ProviderReply) returns (effects: seq<Effect>)
      modifies this
      ensures password == old(password) && confirmPassword == old(confirmPassword)
      ensures errors == ValidateForm(password, confirmPassword)
      ensures effects == SubmitEffects(errors, confirmPassword, reply)
      ensures isPasswordUpdated == (old(isPasswordUpdated) || SignOut in effects)
      ensures channelOpen == old(channelOpen) && capturedUpdated == old(capturedUpdated) && posted == old(posted)
    {
      var newErrors := ValidateForm(password, confirmPassword);
      errors := newErrors;
      effects := [];
      if newErrors == map[] {
        effects := [UpdateUser(confirmPassword)];
        if reply.error.Some? {
          return;
        }
        if reply.hasData {
          isPasswordUpdated := true;
          effects := effects + [SignOut, Navigate("/signin")];
        }
      }
    }

    /** The effect's teardown: post "signOut" unless the captured flag is set, then close the channel. */
    method Teardown()
      requires channelOpen
      modifies this
      ensures !channelOpen
      ensures posted == old(posted) + TeardownPosts(old(capturedUpdated))
      ensures password == old(password) && confirmPassword == old(confirmPassword) && errors == old(errors)
      ensures isPasswordUpdated == old(isPasswordUpdated) && capturedUpdated == old(capturedUpdated)
    {
      if !capturedUpdated {
        posted := posted + [SignOutMessage];
      }
      channelOpen := false;
    }

    /** A run of the effect: open a fresh channel and capture the current flag. */
    method RunEffect()
      requires !channelOpen
      modifies this
      ensures channelOpen && capturedUpdated == isPasswordUpdated
      ensures posted == old(posted) && isPasswordUpdated == old(isPasswordUpdated)
      ensures password == old(password) && confirmPassword == old(confirmPassword) && errors == old(errors)
    {
      channelOpen := true;
      capturedUpdated := isPasswordUpdated;
    }

    /**
     * The re-render after `isPasswordUpdated` changed: the old run is torn
     * down with the value it captured, then the effect runs again. After a
     * successful update the old run captured false, so this posts "signOut".
     */
    method FlagChanged()
      requires channelOpen && capturedUpdated != isPasswordUpdated
      modifies this
      ensures isPasswordUpdated == old(isPasswordUpdated)
      ensures channelOpen && capturedUpdated == old(isPasswordUpdated)
      ensures posted == old(posted) + TeardownPosts(old(capturedUpdated))
      ensures old(isPasswordUpdated) ==> posted == old(posted) + [SignOutMessage]
      ensures !old(isPasswordUpdated) ==> posted == old(posted)
      ensures password == old(password) && confirmPassword == old(confirmPassword) && errors == old(errors)
    {
      Teardown();
      RunEffect();
    }

    /** The channel's message handler of the live effect run. */
    method OnMessage(data: string) returns (effects: seq<Effect>)
      requires channelOpen
      ensures effects == MessageEffects(data, capturedUpdated)
    {
      effects := [];
      if data == SignOutMessage {
        if !capturedUpdated {
          effects := [SignOut];
        }
        effects := effects + [Navigate("/")];
      }
    }
  }

  /**
   * A successful update in a fresh page: both fields set to the same valid
   * password, the provider accepts it, and React re-runs the effect for the
   * new flag. The torn-down run captured false, so exactly one "signOut" is
   * posted although the update succeeded.
   */
  method SuccessfulUpdate(newPassword: string, reply: ProviderReply) returns (page: UpdatePasswordPage, effects: seq<Effect>)
    requires |newPassword| >= 6 && reply.error.None? && reply.hasData
    ensures fresh(page)
    ensures effects == [UpdateUser(newPassword), SignOut, Navigate("/signin")]
    ensures page.isPasswordUpdated && page.channelOpen && page.capturedUpdated
    ensures page.posted == [SignOutMessage]
  {
    page := new UpdatePasswordPage();
    page.HandleChange(PasswordField, newPassword);
    page.HandleChange(ConfirmField, newPassword);
    effects := page.HandleReset(reply);
    page.FlagChanged();
  }
}

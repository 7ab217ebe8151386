/**
 * The sign-up and sign-in form schemas (app/types.ts).
 *
 * Each schema is a validation function returning either the parsed form or a
 * flattened field-error map. Every failing check of a field contributes its
 * message, in the order the checks are declared; a field with no failing
 * check has no key. A `trim` step in a check chain affects only the checks
 * that come after it, and the parsed value is the trimmed string. The email
 * check of the schema library is the parameter `isEmail`.
 */
module Schemas {
  import opened Http

  predicate IsUpper(c: char) { 'A' <= c <= 'Z' }
  predicate IsLower(c: char) { 'a' <= c <= 'z' }
  predicate IsDigit(c: char) { '0' <= c <= '9' }
  /** Matches the character class `[^A-Za-z0-9]`. */
  predicate IsSpecial(c: char) { !IsUpper(c) && !IsLower(c) && !IsDigit(c) }

  /** Whether some character of `s` satisfies `p`: an unanchored one-character-class regex test. */
  function AnyChar(s: string, p: char -> bool): (r: bool)
    ensures r <==> exists i :: 0 <= i < |s| && p(s[i])
  {
    if s == [] then false
    else if p(s[0]) then true
    else
      var r := AnyChar(s[1..], p);
      assert forall i :: 1 <= i < |s| ==> s[i] == s[1..][i - 1];
      r
  }

  /** JavaScript's white space and line terminators, as `String.prototype.trim` removes them. */
  predicate IsJsWhitespace(c: char) {
    var n := c as int;
    n == 0x09 || n == 0x0A || n == 0x0B || n == 0x0C || n == 0x0D || n == 0x20
    || n == 0xA0 || n == 0x1680 || (0x2000 <= n <= 0x200A) || n == 0x2028 || n == 0x2029
    || n == 0x202F || n == 0x205F || n == 0x3000 || n == 0xFEFF
  }

  /** `s` without its leading white space. */
  function TrimStart(s: string): (r: string)
    ensures |r| <= |s| && r == s[|s| - |r|..]
    ensures forall i :: 0 <= i < |s| - |r| ==> IsJsWhitespace(s[i])
    ensures r != [] ==> !IsJsWhitespace(r[0])
  {
    if s != [] && IsJsWhitespace(s[0]) then
      var r := TrimStart(s[1..]);
      assert s[1..][|s| - 1 - |r|..] == s[|s| - |r|..];
      r
    else s
  }

  /** `s` without its trailing white space. */
  function TrimEnd(s: string): (r: string)
    ensures |r| <= |s| && r == s[..|r|]
    ensures forall i :: |r| <= i < |s| ==> IsJsWhitespace(s[i])
    ensures r != [] ==> !IsJsWhitespace(r[|r| - 1])
  {
    if s != [] && IsJsWhitespace(s[|s| - 1]) then
      var r := TrimEnd(s[..|s| - 1]);
      assert s[..|s| - 1][..|r|] == s[..|r|];
      r
    else s
  }

  /** `String.prototype.trim`. */
  function Trim(s: string): string {
    TrimEnd(TrimStart(s))
  }

  /** `s[i..j]` is `s` with white space only cut off at its two ends. */
  predicate TrimmedAt(s: string, i: int, j: int) {
    && 0 <= i <= j <= |s|
    && (forall k :: 0 <= k < i ==> IsJsWhitespace(s[k]))
    && (forall k :: j <= k < |s| ==> IsJsWhitespace(s[k]))
  }

  /** Trim removes white space only at both ends: the result is a slice of the input, with no white space at either end. */
  lemma {:induction false} TrimIsInnerSlice(s: string)
    ensures exists i, j :: TrimmedAt(s, i, j) && Trim(s) == s[i..j]
    ensures Trim(s) != [] ==> !IsJsWhitespace(Trim(s)[0]) && !IsJsWhitespace(Trim(s)[|Trim(s)| - 1])
  {
    var i, j := TrimBounds(s);
    var t := TrimStart(s);
    if Trim(s) != [] {
      assert Trim(s)[0] == t[0];
    }
  }

  /** Where `Trim` cuts `s`. */
  lemma {:induction false} TrimBounds(s: string) returns (i: int, j: int)
    ensures TrimmedAt(s, i, j) && Trim(s) == s[i..j]
  {
    var t := TrimStart(s);
    var r := TrimEnd(t);
    i, j := |s| - |t|, |s| - |t| + |r|;
    TrailIsWhitespace(s, t, r);
    assert r == s[i..j];
  }

  /** White space cut from the end of a suffix of `s` is white space at the end of `s`. */
  lemma {:induction false} TrailIsWhitespace(s: string, t: string, r: string)
    requires |t| <= |s| && t == s[|s| - |t|..]
    requires |r| <= |t| && forall k :: |r| <= k < |t| ==> IsJsWhitespace(t[k])
    ensures forall k :: |s| - |t| + |r| <= k < |s| ==> IsJsWhitespace(s[k])
  {
    var i := |s| - |t|;
    forall k | i + |r| <= k < |s|
      ensures IsJsWhitespace(s[k])
    {
      assert s[k] == t[k - i];
    }
  }

  /** Trimming twice is trimming once. */
  lemma {:induction false} TrimIdempotent(s: string)
    ensures Trim(Trim(s)) == Trim(s)
  {
    var r := Trim(s);
    TrimIsInnerSlice(s);
    if r != [] {
      assert TrimStart(r) == r;
      assert TrimEnd(r) == r;
    }
  }

  // ---------------------------------------------------------------- sign up

  const FullnameRequired := "Full name is required"
  const PasswordTooShort := "Password must have more than 6 characters"
  const PasswordNeedsUpper := "Password must include at least one uppercase letter."
  const PasswordNeedsDigit := "Password must include at least one digit."
  const PasswordNeedsSpecial := "Password must include at least one special character."
  const InvalidEmail := "Invalid email address"

  datatype SignUpForm = SignUpForm(fullname: string, password: string, email: string)
  datatype SignUpField = Fullname | Password | Email

  /** The four password messages, in the order their checks are declared. */
  const PasswordMessages := [PasswordTooShort, PasswordNeedsUpper, PasswordNeedsDigit, PasswordNeedsSpecial]

  /** The position of a password message among `PasswordMessages`. */
  function PasswordRank(m: string): nat {
    if m == PasswordTooShort then 0
    else if m == PasswordNeedsUpper then 1
    else if m == PasswordNeedsDigit then 2
    else 3
  }

  /** The four password messages are distinct, so each has its own rank. */
  lemma PasswordRanks()
    ensures PasswordRank(PasswordTooShort) == 0 && PasswordRank(PasswordNeedsUpper) == 1
    ensures PasswordRank(PasswordNeedsDigit) == 2 && PasswordRank(PasswordNeedsSpecial) == 3
  {
    assert |PasswordTooShort| != |PasswordNeedsUpper| && PasswordTooShort[14] != PasswordNeedsDigit[14];
    assert |PasswordTooShort| != |PasswordNeedsSpecial| && |PasswordNeedsUpper| != |PasswordNeedsDigit|;
    assert |PasswordNeedsUpper| != |PasswordNeedsSpecial| && |PasswordNeedsDigit| != |PasswordNeedsSpecial|;
  }

  /** The failing checks of the sign-up password, in declaration order. */
  function SignUpPasswordIssues(p: string): (msgs: seq<string>)
    ensures msgs == [] <==>
      (&& |p| >= 6
       && (exists i :: 0 <= i < |p| && IsUpper(p[i]))
       && (exists i :: 0 <= i < |p| && IsDigit(p[i]))
       && (exists i :: 0 <= i < |p| && IsSpecial(p[i])))
    ensures PasswordTooShort in msgs <==> |p| < 6
    ensures PasswordNeedsUpper in msgs <==> !AnyChar(p, IsUpper)
    ensures PasswordNeedsDigit in msgs <==> !AnyChar(p, IsDigit)
    ensures PasswordNeedsSpecial in msgs <==> !AnyChar(p, IsSpecial)
    ensures RankedMessages(msgs) && |msgs| <= 4
  {
    FailingPasswordMessagesRanked(|p| < 6, !AnyChar(p, IsUpper), !AnyChar(p, IsDigit), !AnyChar(p, IsSpecial));
    FailingPasswordMessagesMembers(|p| < 6, !AnyChar(p, IsUpper), !AnyChar(p, IsDigit), !AnyChar(p, IsSpecial));
    FailingPasswordMessages(|p| < 6, !AnyChar(p, IsUpper), !AnyChar(p, IsDigit), !AnyChar(p, IsSpecial))
  }

  /** A list of password messages whose ranks strictly increase. */
  predicate RankedMessages(msgs: seq<string>) {
    && (forall m :: m in msgs ==> m in PasswordMessages)
    && (forall i, j :: 0 <= i < j < |msgs| ==> PasswordRank(msgs[i]) < PasswordRank(msgs[j]))
  }

  /** Putting a message of lower rank in front of a ranked list keeps it ranked. */
  lemma {:induction false} RankedPrepend(head: seq<string>, rest: seq<string>)
    requires |head| <= 1 && RankedMessages(head) && RankedMessages(rest)
    requires forall m, n :: m in head && n in rest ==> PasswordRank(m) < PasswordRank(n)
    ensures RankedMessages(head + rest)
  {
    var all := head + rest;
    forall i, j | 0 <= i < j < |all|
      ensures PasswordRank(all[i]) < PasswordRank(all[j])
    {
      if j < |head| {
        assert false;
      } else if i < |head| {
        assert all[i] in head && all[j] == rest[j - |head|];
      } else {
        assert all[i] == rest[i - |head|] && all[j] == rest[j - |head|];
      }
    }
  }

  /** The message `m` when its check fails, nothing otherwise. */
  function Flagged(fails: bool, m: string): seq<string> {
    if fails then [m] else []
  }

  /** Every message in `msgs` has rank at least `k`. */
  predicate RanksFrom(msgs: seq<string>, k: nat) {
    forall m :: m in msgs ==> PasswordRank(m) >= k
  }

  /** The digit and special-character messages, as they close the list. */
  lemma {:induction false} DigitSpecialRanked(noDigit: bool, noSpecial: bool)
    ensures RankedMessages(Flagged(noDigit, PasswordNeedsDigit) + Flagged(noSpecial, PasswordNeedsSpecial))
    ensures RanksFrom(Flagged(noDigit, PasswordNeedsDigit) + Flagged(noSpecial, PasswordNeedsSpecial), 2)
  {
    PasswordRanks();
    RankedPrepend(Flagged(noDigit, PasswordNeedsDigit), Flagged(noSpecial, PasswordNeedsSpecial));
  }

  /** The uppercase message in front of the digit and special-character messages. */
  lemma {:induction false} UpperDigitSpecialRanked(noUpper: bool, noDigit: bool, noSpecial: bool)
    ensures RankedMessages(Flagged(noUpper, PasswordNeedsUpper) + (Flagged(noDigit, PasswordNeedsDigit) + Flagged(noSpecial, PasswordNeedsSpecial)))
    ensures RanksFrom(Flagged(noUpper, PasswordNeedsUpper) + (Flagged(noDigit, PasswordNeedsDigit) + Flagged(noSpecial, PasswordNeedsSpecial)), 1)
  {
    PasswordRanks();
    DigitSpecialRanked(noDigit, noSpecial);
    RankedPrepend(Flagged(noUpper, PasswordNeedsUpper), Flagged(noDigit, PasswordNeedsDigit) + Flagged(noSpecial, PasswordNeedsSpecial));
  }

  /** The password messages whose checks fail, given the outcome of each check. */
  function FailingPasswordMessages(short: bool, noUpper: bool, noDigit: bool, noSpecial: bool): seq<string> {
    Flagged(short, PasswordTooShort)
    + (Flagged(noUpper, PasswordNeedsUpper) + (Flagged(noDigit, PasswordNeedsDigit) + Flagged(noSpecial, PasswordNeedsSpecial)))
  }

  /** A password message is in the list exactly when its check fails. */
  lemma {:induction false} FailingPasswordMessagesMembers(short: bool, noUpper: bool, noDigit: bool, noSpecial: bool)
    ensures FailingPasswordMessages(short, noUpper, noDigit, noSpecial) == [] <==> !short && !noUpper && !noDigit && !noSpecial
    ensures PasswordTooShort in FailingPasswordMessages(short, noUpper, noDigit, noSpecial) <==> short
    ensures PasswordNeedsUpper in FailingPasswordMessages(short, noUpper, noDigit, noSpecial) <==> noUpper
    ensures PasswordNeedsDigit in FailingPasswordMessages(short, noUpper, noDigit, noSpecial) <==> noDigit
    ensures PasswordNeedsSpecial in FailingPasswordMessages(short, noUpper, noDigit, noSpecial) <==> noSpecial
  {
    PasswordRanks();
  }

  /** Whichever checks fail, their messages come out ranked, so at most four of them. */
  lemma {:induction false} FailingPasswordMessagesRanked(short: bool, noUpper: bool, noDigit: bool, noSpecial: bool)
    ensures RankedMessages(FailingPasswordMessages(short, noUpper, noDigit, noSpecial))
    ensures |FailingPasswordMessages(short, noUpper, noDigit, noSpecial)| <= 4
  {
    PasswordRanks();
    UpperDigitSpecialRanked(noUpper, noDigit, noSpecial);
    RankedPrepend(Flagged(short, PasswordTooShort), Flagged(noUpper, PasswordNeedsUpper) + (Flagged(noDigit, PasswordNeedsDigit) + Flagged(noSpecial, PasswordNeedsSpecial)));
  }


  /** The failing checks of one sign-up field, in declaration order. */
  function SignUpFieldIssues(f: SignUpForm, isEmail: string -> bool, field: SignUpField): seq<string> {
    match field
    case Fullname => if |f.fullname| < 1 then [FullnameRequired] else []
    case Password => SignUpPasswordIssues(f.password)
    case Email => if isEmail(Trim(f.email)) then [] else [InvalidEmail]
  }

  /** The flattened error map of the sign-up schema: one key per field with a failing check. */
  function SignUpErrors(f: SignUpForm, isEmail: string -> bool): (m: FieldErrors<SignUpField>)
    ensures Fullname in m <==> f.fullname == []
    ensures Fullname in m ==> m[Fullname] == [FullnameRequired]
    ensures Password in m <==> SignUpPasswordIssues(f.password) != []
    ensures Password in m ==> m[Password] == SignUpPasswordIssues(f.password)
    ensures Email in m <==> !isEmail(Trim(f.email))
    ensures Email in m ==> m[Email] == [InvalidEmail]
  {
    map field: SignUpField | SignUpFieldIssues(f, isEmail, field) != [] :: SignUpFieldIssues(f, isEmail, field)
  }

  /** `SignUpSchema.safeParse`: the parsed form (email trimmed) or the flattened field errors. */
  function ParseSignUp(f: SignUpForm, isEmail: string -> bool): (r: Result<SignUpForm, FieldErrors<SignUpField>>)
    ensures r.Ok? <==>
      (&& |f.fullname| >= 1 && |f.password| >= 6
       && (exists i :: 0 <= i < |f.password| && IsUpper(f.password[i]))
       && (exists i :: 0 <= i < |f.password| && IsDigit(f.password[i]))
       && (exists i :: 0 <= i < |f.password| && IsSpecial(f.password[i]))
       && isEmail(Trim(f.email)))
    ensures r.Ok? ==> r.value == f.(email := Trim(f.email))
    ensures r.Err? ==> r.error != map[]
    ensures r.Err? ==> r.error == SignUpErrors(f, isEmail)
    ensures r.Err? ==> (Fullname in r.error <==> f.fullname == [])
    ensures r.Err? ==> (Password in r.error <==> SignUpPasswordIssues(f.password) != [])
    ensures r.Err? && Password in r.error ==> r.error[Password] == SignUpPasswordIssues(f.password)
    ensures r.Err? ==> (Email in r.error <==> !isEmail(Trim(f.email)))
  {
    var errs := SignUpErrors(f, isEmail);
    if Fullname !in errs && Password !in errs && Email !in errs then Ok(f.(email := Trim(f.email)))
    else Err(errs)
  }

  /**
   * The round trip of a well-formed sign-up: the six characters "Abcd1!"
   * satisfy the length rule (although its message says "more than 6"), and
   * an email typed with a leading space is trimmed before it is checked and
   * returned.
   */
  lemma SignUpAcceptsSixCharacterPassword(name: string, email: string, isEmail: string -> bool)
    requires name != [] && email != [] && isEmail(email)
    requires !IsJsWhitespace(email[0]) && !IsJsWhitespace(email[|email| - 1])
    ensures ParseSignUp(SignUpForm(name, "Abcd1!", [' '] + email), isEmail)
      == Ok(SignUpForm(name, "Abcd1!", email))
  {
    TrimOneSpace(email);
    SixCharacterPasswordPasses();
  }

  /** "Abcd1!" has six characters, an upper-case letter, a digit and a special character. */
  lemma SixCharacterPasswordPasses()
    ensures SignUpPasswordIssues("Abcd1!") == []
  {
    var p := "Abcd1!";
    assert IsUpper(p[0]) && IsDigit(p[4]) && IsSpecial(p[5]);
  }

  /** One leading space is trimmed from a string with no white space at its ends. */
  lemma {:induction false} TrimOneSpace(e: string)
    requires e != [] && !IsJsWhitespace(e[0]) && !IsJsWhitespace(e[|e| - 1])
    ensures Trim([' '] + e) == e
  {
    assert ([' '] + e)[1..] == e;
  }

  // ---------------------------------------------------------------- sign in

  const Required := "Required"

  datatype SignInForm = SignInForm(email: string, password: string)
  datatype SignInField = SignInEmail | SignInPassword

  /** The failing checks of the sign-in email: `min(1)` on the raw string, then the email check on the trimmed one. */
  function SignInEmailIssues(email: string, isEmail: string -> bool): (msgs: seq<string>)
    ensures msgs == [] <==> email != [] && isEmail(Trim(email))
    ensures email == [] ==> msgs == [Required] + (if isEmail("") then [] else [InvalidEmail])
    ensures email != [] && !isEmail(Trim(email)) ==> msgs == [InvalidEmail]
  {
    (if |email| < 1 then [Required] else []) + (if isEmail(Trim(email)) then [] else [InvalidEmail])
  }

  /**
   * `SignInSchema.safeParse`. Because `min(1)` precedes `trim`, an email of
   * spaces passes `min(1)` and is then judged by the email check on "".
   */
  function ParseSignIn(f: SignInForm, isEmail: string -> bool): (r: Result<SignInForm, FieldErrors<SignInField>>)
    ensures r.Ok? <==> f.email != [] && isEmail(Trim(f.email)) && f.password != []
    ensures r.Ok? ==> r.value == f.(email := Trim(f.email))
    ensures r.Err? ==> r.error != map[]
    ensures r.Err? ==> (SignInPassword in r.error <==> f.password == [])
    ensures r.Err? && SignInPassword in r.error ==> r.error[SignInPassword] == [Required]
    ensures r.Err? ==> (SignInEmail in r.error <==> f.email == [] || !isEmail(Trim(f.email)))
    ensures r.Err? && SignInEmail in r.error ==> r.error[SignInEmail] == SignInEmailIssues(f.email, isEmail)
  {
    var emailIssues := SignInEmailIssues(f.email, isEmail);
    var passwordIssues := if |f.password| < 1 then [Required] else [];
    if emailIssues == [] && passwordIssues == [] then Ok(f.(email := Trim(f.email)))
    else Err(Issues(SignInEmail, emailIssues) + Issues(SignInPassword, passwordIssues))
  }

  /** A string made only of white space trims to the empty string. */
  lemma {:induction false} TrimBlank(s: string)
    requires forall i :: 0 <= i < |s| ==> IsJsWhitespace(s[i])
    ensures Trim(s) == []
  {
    assert TrimStart(s) == [];
  }

  /**
   * An email of spaces passes `min(1)` but trims to "", so when the email
   * check rejects "" the sign-in reports the email field with the email
   * message only.
   */
  lemma SignInRejectsBlankEmail(f: SignInForm, isEmail: string -> bool)
    requires !isEmail("")
    requires f.email != [] && forall i :: 0 <= i < |f.email| ==> IsJsWhitespace(f.email[i])
    ensures ParseSignIn(f, isEmail).Err?
    ensures SignInEmail in ParseSignIn(f, isEmail).error
    ensures ParseSignIn(f, isEmail).error[SignInEmail] == [InvalidEmail]
  {
    TrimBlank(f.email);
  }
}

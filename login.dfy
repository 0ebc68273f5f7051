/**
 * The login page: a form check with a fixed order of messages, a sign-in
 * call with the trimmed email, and the mapping of the backend's error
 * message to the message shown. The sign-in answer is a parameter.
 */
module Login {
  import opened Wrappers
  import opened Text

  /** `[^\s@]`: neither whitespace nor '@'. */
  predicate Plain(c: char) {
    !IsSpace(c) && c != '@'
  }

  /**
   * One way `^[^\s@]+@[^\s@]+\.[^\s@]+$` can match `s`: the '@' at `at`, the
   * '.' the pattern's `\.` consumes at `dot`, every other character plain,
   * and each of the three runs non-empty.
   */
  predicate EmailSplit(s: string, at: nat, dot: nat) {
    && 0 < at && at + 1 < dot && dot + 1 < |s|
    && s[at] == '@' && s[dot] == '.'
    && forall i :: 0 <= i < |s| && i != at ==> Plain(s[i])
  }

  /** The email pattern as the regular expression states it. */
  ghost predicate EmailPattern(s: string) {
    exists at: nat, dot: nat :: EmailSplit(s, at, dot)
  }

  /** The index of the first '@' of `s`, or `|s|` when it has none. */
  function FirstAt(s: string): (k: nat)
    ensures k <= |s|
    ensures forall i :: 0 <= i < k ==> s[i] != '@'
    ensures k < |s| ==> s[k] == '@'
  {
    if s == [] || s[0] == '@' then 0 else 1 + FirstAt(s[1..])
  }

  /** The email check written as a scan: a non-empty plain local part, one '@', a plain domain with an inner '.'. */
  predicate ValidEmail(s: string) {
    var k := FirstAt(s);
    && 0 < k < |s|
    && (forall i :: 0 <= i < |s| && i != k ==> Plain(s[i]))
    && exists j :: k + 1 < j < |s| - 1 && s[j] == '.'
  }

  /** The scan accepts exactly the strings the regular expression matches. */
  lemma EmailCheckAgrees(s: string)
    ensures ValidEmail(s) <==> EmailPattern(s)
  {
    var k := FirstAt(s);
    if ValidEmail(s) {
      var j :| k + 1 < j < |s| - 1 && s[j] == '.';
      assert EmailSplit(s, k, j);
    }
    if EmailPattern(s) {
      var at: nat, dot: nat :| EmailSplit(s, at, dot);
      assert k == at;
      assert k + 1 < dot < |s| - 1 && s[dot] == '.';
    }
  }

  /** An accepted email holds no whitespace, so the trim at sign-in leaves it unchanged. */
  lemma {:induction false} ValidEmailIsTrimmed(s: string)
    requires EmailPattern(s)
    ensures Trim(s) == s
  {
    var at: nat, dot: nat :| EmailSplit(s, at, dot);
    assert forall i :: 0 <= i < |s| ==> !IsSpace(s[i]) by {
      forall i | 0 <= i < |s| ensures !IsSpace(s[i]) {
        if i != at { assert Plain(s[i]); }
      }
    }
    TrimNoSpace(s);
  }

  /** The check runs on the untrimmed text: an email with leading whitespace is rejected. */
  lemma {:induction false} LeadingSpaceRejected(s: string)
    requires s != [] && IsSpace(s[0])
    ensures !EmailPattern(s)
  {
  }

  const EmailRequired := "Email is required"
  const PasswordRequired := "Password is required"
  const InvalidEmail := "Please enter a valid email address"

  /**
   * `validateForm` as an optional error message: `None` when the form may be
   * submitted. The empty email is reported first, then the empty password,
   * then a malformed email.
   */
  function ValidateForm(email: string, password: string): (error: Option<string>)
    ensures email == "" ==> error == Some(EmailRequired)
    ensures email != "" && password == "" ==> error == Some(PasswordRequired)
    ensures email != "" && password != "" ==>
      (error.None? <==> EmailPattern(email)) && (error.Some? ==> error == Some(InvalidEmail))
  {
    EmailCheckAgrees(email);
    if email == "" then Some(EmailRequired)
    else if password == "" then Some(PasswordRequired)
    else if !ValidEmail(email) then Some(InvalidEmail)
    else None
  }

  const InvalidCredentials := "Invalid login credentials"
  const NotConfirmed := "Email not confirmed"

  /**
   * The message shown for a sign-in error: two known backend messages get
   * fixed texts, tested in this order; anything else is shown as it is, or a
   * fallback when it is empty.
   */
  function SignInErrorMessage(message: string): (shown: string)
    ensures shown != ""
    ensures Contains(message, InvalidCredentials) ==> shown == "Invalid email or password. Please try again."
    ensures !Contains(message, InvalidCredentials) && Contains(message, NotConfirmed) ==>
      shown == "Please confirm your email address before logging in."
    ensures !Contains(message, InvalidCredentials) && !Contains(message, NotConfirmed) ==>
      shown == (if message == "" then "Login failed. Please try again." else message)
  {
    if Contains(message, InvalidCredentials) then "Invalid email or password. Please try again."
    else if Contains(message, NotConfirmed) then "Please confirm your email address before logging in."
    else if message == "" then "Login failed. Please try again."
    else message
  }

  /** A message carrying both known texts gets the credentials text, whichever comes first in it. */
  lemma {:induction false} CredentialsTestedFirst(a: string, b: string, c: string)
    ensures SignInErrorMessage(a + NotConfirmed + b + InvalidCredentials + c)
         == "Invalid email or password. Please try again."
  {
    var m := a + NotConfirmed + b + InvalidCredentials + c;
    var i := |a| + |NotConfirmed| + |b|;
    assert m[i..i + |InvalidCredentials|] == InvalidCredentials;
    assert OccursAt(m, InvalidCredentials, i);
  }

  /** An unknown non-empty message is shown verbatim. */
  lemma {:induction false} UnknownMessageShown(message: string)
    requires message != "" && !Contains(message, InvalidCredentials) && !Contains(message, NotConfirmed)
    ensures SignInErrorMessage(message) == message
  {
  }

  /**
   * The state `validateForm` and `handleLogin` expect from the login-state
   * hook. As written, the hook returns loading, email and password with their
   * setters but no error state, so `clearError` is undefined.
   */
  datatype LoginHook = LoginHook(providesErrorState: bool)

  const HookAsWritten := LoginHook(false)

  /** The first step of a submit: it throws when `clearError` is missing, and otherwise checks the form. */
  datatype ValidateStep = ThrewTypeError | Checked(error: Option<string>)

  function ValidateWithHook(hook: LoginHook, email: string, password: string): (step: ValidateStep)
    ensures !hook.providesErrorState <==> step.ThrewTypeError?
    ensures hook.providesErrorState ==> step == Checked(ValidateForm(email, password))
  {
    if !hook.providesErrorState then ThrewTypeError else Checked(ValidateForm(email, password))
  }

  /** The sign-in call a submit makes: none when validation throws or finds an error, else the trimmed email and the password. */
  function SignInRequest(hook: LoginHook, email: string, password: string): (request: Option<(string, string)>)
    ensures request.Some? <==> hook.providesErrorState && ValidateForm(email, password).None?
    ensures request.Some? ==> request.value == (Trim(email), password)
  {
    match ValidateWithHook(hook, email, password)
    case ThrewTypeError => None
    case Checked(error) => if error.None? then Some((Trim(email), password)) else None
  }

  /**
   * As written, no submit ever reaches the sign-in call, not even one whose
   * email and password pass the check and would be sent with the error state.
   */
  lemma AsWrittenNeverSignsIn()
    ensures forall email, password :: SignInRequest(HookAsWritten, email, password) == None
    ensures ValidateForm("farmer@agro.in", "secret") == None
    ensures ValidateWithHook(HookAsWritten, "farmer@agro.in", "secret") == ThrewTypeError
    ensures SignInRequest(LoginHook(true), "farmer@agro.in", "secret") == Some(("farmer@agro.in", "secret"))
  {
    assert EmailSplit("farmer@agro.in", 6, 11);
    ValidEmailIsTrimmed("farmer@agro.in");
  }

  /** With the error state provided, a well-formed submit passes the check. */
  lemma IntendedHookChecks(email: string, password: string)
    requires email != "" && password != "" && EmailPattern(email)
    ensures ValidateWithHook(LoginHook(true), email, password) == Checked(None)
  {
  }

  /** What the sign-in call gave back. */
  datatype SignInOutcome = AuthFailed(message: string) | SignedIn(hasUser: bool) | Unexpected

  const UnexpectedError := "An unexpected error occurred. Please try again."

  /** The error shown, the toast raised and whether the page navigates, after the sign-in call answered. */
  function SignInEffects(outcome: SignInOutcome): (r: (Option<string>, Option<Toast>, bool))
    ensures r.2 <==> outcome == SignedIn(true)
    ensures outcome.AuthFailed? ==>
      && r.0 == Some(SignInErrorMessage(outcome.message))
      && r.1 == Some(Toast("Login failed", "Please check your credentials and try again.", true))
    ensures outcome.SignedIn? ==>
      && r.0 == None
      && r.1 == (if outcome.hasUser then Some(Toast("Login successful", "Welcome back!", false)) else None)
    ensures outcome.Unexpected? ==> r.0 == Some(UnexpectedError) && r.1 == Some(Toast("Error", UnexpectedError, true))
  {
    match outcome
    case AuthFailed(m) =>
      (Some(SignInErrorMessage(m)), Some(Toast("Login failed", "Please check your credentials and try again.", true)), false)
    case SignedIn(hasUser) =>
      if hasUser then (None, Some(Toast("Login successful", "Welcome back!", false)), true) else (None, None, false)
    case Unexpected =>
      (Some(UnexpectedError), Some(Toast("Error", UnexpectedError, true)), false)
  }

  /** The login page's state, with the error state the handlers expect. */
  class LoginPage {
    var email: string
    var password: string
    var isLoading: bool
    var error: Option<string>

    constructor ()
      ensures email == "" && password == "" && !isLoading && error == None
    {
      email := "";
      password := "";
      isLoading := false;
      error := None;
    }

    /**
     * `handleLogin`, with the sign-in call's answer given as `outcome`. The
     * call (`request`, trimmed email and password) is made exactly when the
     * form passes; `navigate` says whether the page moves to the dashboard.
     */
    method HandleLogin(outcome: SignInOutcome) returns (request: Option<(string, string)>, toast: Option<Toast>, navigate: bool)
      modifies this
      ensures email == old(email) && password == old(password)
      ensures request.Some? <==> ValidateForm(email, password).None?
      ensures request == SignInRequest(LoginHook(true), email, password)
      ensures ValidateForm(email, password).Some? ==>
        error == ValidateForm(email, password) && toast.None? && !navigate && isLoading == old(isLoading)
      ensures ValidateForm(email, password).None? ==>
        && request == Some((Trim(email), password)) && !isLoading
        && (error, toast, navigate) == SignInEffects(outcome)
    {
      error := None;
      var check := ValidateForm(email, password);
      if check.Some? {
        error := check;
        return None, None, false;
      }
      isLoading := true;
      var typed := email;
      request := Some((Trim(typed), password));
      var effects := SignInEffects(outcome);
      error, toast, navigate := effects.0, effects.1, effects.2;
      isLoading := false;
    }
  }
}

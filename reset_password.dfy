/**
 * The password reset page: the access token read from the link, and a
 * submit handler that checks the two passwords, the length and the token,
 * in that order, before asking the backend to update the password. The
 * backend's answer is a parameter.
 */
module ResetPassword {
  import opened Wrappers

  const Mismatch := "Passwords do not match"
  const TooShort := "Password must be at least 6 characters long"
  const NoToken := "No access token found. Please use the link from the email."
  const NoTokenInUrl := "No access token found in URL. Please use the complete link from the email."
  const UpdateFallback := "Failed to reset password. Please try again."

  /** The shortest password accepted. */
  const MinPasswordLength := 6

  /** `!accessToken`: no token, or an empty one. */
  predicate MissingToken(token: Option<string>) {
    token.None? || token.value == ""
  }

  /**
   * The three checks of `handleResetPassword` in order; `None` when the
   * password update may be attempted.
   */
  function CheckReset(password: string, confirmPassword: string, token: Option<string>): (error: Option<string>)
    ensures error.None? <==> password == confirmPassword && |password| >= MinPasswordLength && !MissingToken(token)
    ensures password != confirmPassword ==> error == Some(Mismatch)
    ensures password == confirmPassword && |password| < MinPasswordLength ==> error == Some(TooShort)
    ensures error == Some(NoToken) <==>
      password == confirmPassword && |password| >= MinPasswordLength && MissingToken(token)
  {
    if password != confirmPassword then Some(Mismatch)
    else if |password| < MinPasswordLength then Some(TooShort)
    else if MissingToken(token) then Some(NoToken)
    else None
  }

  /** A password of exactly six characters passes the length check. */
  lemma {:induction false} SixIsEnough(password: string, token: Option<string>)
    requires |password| == 6 && !MissingToken(token)
    ensures CheckReset(password, password, token) == None
  {
  }

  /** A missing token is reported only once both password checks pass: a bad password pair hides it. */
  lemma {:induction false} TokenCheckedLast(password: string, confirmPassword: string)
    requires password != confirmPassword || |password| < MinPasswordLength
    ensures CheckReset(password, confirmPassword, None) == CheckReset(password, confirmPassword, Some("t"))
  {
  }

  /** The backend's answer to the password update: an error carrying a message, or success. */
  datatype UpdateOutcome = UpdateFailed(message: string) | Updated

  /** The reset page's state. */
  class ResetPasswordPage {
    var password: string
    var confirmPassword: string
    var isLoading: bool
    var accessToken: Option<string>
    var error: Option<string>

    /** The effect on the link: remember its token, and report a missing one. */
    constructor (token: Option<string>)
      ensures password == "" && confirmPassword == "" && !isLoading
      ensures accessToken == token
      ensures error == (if MissingToken(token) then Some(NoTokenInUrl) else None)
    {
      password := "";
      confirmPassword := "";
      isLoading := false;
      accessToken := token;
      error := if MissingToken(token) then Some(NoTokenInUrl) else None;
    }

    /**
     * `handleResetPassword`, with the update's answer given as `outcome`. The
     * error is cleared first; the update is attempted (`attempted`) exactly
     * when the checks pass; `toLogin` says whether the page moves to login.
     */
    method HandleResetPassword(outcome: UpdateOutcome) returns (attempted: bool, toLogin: bool, toast: Option<Toast>)
      modifies this
      ensures password == old(password) && confirmPassword == old(confirmPassword) && accessToken == old(accessToken)
      ensures attempted <==> CheckReset(password, confirmPassword, accessToken).None?
      ensures !attempted ==>
        error == CheckReset(password, confirmPassword, accessToken) && !toLogin && toast.None? && isLoading == old(isLoading)
      ensures attempted ==> !isLoading && (toLogin <==> outcome.Updated?)
      ensures attempted && outcome.Updated? ==>
        error == None && toast == Some(Toast("Password updated successfully", "You can now sign in with your new password", false))
      ensures attempted && outcome.UpdateFailed? ==>
        && error == Some(if outcome.message == "" then UpdateFallback else outcome.message)
        && toast == Some(Toast("Password reset failed",
                               if outcome.message == "" then "An error occurred. Please try again." else outcome.message, true))
    {
      error := None;
      var check := CheckReset(password, confirmPassword, accessToken);
      if check.Some? {
        error := check;
        return false, false, None;
      }
      attempted := true;
      isLoading := true;
      match outcome {
        case Updated =>
          toast := Some(Toast("Password updated successfully", "You can now sign in with your new password", false));
          toLogin := true;
        case UpdateFailed(m) =>
          error := Some(if m == "" then UpdateFallback else m);
          toast := Some(Toast("Password reset failed", if m == "" then "An error occurred. Please try again." else m, true));
          toLogin := false;
      }
      isLoading := false;
    }
  }
}

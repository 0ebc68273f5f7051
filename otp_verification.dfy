/**
 * Classifying the answer to an OTP check. The backend call itself is not
 * modelled: its answer (an error message and a user, either possibly absent,
 * or an exception) is the input. The user type is left abstract.
 */
module OtpVerification {
  import opened Wrappers
  import opened Text

  const ExpiredText := "OTP has expired. Please request a new one."
  const InvalidText := "Invalid OTP. Please try again."
  const FailedText := "Verification failed. Please try again."
  const UnexpectedText := "An unexpected error occurred. Please try again."

  /** What the verification call did: answered with an optional error and an optional user, or threw. */
  datatype VerifyResponse<U> = Answered(error: Option<string>, user: Option<U>) | Threw

  /** `{ success: true, user }` or `{ success: false, error }`. */
  datatype VerificationResult<U> = Verified(user: U) | Rejected(error: string)

  /**
   * The message for a verification error, matched on its lower-cased text:
   * "expired" is tested before "invalid".
   */
  function ClassifyError(message: string): (text: string)
    ensures Contains(ToLower(message), "expired") ==> text == ExpiredText
    ensures !Contains(ToLower(message), "expired") && Contains(ToLower(message), "invalid") ==> text == InvalidText
    ensures !Contains(ToLower(message), "expired") && !Contains(ToLower(message), "invalid") ==> text == FailedText
  {
    var lower := ToLower(message);
    if Contains(lower, "expired") then ExpiredText
    else if Contains(lower, "invalid") then InvalidText
    else FailedText
  }

  /** `handleOTPVerification` on the call's answer. */
  function HandleOtpVerification<U>(response: VerifyResponse<U>): (r: VerificationResult<U>)
    ensures response.Threw? ==> r == Rejected(UnexpectedText)
    ensures response.Answered? && response.error.Some? ==> r == Rejected(ClassifyError(response.error.value))
    ensures response.Answered? && response.error.None? ==>
      r == (if response.user.Some? then Verified(response.user.value) else Rejected(FailedText))
    ensures r.Verified? <==> response.Answered? && response.error.None? && response.user.Some?
  {
    match response
    case Threw => Rejected(UnexpectedText)
    case Answered(error, user) =>
      if error.Some? then Rejected(ClassifyError(error.value))
      else if user.Some? then Verified(user.value)
      else Rejected(FailedText)
  }

  /** An error always rejects, even when a user came with it. */
  lemma {:induction false} ErrorWinsOverUser<U>(message: string, user: U)
    ensures HandleOtpVerification(Answered(Some(message), Some(user))).Rejected?
  {
  }

  /** Lower-casing a lower-cased character changes nothing. */
  lemma LowerCharIdempotent(c: char)
    ensures LowerChar(LowerChar(c)) == LowerChar(c)
  {
    if 'A' <= c <= 'Z' {
      assert 'a' <= LowerChar(c) <= 'z';
    }
  }

  /** Lower-casing is idempotent. */
  lemma {:induction false} ToLowerIdempotent(s: string)
    ensures ToLower(ToLower(s)) == ToLower(s)
  {
    var t := ToLower(s);
    forall i | 0 <= i < |s| ensures ToLower(t)[i] == t[i] {
      LowerCharIdempotent(s[i]);
    }
  }

  /** Matching ignores case: a message and its lower-cased form get the same text. */
  lemma {:induction false} CaseInsensitive(message: string)
    ensures ClassifyError(ToLower(message)) == ClassifyError(message)
  {
    ToLowerIdempotent(message);
  }

  /** A word written in any case inside a message shows up in lower case in the lower-cased message. */
  lemma {:induction false} LowerOccurrence(a: string, w: string, b: string, lw: string)
    requires lw == ToLower(w)
    ensures OccursAt(ToLower(a + w + b), lw, |a|)
  {
    var m := a + w + b;
    var l := ToLower(m);
    forall i | 0 <= i < |w| ensures l[|a| + i] == lw[i] {
      assert m[|a| + i] == w[i];
    }
    assert l[|a|..|a| + |lw|] == lw;
  }

  /** A message saying both "EXPIRED" and "invalid", in any case, gets the expiry text. */
  lemma {:induction false} ExpiredTestedFirst(a: string, b: string, c: string)
    ensures ClassifyError(a + "EXPIRED" + b + "Invalid" + c) == ExpiredText
  {
    var m := a + "EXPIRED" + (b + "Invalid" + c);
    assert a + "EXPIRED" + b + "Invalid" + c == m;
    LowerOccurrence(a, "EXPIRED", b + "Invalid" + c, "expired");
  }
}

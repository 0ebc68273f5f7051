/**
 * Normalising an Indian phone number before an OTP is requested: keep the
 * digits, make sure they start with the country code 91, and prefix '+'.
 */
module Phone {
  import opened Text

  /** `s.replace(/\D/g, '')`: the ASCII digits of `s`, in order. */
  function DigitsOf(s: string): (d: string)
    ensures AllDigits(d)
    ensures |d| <= |s|
    ensures AllDigits(s) ==> d == s
    decreases |s|
  {
    if s == [] then []
    else if IsDigit(s[0]) then [s[0]] + DigitsOf(s[1..])
    else DigitsOf(s[1..])
  }

  /** Removing non-digits distributes over concatenation. */
  lemma {:induction false} DigitsOfAppend(a: string, b: string)
    ensures DigitsOf(a + b) == DigitsOf(a) + DigitsOf(b)
    decreases |a|
  {
    if a != [] {
      assert (a + b)[0] == a[0] && (a + b)[1..] == a[1..] + b;
      DigitsOfAppend(a[1..], b);
    } else {
      assert a + b == b;
    }
  }

  /**
   * Each character of `s` stands for itself in the digits, at its place, when
   * it is a digit, and is dropped otherwise.
   */
  lemma {:induction false} DigitsOfSplit(s: string, i: nat)
    requires i < |s|
    ensures DigitsOf(s) == DigitsOf(s[..i]) + (if IsDigit(s[i]) then [s[i]] else []) + DigitsOf(s[i + 1..])
  {
    assert s == s[..i] + [s[i]] + s[i + 1..];
    DigitsOfAppend(s[..i] + [s[i]], s[i + 1..]);
    DigitsOfAppend(s[..i], [s[i]]);
    assert [s[i]][1..] == [];
  }

  /** `digits.startsWith('91')`. */
  predicate StartsWith91(d: string) {
    |d| >= 2 && d[0] == '9' && d[1] == '1'
  }

  /** `formatPhoneNumber`: '+' and the digits, with "91" put in front when they do not already start with it. */
  function FormatPhoneNumber(phone: string): (r: string)
    ensures |r| >= 3 && r[0] == '+' && AllDigits(r[1..]) && StartsWith91(r[1..])
    ensures StartsWith91(DigitsOf(phone)) ==> r == "+" + DigitsOf(phone)
    ensures !StartsWith91(DigitsOf(phone)) ==> r == "+91" + DigitsOf(phone)
  {
    var digits := DigitsOf(phone);
    if !StartsWith91(digits) then
      assert ("+91" + digits)[1..] == "91" + digits;
      "+91" + digits
    else
      assert ("+" + digits)[1..] == digits;
      "+" + digits
  }

  /** The digits of a formatted number are the phone's digits, after a "91" prefix when it lacked one. */
  lemma {:induction false} FormattedDigits(phone: string)
    ensures DigitsOf(FormatPhoneNumber(phone)) == FormatPhoneNumber(phone)[1..]
  {
    var r := FormatPhoneNumber(phone);
    assert r == [r[0]] + r[1..];
    DigitsOfAppend([r[0]], r[1..]);
    assert DigitsOf([r[0]]) == [] by {
      assert [r[0]][1..] == [];
    }
  }

  /** Formatting a formatted number returns it unchanged. */
  lemma {:induction false} FormatIdempotent(phone: string)
    ensures FormatPhoneNumber(FormatPhoneNumber(phone)) == FormatPhoneNumber(phone)
  {
    var r := FormatPhoneNumber(phone);
    FormattedDigits(phone);
    assert r == "+" + r[1..];
  }

  /** Input with no digits formats to the bare country code. */
  lemma {:induction false} NoDigitsGivesCountryCode(phone: string)
    requires forall i :: 0 <= i < |phone| ==> !IsDigit(phone[i])
    ensures FormatPhoneNumber(phone) == "+91"
    decreases |phone|
  {
    assert DigitsOf(phone) == [] by {
      EmptyDigits(phone);
    }
  }

  lemma {:induction false} EmptyDigits(s: string)
    requires forall i :: 0 <= i < |s| ==> !IsDigit(s[i])
    ensures DigitsOf(s) == []
    decreases |s|
  {
    if s != [] {
      EmptyDigits(s[1..]);
    }
  }

  /** The result depends on the phone's digits alone. */
  lemma {:induction false} SameDigitsSameFormat(x: string, y: string)
    requires DigitsOf(x) == DigitsOf(y)
    ensures FormatPhoneNumber(x) == FormatPhoneNumber(y)
  {
  }

  /** Dropping one non-digit leaves the digits as they were. */
  lemma {:induction false} DigitsSkipSeparator(a: string, c: char, b: string)
    requires !IsDigit(c)
    ensures DigitsOf(a + [c] + b) == DigitsOf(a + b)
  {
    DigitsOfAppend(a + [c], b);
    DigitsOfAppend(a, [c]);
    DigitsOfAppend(a, b);
    assert [c][1..] == [];
    assert DigitsOf([c]) == [];
  }

  /** A separator (a space, a '-', a '+') anywhere in the input does not change the result. */
  lemma {:induction false} SeparatorIgnored(a: string, c: char, b: string)
    requires !IsDigit(c)
    ensures FormatPhoneNumber(a + [c] + b) == FormatPhoneNumber(a + b)
  {
    DigitsSkipSeparator(a, c, b);
    SameDigitsSameFormat(a + [c] + b, a + b);
  }
}

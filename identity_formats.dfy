/**
 * The Aadhar and PAN number checks shared by the profile and registration
 * pages. Both fields are optional: an empty value is never checked. The
 * regular expressions are restated twice, once as plain character
 * predicates and once as a small anchored matcher over the patterns as they
 * are written, and the two are proved to agree.
 */
module IdentityFormats {
  import opened Wrappers
  import opened Text

  /** `/^\d{12}$/`: exactly twelve ASCII digits. */
  predicate IsAadhar(s: string) {
    |s| == 12 && AllDigits(s)
  }

  /** `/^[A-Z]{5}[0-9]{4}[A-Z]{1}$/`: five capitals, four digits, one capital. */
  predicate IsPan(s: string) {
    && |s| == 10
    && (forall i :: 0 <= i < 5 ==> IsUpper(s[i]))
    && (forall i :: 5 <= i < 9 ==> IsDigit(s[i]))
    && IsUpper(s[9])
  }

  /** The character classes the two patterns use. */
  datatype CharClass = Digit | Capital

  predicate InClass(c: char, k: CharClass) {
    match k
    case Digit => IsDigit(c)
    case Capital => IsUpper(c)
  }

  /** A pattern as written: a run of classes, each repeated a fixed number of times (`[A-Z]{5}` is `(Capital, 5)`). */
  type Pattern = seq<(CharClass, nat)>

  /** Whether the first `n` characters of `s` all belong to class `k`. */
  predicate RunOf(s: string, k: CharClass, n: nat)
    requires n <= |s|
  {
    forall i :: 0 <= i < n ==> InClass(s[i], k)
  }

  /** Anchored match of a whole string against a pattern, run by run. */
  predicate Matches(p: Pattern, s: string)
    decreases |p|
  {
    if p == [] then s == []
    else p[0].1 <= |s| && RunOf(s, p[0].0, p[0].1) && Matches(p[1..], s[p[0].1..])
  }

  const AadharPattern: Pattern := [(Digit, 12)]
  const PanPattern: Pattern := [(Capital, 5), (Digit, 4), (Capital, 1)]

  /** The Aadhar predicate is exactly the pattern `\d{12}` with anchors. */
  lemma AadharPatternAgrees(s: string)
    ensures Matches(AadharPattern, s) <==> IsAadhar(s)
  {
    assert AadharPattern[1..] == [];
    if |s| >= 12 {
      assert Matches(AadharPattern, s) <==> RunOf(s, Digit, 12) && s[12..] == [];
    }
  }

  /** The PAN predicate is exactly the pattern `[A-Z]{5}[0-9]{4}[A-Z]{1}` with anchors. */
  lemma PanPatternAgrees(s: string)
    ensures Matches(PanPattern, s) <==> IsPan(s)
  {
    var p1 := PanPattern[1..];
    var p2 := p1[1..];
    assert p1 == [(Digit, 4), (Capital, 1)];
    assert p2 == [(Capital, 1)] && p2[1..] == [];
    if |s| >= 5 {
      var t1 := s[5..];
      if |t1| >= 4 {
        var t2 := t1[4..];
        assert forall i :: 0 <= i < 4 ==> t1[i] == s[5 + i];
        if |t2| >= 1 {
          assert t2[0] == s[9];
          assert Matches(p2, t2) <==> IsUpper(t2[0]) && t2[1..] == [];
          assert Matches(p1, t1) <==> RunOf(t1, Digit, 4) && Matches(p2, t2);
          assert RunOf(t1, Digit, 4) <==> forall i :: 5 <= i < 9 ==> IsDigit(s[i]) by {
            if RunOf(t1, Digit, 4) {
              forall i | 5 <= i < 9 ensures IsDigit(s[i]) {
                assert InClass(t1[i - 5], Digit);
              }
            }
          }
          assert |t2| == 1 <==> |s| == 10;
        } else {
          assert !Matches(p2, t2);
        }
      }
    }
  }

  /** Which of the two checks rejected the input. */
  datatype IdentityError = InvalidAadhar | InvalidPan

  /** An empty value is accepted: the check runs only on a non-empty field. */
  predicate AadharAccepted(s: string) { s == "" || IsAadhar(s) }
  predicate PanAccepted(s: string) { s == "" || IsPan(s) }

  /**
   * The two checks in the order both pages run them: Aadhar first, so a form
   * with both fields wrong reports only the Aadhar error.
   */
  function CheckIdentity(aadhar: string, pan: string): (r: Option<IdentityError>)
    ensures r.None? <==> AadharAccepted(aadhar) && PanAccepted(pan)
    ensures r == Some(InvalidAadhar) <==> !AadharAccepted(aadhar)
    ensures r == Some(InvalidPan) <==> AadharAccepted(aadhar) && !PanAccepted(pan)
  {
    if aadhar != "" && !IsAadhar(aadhar) then Some(InvalidAadhar)
    else if pan != "" && !IsPan(pan) then Some(InvalidPan)
    else None
  }

  /** The toast each error raises (title and description, destructive). */
  function ErrorToast(e: IdentityError): (t: Toast)
    ensures t.destructive
    ensures e.InvalidAadhar? ==> t.title == "Invalid Aadhar Number"
    ensures e.InvalidPan? ==> t.title == "Invalid PAN Number"
  {
    match e
    case InvalidAadhar => Toast("Invalid Aadhar Number", "Please enter a valid 12-digit Aadhar number", true)
    case InvalidPan => Toast("Invalid PAN Number", "Please enter a valid PAN number (e.g., ABCDE1234F)", true)
  }

  /** A PAN holds no lower-case letter, so a PAN typed in lower case is rejected as it stands. */
  lemma PanHasNoLowercase(s: string)
    requires IsPan(s)
    ensures forall i :: 0 <= i < |s| ==> !IsLower(s[i])
  {
    forall i | 0 <= i < |s| ensures !IsLower(s[i]) {
      if i < 5 || i == 9 { assert IsUpper(s[i]); } else { assert IsDigit(s[i]); }
    }
  }

  /**
   * A PAN whose letters are typed in either case: five letters, four digits
   * and a letter.
   */
  predicate IsPanIgnoringCase(s: string) {
    && |s| == 10
    && (forall i :: 0 <= i < 5 ==> IsUpper(s[i]) || IsLower(s[i]))
    && (forall i :: 5 <= i < 9 ==> IsDigit(s[i]))
    && (IsUpper(s[9]) || IsLower(s[9]))
  }

  /** Upper-casing a PAN typed in either case yields a PAN. */
  lemma UppercasedPan(s: string)
    requires IsPanIgnoringCase(s)
    ensures IsPan(ToUpper(s))
  {
    var u := ToUpper(s);
    forall i | 0 <= i < 5 ensures IsUpper(u[i]) {
      assert u[i] == UpperChar(s[i]);
    }
    forall i | 5 <= i < 9 ensures IsDigit(u[i]) {
      assert u[i] == UpperChar(s[i]);
    }
    assert u[9] == UpperChar(s[9]);
  }
}

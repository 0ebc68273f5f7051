/**
 * The six-slot OTP input. Each slot edit splits the OTP string into an array
 * of characters, assigns the slot, and joins the array back; holes left by an
 * assignment past the end join as empty strings. Focus moves forward after a
 * digit and backward on Backspace in an empty slot.
 */
module OtpForm {
  import opened Wrappers

  /** The number of slots. */
  const OtpLength := 6

  /** `if (value.length > 1) value = value[0]`: at most one character is kept. */
  function Cut(value: string): (v: string)
    ensures |v| <= 1
    ensures |value| <= 1 ==> v == value
    ensures |value| > 1 ==> v == [value[0]]
  {
    if |value| > 1 then [value[0]] else value
  }

  /** `array.join('')`: the elements concatenated in order. */
  function Join(parts: seq<string>): string
    decreases |parts|
  {
    if parts == [] then "" else Join(parts[..|parts| - 1]) + parts[|parts| - 1]
  }

  /**
   * The array after `otp.split('')` and `newOTP[index] = v`: one-character
   * strings for the characters, `v` at `index`, and holes (which join as
   * empty strings) between the old end and `index`.
   */
  function Slots(otp: string, index: nat, v: string): (slots: seq<string>)
    ensures |slots| == if index < |otp| then |otp| else index + 1
    ensures slots[index] == v
  {
    var n := if index < |otp| then |otp| else index + 1;
    seq(n, k requires 0 <= k < n => if k == index then v else if k < |otp| then [otp[k]] else "")
  }

  /**
   * The OTP after writing `v` (at most one character) into slot `index`.
   * Within the OTP, a character replaces that position and the empty string
   * deletes it, shifting the later digits left; past the end, the character
   * is appended.
   */
  function EditSlot(otp: string, index: nat, v: string): (r: string)
    requires |v| <= 1
    ensures index < |otp| && |v| == 1 ==>
      |r| == |otp| && r[index] == v[0] && forall k :: 0 <= k < |otp| && k != index ==> r[k] == otp[k]
    ensures index < |otp| && v == "" ==>
      && |r| == |otp| - 1
      && (forall k :: 0 <= k < index ==> r[k] == otp[k])
      && (forall k :: index <= k < |r| ==> r[k] == otp[k + 1])
    ensures index >= |otp| ==> r == otp + v
  {
    if index < |otp| then otp[..index] + v + otp[index + 1..] else otp + v
  }

  /** Joining distributes over concatenation. */
  lemma {:induction false} JoinAppend(a: seq<string>, b: seq<string>)
    ensures Join(a + b) == Join(a) + Join(b)
    decreases |b|
  {
    if b == [] {
      assert a + b == a;
    } else {
      var c := a + b;
      assert c[..|c| - 1] == a + b[..|b| - 1];
      JoinAppend(a, b[..|b| - 1]);
    }
  }

  /** Joining the characters of a string, one per element, gives the string back. */
  lemma {:induction false} JoinChars(s: string, parts: seq<string>)
    requires |parts| == |s| && forall k :: 0 <= k < |s| ==> parts[k] == [s[k]]
    ensures Join(parts) == s
    decreases |s|
  {
    if s != [] {
      var m := |s| - 1;
      JoinChars(s[..m], parts[..m]);
      assert s == s[..m] + [s[m]];
    }
  }

  /** Joining holes gives the empty string. */
  lemma {:induction false} JoinHoles(parts: seq<string>)
    requires forall k :: 0 <= k < |parts| ==> parts[k] == ""
    ensures Join(parts) == ""
    decreases |parts|
  {
    if parts != [] {
      JoinHoles(parts[..|parts| - 1]);
    }
  }

  /** An assignment inside the string: the characters before, the new value, the characters after. */
  lemma {:induction false} JoinSlotsInside(otp: string, index: nat, v: string)
    requires |v| <= 1 && index < |otp|
    ensures Join(Slots(otp, index, v)) == otp[..index] + v + otp[index + 1..]
  {
    var slots := Slots(otp, index, v);
    var before, after := slots[..index], slots[index + 1..];
    assert slots == before + [v] + after;
    JoinChars(otp[..index], before);
    JoinChars(otp[index + 1..], after);
    JoinAppend(before + [v], after);
    JoinAppend(before, [v]);
    assert Join([v]) == Join([]) + v;
  }

  /** An assignment past the end: the characters, the holes, the new value. */
  lemma {:induction false} JoinSlotsPastEnd(otp: string, index: nat, v: string)
    requires |v| <= 1 && index >= |otp|
    ensures Join(Slots(otp, index, v)) == otp + v
  {
    var slots := Slots(otp, index, v);
    var front := slots[..index];
    var chars, holes := front[..|otp|], front[|otp|..];
    assert front == chars + holes;
    assert slots == front + [v];
    assert forall k :: 0 <= k < |otp| ==> chars[k] == slots[k] == [otp[k]];
    JoinChars(otp, chars);
    assert forall k :: 0 <= k < |holes| ==> holes[k] == slots[|otp| + k] == "";
    JoinHoles(holes);
    JoinAppend(chars, holes);
    assert Join(front) == otp + "" == otp;
    assert slots[..|slots| - 1] == front;
    assert Join(slots) == Join(front) + v;
  }

  /** Split, assign and join is exactly the slot edit. */
  lemma {:induction false} JoinSlots(otp: string, index: nat, v: string)
    requires |v| <= 1
    ensures Join(Slots(otp, index, v)) == EditSlot(otp, index, v)
  {
    if index < |otp| {
      JoinSlotsInside(otp, index, v);
    } else {
      JoinSlotsPastEnd(otp, index, v);
    }
  }

  /** `inputRefs[index + 1].focus()` when a character was entered below the last slot. */
  function NextFocus(index: nat, v: string): (f: Option<nat>)
    ensures f.Some? <==> v != "" && index < OtpLength - 1
    ensures f.Some? ==> f.value == index + 1
  {
    if v != "" && index < OtpLength - 1 then Some(index + 1) else None
  }

  /** `otp.split('')` followed by `newOTP[index] = v`, on a fresh array. */
  method SplitAssign(otp: string, index: nat, v: string) returns (slots: array<string>)
    ensures fresh(slots)
    ensures slots[..] == Slots(otp, index, v)
  {
    var n := if index < |otp| then |otp| else index + 1;
    slots := new string[n];
    var i := 0;
    while i < n
      invariant 0 <= i <= n
      invariant forall k :: 0 <= k < i ==> slots[k] == if k < |otp| then [otp[k]] else ""
    {
      slots[i] := if i < |otp| then [otp[i]] else "";
      i := i + 1;
    }
    slots[index] := v;
    assert slots[..] == Slots(otp, index, v) by {
      var expected := Slots(otp, index, v);
      assert slots.Length == |expected|;
      forall k | 0 <= k < n ensures slots[k] == expected[k] {
      }
    }
  }

  /** `array.join('')`, element by element. */
  method JoinAll(parts: seq<string>) returns (joined: string)
    ensures joined == Join(parts)
  {
    joined := "";
    var i := 0;
    while i < |parts|
      invariant 0 <= i <= |parts|
      invariant joined == Join(parts[..i])
    {
      assert parts[..i + 1][..i] == parts[..i];
      joined := joined + parts[i];
      i := i + 1;
    }
    assert parts[..i] == parts;
  }

  /**
   * `handleChange(index, value)`: the new OTP, built as the page builds it
   * on an array, and the slot that receives focus.
   */
  method HandleChange(otp: string, index: nat, value: string) returns (newOtp: string, focus: Option<nat>)
    ensures newOtp == EditSlot(otp, index, Cut(value))
    ensures focus == NextFocus(index, Cut(value))
  {
    var v := Cut(value);
    var slots := SplitAssign(otp, index, v);
    newOtp := JoinAll(slots[..]);
    JoinSlots(otp, index, v);
    focus := NextFocus(index, v);
  }

  /** `otp[index] || ''`: what slot `index` shows. */
  function SlotValue(otp: string, index: nat): (s: string)
    ensures index < |otp| ==> s == [otp[index]]
    ensures index >= |otp| ==> s == ""
  {
    if index < |otp| then [otp[index]] else ""
  }

  /** After a one-character edit inside the OTP, the slot shows that character and the others are unchanged. */
  lemma {:induction false} EditShowsInSlot(otp: string, index: nat, c: char)
    requires index < |otp|
    ensures SlotValue(EditSlot(otp, index, [c]), index) == [c]
    ensures forall k: nat :: k < |otp| && k != index ==> SlotValue(EditSlot(otp, index, [c]), k) == SlotValue(otp, k)
  {
  }

  /** Clearing a middle slot of a full OTP shifts the later digits into it, leaving five characters. */
  lemma ClearingShifts()
    ensures EditSlot("123456", 2, "") == "12456"
  {
  }

  /** Typing into a slot past the end appends, so the digit lands in the first free slot, not the one typed in. */
  lemma TypingPastTheEndAppends()
    ensures EditSlot("12", 4, "7") == "127"
    ensures SlotValue(EditSlot("12", 4, "7"), 4) == ""
  {
  }

  /** `handleKeyDown`: Backspace in an empty slot other than the first moves focus back one slot. */
  function BackspaceFocus(otp: string, index: nat, key: string): (f: Option<nat>)
    ensures f.Some? <==> key == "Backspace" && SlotValue(otp, index) == "" && index > 0
    ensures f.Some? ==> f.value + 1 == index
  {
    if key == "Backspace" && index >= |otp| && index > 0 then Some(index - 1) else None
  }

  /** The submit button is enabled when not loading and all six digits are in. */
  function CanSubmit(isLoading: bool, otp: string): (enabled: bool)
    ensures enabled <==> !isLoading && |otp| == OtpLength
  {
    !(isLoading || |otp| != OtpLength)
  }

  /** The resend button is enabled when not loading and the resend timer is not running. */
  function CanResend(isLoading: bool, resendDisabled: bool): (enabled: bool)
    ensures enabled <==> !isLoading && !resendDisabled
  {
    !(isLoading || resendDisabled)
  }

  /** Clearing a slot of a full OTP disables submit. */
  lemma {:induction false} ClearingDisablesSubmit(otp: string, index: nat)
    requires |otp| == OtpLength && index < OtpLength
    ensures !CanSubmit(false, EditSlot(otp, index, ""))
  {
  }
}

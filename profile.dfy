/**
 * The profile page: the profile shown, an edited copy, and a small view/edit
 * state machine with save (which checks Aadhar and PAN first), cancel and
 * per-field edit. The signed-in user's record is read from the account's
 * metadata, with an absent value read as the empty string.
 */
module Profile {
  import opened Wrappers
  import opened Text
  import opened IdentityFormats

  /** The five profile fields. */
  datatype ProfileData = ProfileData(
    fullName: string,
    email: string,
    phone: string,
    aadharNumber: string,
    panNumber: string)

  datatype ProfileField = FullName | Email | Phone | AadharNumber | PanNumber

  const EmptyProfile := ProfileData("", "", "", "", "")

  /** Reading one field of a profile. */
  function FieldOf(p: ProfileData, f: ProfileField): string {
    match f
    case FullName => p.fullName
    case Email => p.email
    case Phone => p.phone
    case AadharNumber => p.aadharNumber
    case PanNumber => p.panNumber
  }

  /** `{ ...prev, [field]: value }`: one field replaced, the others kept. */
  function WithField(p: ProfileData, f: ProfileField, value: string): (q: ProfileData)
    ensures FieldOf(q, f) == value
    ensures forall g :: g != f ==> FieldOf(q, g) == FieldOf(p, g)
  {
    match f
    case FullName => p.(fullName := value)
    case Email => p.(email := value)
    case Phone => p.(phone := value)
    case AadharNumber => p.(aadharNumber := value)
    case PanNumber => p.(panNumber := value)
  }

  /** Setting a field to the value it already holds changes nothing. */
  lemma {:induction false} WithFieldSameValue(p: ProfileData, f: ProfileField)
    ensures WithField(p, f, FieldOf(p, f)) == p
  {
    var q := WithField(p, f, FieldOf(p, f));
    assert forall g :: FieldOf(q, g) == FieldOf(p, g);
    assert q.fullName == FieldOf(q, FullName) && q.email == FieldOf(q, Email) && q.phone == FieldOf(q, Phone);
    assert q.aadharNumber == FieldOf(q, AadharNumber) && q.panNumber == FieldOf(q, PanNumber);
  }

  /** The signed-in account: its email and metadata, with `""` for an absent value. */
  datatype User = User(
    email: string,
    fullName: string,
    phone: string,
    aadharNumber: string,
    panNumber: string)

  /** `email.split('@')[0]`: the text before the first '@', or the whole email when it has none. */
  function EmailLocalPart(email: string): (r: string)
    ensures r <= email
    ensures '@' !in r
    ensures |r| < |email| ==> email[|r|] == '@'
  {
    if email == [] || email[0] == '@' then []
    else [email[0]] + EmailLocalPart(email[1..])
  }

  /**
   * The name shown: the metadata's full name when it is non-empty, else the
   * email's local part when that is non-empty, else "User".
   */
  function DisplayName(u: User): (name: string)
    ensures name != ""
    ensures u.fullName != "" ==> name == u.fullName
    ensures u.fullName == "" && EmailLocalPart(u.email) != "" ==> name == EmailLocalPart(u.email)
    ensures u.fullName == "" && EmailLocalPart(u.email) == "" ==> name == "User"
  {
    if u.fullName != "" then u.fullName
    else if EmailLocalPart(u.email) != "" then EmailLocalPart(u.email)
    else "User"
  }

  /** An email that starts with '@' (or is empty) and no full name fall back to "User". */
  lemma {:induction false} NoNameFallsBackToUser(u: User)
    requires u.fullName == "" && (u.email == "" || u.email[0] == '@')
    ensures DisplayName(u) == "User"
  {
    assert EmailLocalPart(u.email) == "";
  }

  /** The local part of an email `local + "@" + domain` whose local part holds no '@'. */
  lemma {:induction false} LocalPartOfAddress(local: string, domain: string)
    requires '@' !in local
    ensures EmailLocalPart(local + "@" + domain) == local
    decreases |local|
  {
    var e := local + "@" + domain;
    if local == [] {
      assert e[0] == '@';
    } else {
      assert e[0] == local[0];
      assert e[1..] == local[1..] + "@" + domain;
      LocalPartOfAddress(local[1..], domain);
    }
  }

  /** The profile read from the signed-in account. */
  function ProfileOf(u: User): (p: ProfileData)
    ensures p.fullName == DisplayName(u)
    ensures p.email == u.email && p.phone == u.phone
    ensures p.aadharNumber == u.aadharNumber && p.panNumber == u.panNumber
  {
    ProfileData(DisplayName(u), u.email, u.phone, u.aadharNumber, u.panNumber)
  }

  /** The value an input hands to `handleChange`: the PAN input upper-cases what is typed. */
  function InputValue(f: ProfileField, typed: string): (v: string)
    ensures f != PanNumber ==> v == typed
    ensures f == PanNumber ==> v == ToUpper(typed)
    ensures f == PanNumber ==> |v| == |typed| && forall i :: 0 <= i < |v| ==> !IsLower(v[i])
  {
    if f == PanNumber then ToUpper(typed) else typed
  }

  /** A PAN typed in lower case on this page passes the PAN check once the input has upper-cased it. */
  lemma {:induction false} TypedPanAccepted(typed: string)
    requires IsPanIgnoringCase(typed)
    ensures PanAccepted(InputValue(PanNumber, typed))
  {
    UppercasedPan(typed);
  }

  /** The result of `handleSave` as a toast. */
  const SavedToast := Toast("Success", "Profile updated successfully", false)
  /** `handleSave` before any profile was loaded: reading a field of `null` throws and is caught. */
  const FailedToast := Toast("Error", "Failed to update profile information", true)

  /** The profile page's state. */
  class ProfilePage {
    var profile: ProfileData
    /** `null` until a user is loaded or a field is edited. */
    var editedProfile: Option<ProfileData>
    var isEditing: bool
    var isLoading: bool

    /** Opening the page: an empty profile, nothing edited, not editing. */
    constructor ()
      ensures profile == EmptyProfile && editedProfile == None
      ensures !isEditing && !isLoading
    {
      profile := EmptyProfile;
      editedProfile := None;
      isEditing := false;
      isLoading := false;
    }

    /** The effect on a change of user: a signed-in user fills both copies; loading ends either way. */
    method LoadUser(user: Option<User>)
      modifies this
      ensures user.Some? ==> profile == ProfileOf(user.value) && editedProfile == Some(ProfileOf(user.value))
      ensures user.None? ==> profile == old(profile) && editedProfile == old(editedProfile)
      ensures isEditing == old(isEditing) && !isLoading
    {
      if user.Some? {
        profile := ProfileOf(user.value);
        editedProfile := Some(ProfileOf(user.value));
      }
      isLoading := false;
    }

    /** The "Edit Profile" button. */
    method BeginEdit()
      modifies this
      ensures isEditing
      ensures profile == old(profile) && editedProfile == old(editedProfile) && isLoading == old(isLoading)
    {
      isEditing := true;
    }

    /**
     * `handleSave`: check Aadhar then PAN on the edited copy; on success it
     * becomes the profile and editing ends. A failed check, or no edited copy
     * at all, leaves the profile and the editing flag as they were. Loading
     * is off afterwards on every path.
     */
    method HandleSave() returns (toast: Toast)
      modifies this
      ensures editedProfile == old(editedProfile) && !isLoading
      ensures old(editedProfile).None? ==>
        toast == FailedToast && profile == old(profile) && isEditing == old(isEditing)
      ensures old(editedProfile).Some? ==> var e := old(editedProfile).value;
        match CheckIdentity(e.aadharNumber, e.panNumber)
        case Some(err) => toast == ErrorToast(err) && profile == old(profile) && isEditing == old(isEditing)
        case None => toast == SavedToast && profile == e && !isEditing
    {
      isLoading := true;
      if editedProfile.None? {
        toast := FailedToast;
      } else {
        var e := editedProfile.value;
        var check := CheckIdentity(e.aadharNumber, e.panNumber);
        if check.Some? {
          toast := ErrorToast(check.value);
        } else {
          profile := e;
          isEditing := false;
          toast := SavedToast;
        }
      }
      isLoading := false;
    }

    /** `handleCancel`: the edited copy goes back to the profile and editing ends. */
    method HandleCancel()
      modifies this
      ensures editedProfile == Some(profile) && !isEditing
      ensures profile == old(profile) && isLoading == old(isLoading)
    {
      editedProfile := Some(profile);
      isEditing := false;
    }

    /**
     * `handleChange`: one field of the edited copy replaced. Spreading `null`
     * gives an object holding only that field, so the others read as empty.
     */
    method HandleChange(field: ProfileField, value: string)
      modifies this
      ensures editedProfile == Some(WithField(old(editedProfile).GetOr(EmptyProfile), field, value))
      ensures profile == old(profile) && isEditing == old(isEditing) && isLoading == old(isLoading)
    {
      editedProfile := Some(WithField(editedProfile.GetOr(EmptyProfile), field, value));
    }
  }

  /** Editing a field and cancelling restores the shown profile and leaves it unchanged. */
  method EditThenCancel(page: ProfilePage, field: ProfileField, value: string)
    modifies page
    ensures page.profile == old(page.profile) && page.editedProfile == Some(page.profile)
    ensures !page.isEditing
  {
    page.BeginEdit();
    page.HandleChange(field, value);
    page.HandleCancel();
  }

  /** Saving an edit that passes both checks shows exactly the edited field changed. */
  method EditThenSave(page: ProfilePage, field: ProfileField, value: string) returns (toast: Toast)
    requires page.editedProfile == Some(page.profile)
    requires CheckIdentity(FieldOf(WithField(page.profile, field, value), AadharNumber),
                           FieldOf(WithField(page.profile, field, value), PanNumber)).None?
    modifies page
    ensures toast == SavedToast && !page.isEditing
    ensures FieldOf(page.profile, field) == value
    ensures forall g :: g != field ==> FieldOf(page.profile, g) == FieldOf(old(page.profile), g)
  {
    page.BeginEdit();
    page.HandleChange(field, value);
    toast := page.HandleSave();
  }
}

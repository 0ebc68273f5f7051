/**
 * The registration page: a seven-field form, and a submit handler that checks
 * the passwords, then Aadhar, then PAN, and only then asks the backend to sign
 * the user up with the form's values as account metadata. The backend's
 * answer is a parameter of the handler.
 */
module Register {
  import opened Wrappers
  import opened IdentityFormats

  /** The form, one string per input. */
  datatype RegisterForm = RegisterForm(
    fullName: string,
    email: string,
    phone: string,
    password: string,
    confirmPassword: string,
    aadhar: string,
    pan: string)

  /** The inputs, by their `name` attribute. */
  datatype FormField = FullNameInput | EmailInput | PhoneInput | PasswordInput
                     | ConfirmPasswordInput | AadharInput | PanInput

  const EmptyForm := RegisterForm("", "", "", "", "", "", "")

  function FieldOf(f: RegisterForm, field: FormField): string {
    match field
    case FullNameInput => f.fullName
    case EmailInput => f.email
    case PhoneInput => f.phone
    case PasswordInput => f.password
    case ConfirmPasswordInput => f.confirmPassword
    case AadharInput => f.aadhar
    case PanInput => f.pan
  }

  /** `{ ...prev, [name]: value }`: the named input's value replaced, the others kept. */
  function SetField(f: RegisterForm, field: FormField, value: string): (g: RegisterForm)
    ensures FieldOf(g, field) == value
    ensures forall other :: other != field ==> FieldOf(g, other) == FieldOf(f, other)
  {
    match field
    case FullNameInput => f.(fullName := value)
    case EmailInput => f.(email := value)
    case PhoneInput => f.(phone := value)
    case PasswordInput => f.(password := value)
    case ConfirmPasswordInput => f.(confirmPassword := value)
    case AadharInput => f.(aadhar := value)
    case PanInput => f.(pan := value)
  }

  /** The metadata stored with the new account. */
  datatype Metadata = Metadata(
    fullName: string,
    phone: string,
    aadharNumber: string,
    panNumber: string,
    email: string)

  /** The sign-up call's arguments. */
  datatype SignUpRequest = SignUpRequest(email: string, password: string, metadata: Metadata)

  /** Why a submit was rejected before any backend call. */
  datatype RegisterError = PasswordMismatch | BadIdentity(e: IdentityError)

  /**
   * The checks of `handleRegister` in order; the first failure stops. When all
   * pass, the request copies the form's values verbatim (no trimming, no
   * upper-casing of the PAN).
   */
  function ValidateRegistration(f: RegisterForm): (r: Result<SignUpRequest, RegisterError>)
    ensures f.password != f.confirmPassword ==> r == Failure(PasswordMismatch)
    ensures f.password == f.confirmPassword ==>
      (r.Failure? <==> CheckIdentity(f.aadhar, f.pan).Some?) &&
      (r.Failure? ==> r.error == BadIdentity(CheckIdentity(f.aadhar, f.pan).value))
    ensures r.Success? ==>
      && AadharAccepted(f.aadhar) && PanAccepted(f.pan)
      && r.value.email == f.email && r.value.password == f.password
      && r.value.metadata == Metadata(f.fullName, f.phone, f.aadhar, f.pan, f.email)
  {
    if f.password != f.confirmPassword then Failure(PasswordMismatch)
    else match CheckIdentity(f.aadhar, f.pan)
      case Some(e) => Failure(BadIdentity(e))
      case None => Success(SignUpRequest(f.email, f.password, Metadata(f.fullName, f.phone, f.aadhar, f.pan, f.email)))
  }

  /** A password mismatch wins over every other error, whatever Aadhar and PAN hold. */
  lemma {:induction false} MismatchFirst(f: RegisterForm, aadhar: string, pan: string)
    requires f.password != f.confirmPassword
    ensures ValidateRegistration(f.(aadhar := aadhar, pan := pan)) == Failure(PasswordMismatch)
  {
  }

  /** Unlike the profile page, registration does not upper-case the PAN: any lower-case letter rejects it. */
  lemma {:induction false} LowercasePanRejected(f: RegisterForm, i: nat)
    requires f.password == f.confirmPassword && AadharAccepted(f.aadhar)
    requires i < |f.pan| && 'a' <= f.pan[i] <= 'z'
    ensures ValidateRegistration(f) == Failure(BadIdentity(InvalidPan))
  {
    if IsPan(f.pan) {
      PanHasNoLowercase(f.pan);
      assert false;
    }
  }

  /** The toast a rejected submit raises. */
  function RegisterErrorToast(e: RegisterError): (t: Toast)
    ensures t.destructive
    ensures e.PasswordMismatch? ==> t.title == "Passwords don't match"
    ensures e.BadIdentity? ==> t == ErrorToast(e.e)
  {
    match e
    case PasswordMismatch => Toast("Passwords don't match", "Please ensure both passwords match", true)
    case BadIdentity(i) => ErrorToast(i)
  }

  /** What the sign-up call gave back: an error message, no user, or a new user. */
  datatype SignUpOutcome = SignUpFailed(message: string) | NoUserCreated | Registered

  /** The toast for the backend's answer. */
  function OutcomeToast(o: SignUpOutcome): (t: Toast)
    ensures o.Registered? <==> !t.destructive
    ensures o.SignUpFailed? ==> t == Toast("Registration failed", o.message, true)
    ensures o.NoUserCreated? ==> t == Toast("Registration failed", "User creation failed", true)
  {
    match o
    case SignUpFailed(m) => Toast("Registration failed", m, true)
    case NoUserCreated => Toast("Registration failed", "User creation failed", true)
    case Registered => Toast("Registration successful!", "Please proceed to login", false)
  }

  /** The registration page's state. */
  class RegisterPage {
    var formData: RegisterForm
    var isLoading: bool

    constructor ()
      ensures formData == EmptyForm && !isLoading
    {
      formData := EmptyForm;
      isLoading := false;
    }

    /** `handleChange`: the input named `field` now holds `value`. */
    method HandleChange(field: FormField, value: string)
      modifies this
      ensures formData == SetField(old(formData), field, value)
      ensures isLoading == old(isLoading)
    {
      formData := SetField(formData, field, value);
    }

    /**
     * `handleRegister`, with the backend's answer to the sign-up call given as
     * `outcome`. The call is made (and `request` returned) exactly when the
     * checks pass; `toLogin` says whether the page moves to the login page,
     * after signing the new user out; loading is off afterwards on every path.
     */
    method HandleRegister(outcome: SignUpOutcome) returns (request: Option<SignUpRequest>, toast: Toast, toLogin: bool)
      modifies this
      ensures formData == old(formData) && !isLoading
      ensures match ValidateRegistration(formData)
        case Failure(e) => request == None && toast == RegisterErrorToast(e)
        case Success(req) => request == Some(req) && toast == OutcomeToast(outcome)
      ensures toLogin <==> ValidateRegistration(formData).Success? && outcome.Registered?
      ensures toLogin <==> !toast.destructive
    {
      toLogin := false;
      isLoading := true;
      var checked := ValidateRegistration(formData);
      if checked.Failure? {
        toast := RegisterErrorToast(checked.error);
        request := None;
        isLoading := false;
        return;
      }
      request := Some(checked.value);
      toast := OutcomeToast(outcome);
      toLogin := outcome.Registered?;
      isLoading := false;
    }
  }
}

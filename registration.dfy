/**
 * Patient registration: the form, the checks made before anything is sent
 * (in their order), the payload without the confirmation password, and the
 * messages written for a refused or failed request. The server's answer is
 * a parameter.
 */
module Registration {
  import opened Text
  import opened Validation

  datatype RegisterData = RegisterData(
    userName: string,
    email: string,
    password: string,
    confirmPassword: string,
    firstName: string,
    lastName: string,
    phoneNumber: string,
    gender: string)

  /** The input names of the form, one per field of `RegisterData`. */
  datatype RegisterField = UserName | Email | Password | ConfirmPassword | FirstName | LastName | PhoneNumber | Gender

  /** The body of the registration request: the form without `confirmPassword`. */
  datatype Registration = Registration(
    userName: string,
    email: string,
    password: string,
    firstName: string,
    lastName: string,
    phoneNumber: string,
    gender: string)

  /** How the request ended: accepted, refused with the server's `message` if any, or thrown. */
  datatype RegisterOutcome = Accepted | Refused(message: Option<string>) | NetworkFailure

  const EmptyRegisterData := RegisterData("", "", "", "", "", "", "", "")

  const PasswordsDiffer := "Passwords don't match"
  const PasswordTooShort := "Password must be at least 6 characters"
  const GenderMissing := "Please select a gender"
  const EmailInvalid := "Please enter a valid email address"
  const UserNameTooShort := "Username must be at least 3 characters"
  const RegistrationFailed := "Registration failed"
  const NetworkError := "Network error. Please try again."

  function FieldValue(f: RegisterData, k: RegisterField): string {
    match k
    case UserName => f.userName
    case Email => f.email
    case Password => f.password
    case ConfirmPassword => f.confirmPassword
    case FirstName => f.firstName
    case LastName => f.lastName
    case PhoneNumber => f.phoneNumber
    case Gender => f.gender
  }

  /** `{ ...prev, [name]: value }`. */
  function WithFieldValue(f: RegisterData, k: RegisterField, value: string): (r: RegisterData)
    ensures FieldValue(r, k) == value
    ensures forall g :: g != k ==> FieldValue(r, g) == FieldValue(f, g)
  {
    match k
    case UserName => f.(userName := value)
    case Email => f.(email := value)
    case Password => f.(password := value)
    case ConfirmPassword => f.(confirmPassword := value)
    case FirstName => f.(firstName := value)
    case LastName => f.(lastName := value)
    case PhoneNumber => f.(phoneNumber := value)
    case Gender => f.(gender := value)
  }

  /** What the form must hold to be sent. */
  ghost predicate Registrable(f: RegisterData) {
    && f.password == f.confirmPassword
    && |f.password| >= 6
    && f.gender != ""
    && EmailPattern(f.email)
    && |f.userName| >= 3
  }

  /**
   * The guard of `handleSubmit`: the message of the first failing check, or
   * None when the form may be sent. A password mismatch is reported before
   * anything else, and each later message only once the earlier checks pass.
   */
  function RegisterError(f: RegisterData): (r: Option<string>)
    ensures r.None? <==> Registrable(f)
    ensures f.password != f.confirmPassword ==> r == Some(PasswordsDiffer)
    ensures f.password == f.confirmPassword && |f.password| < 6 ==> r == Some(PasswordTooShort)
    ensures f.password == f.confirmPassword && |f.password| >= 6 && f.gender == "" ==> r == Some(GenderMissing)
    ensures f.password == f.confirmPassword && |f.password| >= 6 && f.gender != "" && !EmailPattern(f.email) ==>
            r == Some(EmailInvalid)
  {
    EmailTest(f.email);
    if f.password != f.confirmPassword then Some(PasswordsDiffer)
    else if |f.password| < 6 then Some(PasswordTooShort)
    else if f.gender == "" then Some(GenderMissing)
    else if !IsEmail(f.email) then Some(EmailInvalid)
    else if |f.userName| < 3 then Some(UserNameTooShort)
    else None
  }

  /** The five checks, in the order the guard makes them. */
  function RegisterChecks(f: RegisterData): seq<Check> {
    [Check(f.password != f.confirmPassword, PasswordsDiffer),
     Check(|f.password| < 6, PasswordTooShort),
     Check(f.gender == "", GenderMissing),
     Check(!IsEmail(f.email), EmailInvalid),
     Check(|f.userName| < 3, UserNameTooShort)]
  }

  /** The guard reports the first of the checks that fails, in order. */
  lemma RegisterErrorIsFirstFailure(f: RegisterData)
    ensures RegisterError(f) == FirstFailure(RegisterChecks(f))
  {
    var c := RegisterChecks(f);
    FirstFailureEmpty();
    FirstFailureCons(c[4], []);
    FirstFailureCons(c[3], [c[4]]);
    FirstFailureCons(c[2], [c[3], c[4]]);
    FirstFailureCons(c[1], [c[2], c[3], c[4]]);
    FirstFailureCons(c[0], [c[1], c[2], c[3], c[4]]);
    assert c == [c[0]] + [c[1], c[2], c[3], c[4]];
    assert [c[1], c[2], c[3], c[4]] == [c[1]] + [c[2], c[3], c[4]];
    assert [c[2], c[3], c[4]] == [c[2]] + [c[3], c[4]];
    assert [c[3], c[4]] == [c[3]] + [c[4]];
  }

  /** `const { confirmPassword, ...registrationData } = formData`. */
  function Payload(f: RegisterData): (r: Registration)
    ensures r.userName == f.userName && r.email == f.email && r.password == f.password
    ensures r.firstName == f.firstName && r.lastName == f.lastName
    ensures r.phoneNumber == f.phoneNumber && r.gender == f.gender
  {
    Registration(f.userName, f.email, f.password, f.firstName, f.lastName, f.phoneNumber, f.gender)
  }

  /**
   * What `handleSubmit` sends, if anything: the payload of a form that passes
   * the guard. A sent payload carries a confirmed password of six or more
   * characters, a chosen gender, a well-formed e-mail and a user name of
   * three or more characters.
   */
  function Submission(f: RegisterData): (r: Option<Registration>)
    ensures r.Some? <==> RegisterError(f).None?
    ensures r.Some? ==> r.value == Payload(f)
    ensures r.Some? ==>
            && r.value.password == f.confirmPassword
            && |r.value.password| >= 6
            && r.value.gender != ""
            && EmailPattern(r.value.email)
            && |r.value.userName| >= 3
  {
    if RegisterError(f).None? then Some(Payload(f)) else None
  }

  class RegisterForm {
    var formData: RegisterData
    var error: string
    var isLoading: bool
    var success: bool

    constructor ()
      ensures formData == EmptyRegisterData && error == "" && !isLoading && !success
    {
      formData := EmptyRegisterData;
      error := "";
      isLoading := false;
      success := false;
    }

    /** `handleChange`: sets exactly the named field and clears the error. */
    method HandleChange(k: RegisterField, value: string)
      modifies this`formData, this`error
      ensures FieldValue(formData, k) == value
      ensures forall g :: g != k ==> FieldValue(formData, g) == FieldValue(old(formData), g)
      ensures error == ""
    {
      formData := WithFieldValue(formData, k, value);
      error := "";
    }

    /**
     * `handleSubmit`: a form that fails the guard gets the guard's message and
     * nothing is sent; otherwise the payload is sent and the outcome decides:
     * success, the server's message (or "Registration failed"), or the
     * network message. Loading is over afterwards.
     */
    method HandleSubmit(outcome: RegisterOutcome) returns (sent: Option<Registration>)
      requires !isLoading
      modifies this`error, this`isLoading, this`success
      ensures sent == Submission(formData)
      ensures sent.None? ==> error == RegisterError(formData).value && success == old(success)
      ensures sent.Some? && outcome.Accepted? ==> success && error == ""
      ensures sent.Some? && outcome.Refused? ==>
              error == OrElse(outcome.message, RegistrationFailed) && success == old(success)
      ensures sent.Some? && outcome.NetworkFailure? ==> error == NetworkError && success == old(success)
      ensures !isLoading
    {
      error := "";
      var guard := RegisterError(formData);
      if guard.Some? {
        error := guard.value;
        return None;
      }
      isLoading := true;
      sent := Some(Payload(formData));
      match outcome {
        case Accepted =>
          success := true;
        case Refused(message) =>
          error := OrElse(message, RegistrationFailed);
        case NetworkFailure =>
          error := NetworkError;
      }
      isLoading := false;
    }
  }
}

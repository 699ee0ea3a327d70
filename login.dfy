/**
 * The sign-in form: where a successful sign-in leads for each role, and the
 * message shown when it does not lead anywhere. The server's answer is a
 * parameter.
 */
module Login {
  import opened Text

  /**
   * How the sign-in call ended: an OK answer with the `role` it carried (if
   * any), a refusal with the server's `message` (if any), or an exception.
   */
  datatype LoginOutcome = Signed(role: Option<string>) | Refused(message: Option<string>) | Threw

  const NoRole := "No role assigned to user."
  const LoginFailed := "Login failed"
  const Unexpected := "An unexpected error occurred. Please try again."

  /** The page a role is sent to: its own area for the three known roles, the home page otherwise. */
  function RouteFor(role: string): (r: string)
    ensures r == "/doctor" <==> role == "Doctor"
    ensures r == "/patient" <==> role == "Patient"
    ensures r == "/admin" <==> role == "Admin"
    ensures r == "/" <==> role !in ["Doctor", "Patient", "Admin"]
  {
    match role
    case "Doctor" => "/doctor"
    case "Patient" => "/patient"
    case "Admin" => "/admin"
    case _ => "/"
  }

  /**
   * What `handleLogin` does with an outcome: the page it navigates to, if
   * any, and the error it leaves. It navigates exactly when the answer was
   * OK with a non-empty role, and then leaves no error; otherwise it leaves
   * a non-empty message.
   */
  function LoginResult(outcome: LoginOutcome): (r: (Option<string>, string))
    ensures r.0.Some? <==> outcome.Signed? && OrElse(outcome.role, "") != ""
    ensures r.0.Some? ==> r.0.value == RouteFor(outcome.role.value) && r.1 == ""
    ensures r.0.None? ==> r.1 != ""
    ensures outcome.Signed? && OrElse(outcome.role, "") == "" ==> r.1 == NoRole
    ensures outcome.Refused? ==> r.1 == OrElse(outcome.message, LoginFailed)
    ensures outcome.Threw? ==> r.1 == Unexpected
  {
    match outcome
    case Signed(role) =>
      if OrElse(role, "") != "" then (Some(RouteFor(role.value)), "") else (None, NoRole)
    case Refused(message) => (None, OrElse(message, LoginFailed))
    case Threw => (None, Unexpected)
  }

  class LoginForm {
    var userName: string
    var password: string
    var error: string
    var isLoading: bool

    constructor ()
      ensures userName == "" && password == "" && error == "" && !isLoading
    {
      userName := "";
      password := "";
      error := "";
      isLoading := false;
    }

    method SetUserName(value: string)
      modifies this`userName
      ensures userName == value
    {
      userName := value;
    }

    method SetPassword(value: string)
      modifies this`password
      ensures password == value
    {
      password := value;
    }

    /**
     * `handleLogin`: sends the user name and password, then navigates or
     * writes the message `LoginResult` gives; loading is over afterwards.
     */
    method HandleLogin(outcome: LoginOutcome) returns (sent: (string, string), route: Option<string>)
      modifies this`error, this`isLoading
      ensures sent == (userName, password)
      ensures (route, error) == LoginResult(outcome)
      ensures !isLoading
    {
      isLoading := true;
      error := "";
      sent := (userName, password);
      route := None;
      match outcome {
        case Signed(role) =>
          if OrElse(role, "") != "" {
            route := Some(RouteFor(role.value));
          } else {
            error := NoRole;
          }
        case Refused(message) =>
          error := OrElse(message, LoginFailed);
        case Threw =>
          error := Unexpected;
      }
      isLoading := false;
    }
  }
}

/**
 * The registration form: ordered password validation before the Firebase
 * call, and the translation of the call's error codes into form errors.
 */
module Register {
  import opened Wrappers
  import opened Text
  import opened Passwords

  /** The form error for a failed `registerWithEmailAndPassword`. */
  function RegisterErrorText(code: string, message: string): (text: string)
    ensures text != ""
    ensures code == "auth/email-already-in-use" ==> text == "Email is already in use"
    ensures code == "auth/invalid-email" ==> text == "Invalid email address"
    ensures code == "auth/weak-password" ==> text == "Password is too weak"
    ensures code !in {"auth/email-already-in-use", "auth/invalid-email", "auth/weak-password"}
            ==> text == MessageOr(message, "Failed to create account")
  {
    if code == "auth/email-already-in-use" then "Email is already in use"
    else if code == "auth/invalid-email" then "Invalid email address"
    else if code == "auth/weak-password" then "Password is too weak"
    else MessageOr(message, "Failed to create account")
  }

  /** The arguments of the registration call. */
  datatype Registration = Registration(email: string, password: string, displayName: string)

  /** Where a successful sign-up goes, with the banner the dashboard shows. */
  datatype Navigation = Navigation(path: string, message: string, kind: string)

  const CreatedBanner := "Account created successfully! Please check your email for verification."

  datatype RegisterState = RegisterState(
    displayName: string,
    email: string,
    password: string,
    confirmPassword: string,
    loading: bool,
    formError: string)

  class RegisterForm {
    var displayName: string
    var email: string
    var password: string
    var confirmPassword: string
    var loading: bool
    var formError: string

    function State(): RegisterState
      reads this
    {
      RegisterState(displayName, email, password, confirmPassword, loading, formError)
    }

    constructor ()
      ensures State() == RegisterState("", "", "", "", false, "")
    {
      displayName, email, password, confirmPassword := "", "", "", "";
      loading, formError := false, "";
    }

    method SetFields(name: string, mail: string, pass: string, confirm: string)
      modifies this
      ensures State() == old(State()).(displayName := name, email := mail, password := pass, confirmPassword := confirm)
    {
      displayName, email, password, confirmPassword := name, mail, pass, confirm;
    }

    /**
     * `handleRegister`, given how the registration call would end. A failed
     * password check sets its message and makes no call, leaving `loading`
     * alone; otherwise the call is made and `loading` ends false either way.
     */
    method HandleRegister(outcome: AuthOutcome) returns (call: Option<Registration>, nav: Option<Navigation>)
      modifies this
      ensures var problem := PasswordProblem(old(password), old(confirmPassword));
              && (call.None? <==> problem.Some?)
              && (problem.Some? ==> nav.None? && State() == old(State()).(formError := problem.value))
              && (problem.None? ==> call == Some(Registration(old(email), old(password), old(displayName))))
              && (problem.None? && outcome.Succeeded? ==>
                    nav == Some(Navigation("/dashboard", CreatedBanner, "success"))
                    && State() == old(State()).(formError := "", loading := false))
              && (problem.None? && outcome.Failed? ==>
                    nav.None?
                    && State() == old(State()).(formError := RegisterErrorText(outcome.code, outcome.message), loading := false))
    {
      formError := "";
      call, nav := None, None;
      var problem := PasswordProblem(password, confirmPassword);
      if problem.Some? {
        formError := problem.value;
        return;
      }
      loading := true;
      call := Some(Registration(email, password, displayName));
      if outcome.Succeeded? {
        nav := Some(Navigation("/dashboard", CreatedBanner, "success"));
      } else {
        formError := RegisterErrorText(outcome.code, outcome.message);
      }
      loading := false;
    }

    /** `handleGoogleRegister`, given how the Google sign-in would end. */
    method HandleGoogleRegister(outcome: AuthOutcome) returns (toDashboard: bool)
      modifies this
      ensures toDashboard <==> outcome.Succeeded?
      ensures outcome.Succeeded? ==> State() == old(State()).(formError := "", loading := false)
      ensures outcome.Failed? ==>
                State() == old(State()).(formError := MessageOr(outcome.message, "Failed to sign up with Google"), loading := false)
    {
      formError := "";
      loading := true;
      toDashboard := outcome.Succeeded?;
      if outcome.Failed? {
        formError := MessageOr(outcome.message, "Failed to sign up with Google");
      }
      loading := false;
    }
  }

  /** A failed registration never leaves the form without an error to show. */
  lemma FailureAlwaysExplained(code: string, message: string)
    ensures RegisterErrorText(code, message) != ""
  {
  }

  /** A mismatch is reported even when the password is also too short. */
  lemma MismatchReportedFirst(password: string, confirm: string)
    requires password != confirm
    ensures PasswordProblem(password, confirm) == Some(MismatchMessage)
  {
  }
}

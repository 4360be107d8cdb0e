/**
 * The profile page's three forms (display name, email, password): each
 * handler clears the message, runs its checks in a fixed order, and only
 * then calls Firebase; the outcomes of those calls are parameters.
 */
module Profile {
  import opened Wrappers
  import opened Text
  import opened Passwords

  /** The banner under the forms; `kind` is "", "success" or "error". */
  datatype Message = Message(text: string, kind: string)

  const NoMessage := Message("", "")

  function Error(text: string): Message {
    Message(text, "error")
  }

  /** An external call the page makes, in the order it makes them. */
  datatype Call =
    | UpdateProfileCall(displayName: string)
    | Reauthenticate(currentPassword: string)
    | UpdateEmailCall(email: string)
    | UpdatePasswordCall(password: string)

  // ---------------------------------------------------------------- checks

  /** The name check: a name that trims to nothing is refused. */
  function NameProblem(displayName: string): (problem: Option<string>)
    ensures problem.Some? <==> Trim(displayName) == ""
    ensures problem.Some? ==> problem.value == "Name cannot be empty"
  {
    if Trim(displayName) == "" then Some("Name cannot be empty") else None
  }

  /** The names refused are exactly those made only of whitespace, the empty name included. */
  lemma BlankNamesRefused(displayName: string)
    ensures NameProblem(displayName).Some? <==> forall i :: 0 <= i < |displayName| ==> IsJsWhitespace(displayName[i])
  {
    TrimEmptyIff(displayName);
  }

  /** The email checks: a blank email is reported before a missing current password. */
  function EmailProblem(email: string, currentPassword: string): (problem: Option<string>)
    ensures problem.None? <==> Trim(email) != "" && currentPassword != ""
    ensures Trim(email) == "" ==> problem == Some("Email cannot be empty")
    ensures Trim(email) != "" && currentPassword == "" ==> problem == Some("Current password is required to update email")
  {
    if Trim(email) == "" then Some("Email cannot be empty")
    else if currentPassword == "" then Some("Current password is required to update email")
    else None
  }

  /** The password checks: mismatch, then length, then a missing current password. */
  function NewPasswordProblem(password: string, confirm: string, currentPassword: string): (problem: Option<string>)
    ensures problem.None? <==> PasswordProblem(password, confirm).None? && currentPassword != ""
    ensures PasswordProblem(password, confirm).Some? ==> problem == PasswordProblem(password, confirm)
    ensures PasswordProblem(password, confirm).None? && currentPassword == "" ==> problem == Some("Current password is required")
  {
    var first := PasswordProblem(password, confirm);
    if first.Some? then first
    else if currentPassword == "" then Some("Current password is required")
    else None
  }

  // ---------------------------------------------------------------- errors

  /** The message for a failed re-authentication or email update. */
  function EmailErrorText(code: string, message: string): (text: string)
    ensures text != ""
    ensures code == "auth/wrong-password" ==> text == "Incorrect password"
    ensures code == "auth/email-already-in-use" ==> text == "Email is already in use"
    ensures code !in {"auth/wrong-password", "auth/email-already-in-use"} ==> text == MessageOr(message, "Failed to update email")
  {
    if code == "auth/wrong-password" then "Incorrect password"
    else if code == "auth/email-already-in-use" then "Email is already in use"
    else MessageOr(message, "Failed to update email")
  }

  /** The message for a failed re-authentication or password update; an email conflict is not special here. */
  function PasswordErrorText(code: string, message: string): (text: string)
    ensures text != ""
    ensures code == "auth/wrong-password" ==> text == "Incorrect current password"
    ensures code != "auth/wrong-password" ==> text == MessageOr(message, "Failed to update password")
  {
    if code == "auth/wrong-password" then "Incorrect current password"
    else MessageOr(message, "Failed to update password")
  }

  /**
   * How the re-authenticate-then-update pair ends: the first call's failure
   * skips the second; the calls made are listed in order.
   */
  function ChainCalls(first: Call, firstOutcome: AuthOutcome, second: Call, secondOutcome: AuthOutcome): (r: (seq<Call>, AuthOutcome))
    ensures r.0 == if firstOutcome.Failed? then [first] else [first, second]
    ensures r.1.Succeeded? <==> firstOutcome.Succeeded? && secondOutcome.Succeeded?
    ensures firstOutcome.Failed? ==> r.1 == firstOutcome
  {
    if firstOutcome.Failed? then ([first], firstOutcome) else ([first, second], secondOutcome)
  }

  // ---------------------------------------------------------------- the page

  datatype ProfileState = ProfileState(
    displayName: string,
    email: string,
    password: string,
    confirmPassword: string,
    currentPassword: string,
    loading: bool,
    message: Message,
    isEditingEmail: bool,
    isEditingPassword: bool)

  class ProfilePage {
    var displayName: string
    var email: string
    var password: string
    var confirmPassword: string
    var currentPassword: string
    var loading: bool
    var message: Message
    var isEditingEmail: bool
    var isEditingPassword: bool

    function State(): ProfileState
      reads this
    {
      ProfileState(displayName, email, password, confirmPassword, currentPassword,
                   loading, message, isEditingEmail, isEditingPassword)
    }

    /** The initial state from the signed-in user's name and email, each '' when missing or empty. */
    constructor (userName: Option<string>, userEmail: Option<string>)
      ensures State() == ProfileState(userName.GetOr(""), userEmail.GetOr(""), "", "", "", false, NoMessage, false, false)
    {
      displayName, email := userName.GetOr(""), userEmail.GetOr("");
      password, confirmPassword, currentPassword := "", "", "";
      loading, message := false, NoMessage;
      isEditingEmail, isEditingPassword := false, false;
    }

    method SetDisplayName(name: string)
      modifies this
      ensures State() == old(State()).(displayName := name)
    {
      displayName := name;
    }

    method SetEmail(mail: string)
      modifies this
      ensures State() == old(State()).(email := mail)
    {
      email := mail;
    }

    method SetPasswords(pass: string, confirm: string, current: string)
      modifies this
      ensures State() == old(State()).(password := pass, confirmPassword := confirm, currentPassword := current)
    {
      password, confirmPassword, currentPassword := pass, confirm, current;
    }

    method SetEditingEmail(editing: bool)
      modifies this
      ensures State() == old(State()).(isEditingEmail := editing)
    {
      isEditingEmail := editing;
    }

    method SetEditingPassword(editing: bool)
      modifies this
      ensures State() == old(State()).(isEditingPassword := editing)
    {
      isEditingPassword := editing;
    }

    /** `handleUpdateProfile`: the untrimmed name is what gets saved. */
    method HandleUpdateProfile(outcome: AuthOutcome) returns (calls: seq<Call>)
      modifies this
      ensures var problem := NameProblem(old(displayName));
              && (problem.Some? ==> calls == [] && State() == old(State()).(message := Error(problem.value)))
              && (problem.None? ==> calls == [UpdateProfileCall(old(displayName))])
              && (problem.None? && outcome.Succeeded? ==>
                    State() == old(State()).(message := Message("Profile updated successfully!", "success"), loading := false))
              && (problem.None? && outcome.Failed? ==>
                    State() == old(State()).(message := Error(MessageOr(outcome.message, "Failed to update profile")), loading := false))
    {
      message := NoMessage;
      calls := [];
      var problem := NameProblem(displayName);
      if problem.Some? {
        message := Error(problem.value);
        return;
      }
      loading := true;
      calls := [UpdateProfileCall(displayName)];
      if outcome.Succeeded? {
        message := Message("Profile updated successfully!", "success");
      } else {
        message := Error(MessageOr(outcome.message, "Failed to update profile"));
      }
      loading := false;
    }

    /**
     * `handleUpdateEmail`, given how re-authentication and the update would
     * end. Success leaves email editing and forgets the current password.
     */
    method HandleUpdateEmail(reauth: AuthOutcome, update: AuthOutcome) returns (calls: seq<Call>)
      modifies this
      ensures var problem := EmailProblem(old(email), old(currentPassword));
              var chain := ChainCalls(Reauthenticate(old(currentPassword)), reauth, UpdateEmailCall(old(email)), update);
              && (problem.Some? ==> calls == [] && State() == old(State()).(message := Error(problem.value)))
              && (problem.None? ==> calls == chain.0)
              && (problem.None? && chain.1.Succeeded? ==>
                    State() == old(State()).(message := Message("Email updated successfully!", "success"),
                                             isEditingEmail := false, currentPassword := "", loading := false))
              && (problem.None? && chain.1.Failed? ==>
                    State() == old(State()).(message := Error(EmailErrorText(chain.1.code, chain.1.message)), loading := false))
    {
      message := NoMessage;
      calls := [];
      var problem := EmailProblem(email, currentPassword);
      if problem.Some? {
        message := Error(problem.value);
        return;
      }
      loading := true;
      var chain := ChainCalls(Reauthenticate(currentPassword), reauth, UpdateEmailCall(email), update);
      calls := chain.0;
      if chain.1.Succeeded? {
        message := Message("Email updated successfully!", "success");
        isEditingEmail := false;
        currentPassword := "";
      } else {
        message := Error(EmailErrorText(chain.1.code, chain.1.message));
      }
      loading := false;
    }

    /**
     * `handleUpdatePassword`, given how re-authentication and the update
     * would end. Success leaves password editing and clears all three fields.
     */
    method HandleUpdatePassword(reauth: AuthOutcome, update: AuthOutcome) returns (calls: seq<Call>)
      modifies this
      ensures var problem := NewPasswordProblem(old(password), old(confirmPassword), old(currentPassword));
              var chain := ChainCalls(Reauthenticate(old(currentPassword)), reauth, UpdatePasswordCall(old(password)), update);
              && (problem.Some? ==> calls == [] && State() == old(State()).(message := Error(problem.value)))
              && (problem.None? ==> calls == chain.0)
              && (problem.None? && chain.1.Succeeded? ==>
                    State() == old(State()).(message := Message("Password updated successfully!", "success"),
                                             isEditingPassword := false, password := "", confirmPassword := "",
                                             currentPassword := "", loading := false))
              && (problem.None? && chain.1.Failed? ==>
                    State() == old(State()).(message := Error(PasswordErrorText(chain.1.code, chain.1.message)), loading := false))
    {
      message := NoMessage;
      calls := [];
      var problem := NewPasswordProblem(password, confirmPassword, currentPassword);
      if problem.Some? {
        message := Error(problem.value);
        return;
      }
      loading := true;
      var chain := ChainCalls(Reauthenticate(currentPassword), reauth, UpdatePasswordCall(password), update);
      calls := chain.0;
      if chain.1.Succeeded? {
        message := Message("Password updated successfully!", "success");
        isEditingPassword := false;
        password, confirmPassword, currentPassword := "", "", "";
      } else {
        message := Error(PasswordErrorText(chain.1.code, chain.1.message));
      }
      loading := false;
    }

    /** `handleDeleteAccount`: a confirmed request logs out; only a failed logout changes the page. */
    method HandleDeleteAccount(confirmed: bool, logout: AuthOutcome) returns (toLogin: bool)
      modifies this
      ensures toLogin <==> confirmed && logout.Succeeded?
      ensures confirmed && logout.Failed? ==>
                State() == old(State()).(message := Error(MessageOr(logout.message, "Failed to delete account")))
      ensures !(confirmed && logout.Failed?) ==> State() == old(State())
    {
      toLogin := confirmed && logout.Succeeded?;
      if confirmed && logout.Failed? {
        message := Error(MessageOr(logout.message, "Failed to delete account"));
      }
    }
  }

  /** A blank email is reported even when the current password is missing too. */
  lemma EmailChecksOrdered(email: string, currentPassword: string)
    requires Trim(email) == "" && currentPassword == ""
    ensures EmailProblem(email, currentPassword) == Some("Email cannot be empty")
  {
  }

  /** A wrong current password reads differently in the two forms. */
  lemma WrongPasswordWording(message: string)
    ensures EmailErrorText("auth/wrong-password", message) != PasswordErrorText("auth/wrong-password", message)
  {
  }
}

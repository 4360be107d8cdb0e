/**
 * What the registration and profile forms share: the outcome of a Firebase
 * auth call and the password checks both forms run in the same order.
 */
module Passwords {
  import opened Wrappers
  import opened Text

  /** How an awaited Firebase call ended: it resolved, or it threw an error with a code and a message. */
  datatype AuthOutcome = Succeeded | Failed(code: string, message: string)

  const MinPasswordLength := 6
  const MismatchMessage := "Passwords do not match"
  const TooShortMessage := "Password must be at least 6 characters"

  /**
   * The first failing password check: a mismatch with the confirmation,
   * then fewer than six UTF-16 code units; None when both pass.
   */
  function PasswordProblem(password: string, confirm: string): (problem: Option<string>)
    ensures problem == None <==> password == confirm && Utf16Length(password) >= MinPasswordLength
    ensures password != confirm ==> problem == Some(MismatchMessage)
    ensures password == confirm && Utf16Length(password) < MinPasswordLength ==> problem == Some(TooShortMessage)
  {
    if password != confirm then Some(MismatchMessage)
    else if Utf16Length(password) < MinPasswordLength then Some(TooShortMessage)
    else None
  }

  /** Three characters outside the Basic Multilingual Plane are six code units, which passes the length check. */
  lemma AstralCharactersCountTwice(password: string)
    requires |password| == 3 && forall i :: 0 <= i < 3 ==> password[i] as int >= 0x1_0000
    ensures PasswordProblem(password, password) == None
  {
    var tail1, tail2 := password[1..], password[2..];
    assert tail1[0] == password[1] && tail1[1..] == tail2;
    assert tail2[0] == password[2] && tail2[1..] == [];
    assert Utf16Length(tail2) == 2;
    assert Utf16Length(password) == 6;
  }
}

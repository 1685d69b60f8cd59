/** The sign-up form's submit checks (src/components/Auth/SignupForm.tsx). */
module Signup {

  const MismatchMessage := "Passwords do not match"
  const TooShortMessage := "Password must be at least 6 characters"
  const EmailTakenMessage := "Email already exists"
  const MinPasswordLength := 6

  /** The outcome of the local checks, in the order they run. */
  datatype Check = Mismatch | TooShort | Passed

  /** The confirmation is compared first, the length second. */
  function Validate(password: string, confirmPassword: string): (c: Check)
    ensures c == Mismatch <==> password != confirmPassword
    ensures c == TooShort <==> password == confirmPassword && |password| < MinPasswordLength
    ensures c == Passed <==> password == confirmPassword && |password| >= MinPasswordLength
  {
    if password != confirmPassword then Mismatch
    else if |password| < MinPasswordLength then TooShort
    else Passed
  }

  /** The error shown after a submit, and whether the account service was asked. */
  datatype Outcome = Outcome(error: string, signupCalled: bool)

  /** A submit: the local checks, then `signup(email, username, password)`,
      whose `false` means the email is taken. */
  function Submit(email: string, username: string, password: string, confirmPassword: string,
                  signup: (string, string, string) -> bool): (o: Outcome)
    ensures o.signupCalled <==> Validate(password, confirmPassword) == Passed
    ensures o.error == "" <==> o.signupCalled && signup(email, username, password)
    ensures password != confirmPassword ==> o.error == MismatchMessage
    ensures password == confirmPassword && |password| < MinPasswordLength ==> o.error == TooShortMessage
    ensures o.signupCalled && !signup(email, username, password) ==> o.error == EmailTakenMessage
  {
    match Validate(password, confirmPassword)
    case Mismatch => Outcome(MismatchMessage, false)
    case TooShort => Outcome(TooShortMessage, false)
    case Passed => Outcome(if signup(email, username, password) then "" else EmailTakenMessage, true)
  }

  /** A mismatched short password is reported as a mismatch, never as too short. */
  lemma MismatchReportedFirst(email: string, username: string, password: string,
                              confirmPassword: string, signup: (string, string, string) -> bool)
    requires password != confirmPassword && |password| < MinPasswordLength
    ensures Submit(email, username, password, confirmPassword, signup).error == MismatchMessage
    ensures !Submit(email, username, password, confirmPassword, signup).signupCalled
  {
  }

  /** Six characters are enough: a matching six-character password reaches `signup`. */
  lemma SixCharactersPass(password: string)
    requires |password| == 6
    ensures Validate(password, password) == Passed
    ensures |password[..5]| < MinPasswordLength && Validate(password[..5], password[..5]) == TooShort
  {
  }

  class SignupForm {
    var email: string
    var username: string
    var password: string
    var confirmPassword: string
    var error: string

    constructor ()
      ensures email == "" && username == "" && password == "" && confirmPassword == ""
      ensures error == ""
    {
      email, username, password, confirmPassword := "", "", "", "";
      error := "";
    }

    /** The four inputs' change handlers. */
    method Fill(email: string, username: string, password: string, confirmPassword: string)
      modifies this
      ensures this.email == email && this.username == username
      ensures this.password == password && this.confirmPassword == confirmPassword
      ensures error == old(error)
    {
      this.email, this.username := email, username;
      this.password, this.confirmPassword := password, confirmPassword;
    }

    /** `handleSubmit`: clear the error, then stop at the first failing check. */
    method HandleSubmit(signup: (string, string, string) -> bool) returns (signupCalled: bool)
      modifies this`error
      ensures error == Submit(email, username, password, confirmPassword, signup).error
      ensures signupCalled == Submit(email, username, password, confirmPassword, signup).signupCalled
    {
      error := "";
      signupCalled := false;
      if password != confirmPassword {
        error := MismatchMessage;
        return;
      }
      if |password| < MinPasswordLength {
        error := TooShortMessage;
        return;
      }
      signupCalled := true;
      var success := signup(email, username, password);
      if !success {
        error := EmailTakenMessage;
      }
    }
  }
}

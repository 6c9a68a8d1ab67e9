/**
 * The registration screen app/signup.tsx: its validation chain before the
 * sign-up call, and the loading flag around that call.
 */
module Signup {
  import opened Common

  datatype Check = Ok | Invalid(message: string)

  /** The three checks of `handleSignUp`, in order. */
  function Validate(email: string, password: string, confirm: string): (r: Check)
    ensures email == "" || password == "" || confirm == "" ==> r == Invalid("Please fill in all fields")
    ensures email != "" && password != "" && confirm != "" && password != confirm ==>
      r == Invalid("Passwords do not match")
    ensures email != "" && password != "" && confirm != "" && password == confirm && |password| < 6 ==>
      r == Invalid("Password must be at least 6 characters")
    ensures r == Ok <==> email != "" && password != "" && password == confirm && |password| >= 6
  {
    if email == "" || password == "" || confirm == "" then Invalid("Please fill in all fields")
    else if password != confirm then Invalid("Passwords do not match")
    else if |password| < 6 then Invalid("Password must be at least 6 characters")
    else Ok
  }

  /** A mismatch is reported before a short password: "abc" against "abd" is a mismatch. */
  lemma MismatchReportedFirst()
    ensures Validate("a@b.c", "abc", "abd") == Invalid("Passwords do not match")
  {
  }

  datatype Outcome = Rejected(message: string) | SignUpFailed(message: string) | Created | NoUser

  class SignUpScreen {
    var loading: bool
    var signUpCalls: seq<(string, string)>

    constructor()
      ensures !loading && signUpCalls == []
    {
      loading := false;
      signUpCalls := [];
    }

    /** `handleSignUp`, with the sign-up call's error and whether it returned a user. */
    method HandleSignUp(email: string, password: string, confirm: string, error: Option<string>, userReturned: bool)
      returns (o: Outcome)
      modifies this
      ensures Validate(email, password, confirm).Invalid? ==>
        o == Rejected(Validate(email, password, confirm).message) && signUpCalls == old(signUpCalls) &&
        loading == old(loading)
      ensures Validate(email, password, confirm) == Ok ==>
        signUpCalls == old(signUpCalls) + [(email, password)] && !loading &&
        o == (if error.Some? then SignUpFailed(error.value) else if userReturned then Created else NoUser)
    {
      var check := Validate(email, password, confirm);
      if check.Invalid? {
        return Rejected(check.message);
      }
      loading := true;
      signUpCalls := signUpCalls + [(email, password)];
      o := if error.Some? then SignUpFailed(error.value) else if userReturned then Created else NoUser;
      loading := false;
    }
  }
}

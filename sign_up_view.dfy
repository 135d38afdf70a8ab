/**
 * SignUpView.swift: the form's checks that enable the sign-up button,
 * and how they relate to the checks the account store makes.
 */
module SignUpForm {
  import opened Base
  import opened LocalAuth

  /** `passwordsMatch`: both entries equal and not empty. */
  predicate PasswordsMatch(password: string, confirmPassword: string) {
    password == confirmPassword && password != []
  }

  /** `isFormValid`: every field filled, matching passwords, at least six characters. */
  predicate IsFormValid(email: string, password: string, confirmPassword: string, nickname: string) {
    && email != [] && password != [] && nickname != []
    && PasswordsMatch(password, confirmPassword)
    && |password| >= 6
  }

  /**
   * With the button enabled, the store cannot refuse the sign-up for an
   * empty field or a short password; only a malformed or registered email
   * remains.
   */
  lemma ValidFormPassesFieldChecks(users: map<string, StoredUser>, email: string, password: string,
                                   confirmPassword: string, nickname: string)
    requires IsFormValid(email, password, confirmPassword, nickname)
    ensures var e := SignUpError(users, email, password, nickname);
      e != Some(EmptyFields) && e != Some(WeakPassword)
      && (e.None? || e == Some(InvalidEmail) || e == Some(EmailAlreadyExists))
  {
  }

  /** The form does not check the email's shape: a filled form can still be refused as malformed. */
  lemma ValidFormMayHaveBadEmail(users: map<string, StoredUser>)
    ensures IsFormValid("runner", "secret1", "secret1", "러너")
    ensures SignUpError(users, "runner", "secret1", "러너") == Some(InvalidEmail)
  {
    assert !IsValidEmail("runner") by {
      forall a: nat, d: nat
        ensures !SplitsAsEmail("runner", a, d)
      {
        if 0 < a < |"runner"| {
          assert "runner"[a] != '@';
        }
      }
    }
  }
}

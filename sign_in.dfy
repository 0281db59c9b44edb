/**
 * The sign-in screen (`SignInViewController`): the guard that decides
 * whether the typed text reaches the identity provider, and what a tap on
 * "Sign In" does to the two text fields. Whether the provider accepts a
 * request is a parameter.
 */
module SignInScreen {
  import opened Wrappers
  import opened Strings
  import SignUpScreen

  /** The shortest password the sign-in screen lets through, counted untrimmed. */
  const MinPasswordLength: nat := 6

  /** The guard of `didTapSignIn`, on texts that are present; there is no rule on the form of either. */
  predicate AcceptsSignIn(email: string, password: string)
  {
    && Trim(email) != ""
    && Trim(password) != ""
    && |password| >= MinPasswordLength
  }

  /** `didTapSignIn` up to the provider call: the email and password to sign in with, or `None`. */
  function SignInRequest(email: Option<string>, password: Option<string>): (r: Option<(string, string)>)
    ensures r.Some? <==> email.Some? && password.Some? && AcceptsSignIn(email.value, password.value)
    ensures r.Some? ==> r.value == (email.value, password.value)
  {
    if email.Some? && password.Some? && AcceptsSignIn(email.value, password.value)
    then Some((email.value, password.value))
    else None
  }

  /** The sign-in guard, rule by rule. */
  lemma SignInRequestRules(email: Option<string>, password: Option<string>)
    ensures SignInRequest(email, password).Some? <==>
      && email.Some? && password.Some?
      && !IsBlank(email.value) && !IsBlank(password.value)
      && |password.value| >= 6
  {
    if email.Some? && password.Some? {
      TrimEmptyIffBlank(email.value);
      TrimEmptyIffBlank(password.value);
    }
  }

  /** Sign-in keeps only the password rules of sign-up: whatever passes sign-up's email and password checks passes sign-in. */
  lemma SignUpInputSignsIn(form: SignUpScreen.SignUpForm)
    requires SignUpScreen.SignUpRequest(form).Some?
    ensures SignInRequest(form.email, form.password).Some?
  {
  }

  /** How a tap on "Sign In" ends. */
  datatype SignInOutcome = InvalidSignInInput | SignedIn | SignInFailed

  /** `SignInViewController`'s two text fields. */
  class SignInViewController {
    var emailText: Option<string>
    var passwordText: Option<string>

    constructor (emailText: Option<string>, passwordText: Option<string>)
      ensures this.emailText == emailText && this.passwordText == passwordText
    {
      this.emailText := emailText;
      this.passwordText := passwordText;
    }

    /**
     * `didTapSignIn`: rejected input shows an alert and never reaches the
     * provider; accepted input makes one `signIn` call. On its failure the
     * password field is emptied and the email field kept.
     */
    method DidTapSignIn(providerAccepts: bool) returns (outcome: SignInOutcome)
      modifies this
      ensures outcome == InvalidSignInInput <==> SignInRequest(old(emailText), old(passwordText)).None?
      ensures outcome == SignedIn <==> SignInRequest(old(emailText), old(passwordText)).Some? && providerAccepts
      ensures emailText == old(emailText)
      ensures outcome == SignInFailed ==> passwordText == None
      ensures outcome != SignInFailed ==> passwordText == old(passwordText)
    {
      var request := SignInRequest(emailText, passwordText);
      if request.None? {
        return InvalidSignInInput;
      }
      if providerAccepts {
        outcome := SignedIn;
      } else {
        outcome := SignInFailed;
        passwordText := None;
      }
    }
  }
}

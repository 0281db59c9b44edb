/**
 * The sign-up screen (`SignUpViewController`): the guard that decides
 * whether the typed text reaches `AuthManager.signUp`, and what a tap on
 * "Sign Up" does to the store.
 */
module SignUpScreen {
  import opened Wrappers
  import opened Strings
  import opened Database
  import AuthManager

  /** The shortest password the sign-up screen lets through, counted untrimmed. */
  const MinPasswordLength: nat := 6

  /** The three fields of the sign-up form, as `UITextField.text` holds them. */
  datatype SignUpForm = SignUpForm(username: Option<string>, email: Option<string>, password: Option<string>)

  /** What the sign-up guard passes to `AuthManager.signUp`. */
  datatype SignUpCredentials = SignUpCredentials(username: string, email: string, password: string)

  /** The guard of `didTapSignUp`, on texts that are present. */
  predicate AcceptsSignUp(username: string, email: string, password: string)
  {
    && Trim(username) != ""
    && Trim(email) != ""
    && Trim(password) != ""
    && |password| >= MinPasswordLength
    && ' ' !in username
    && '.' !in username
  }

  /**
   * `didTapSignUp` up to the provider call: the credentials to sign up
   * with, or `None` when the screen shows the "Woops" alert instead.
   */
  function SignUpRequest(form: SignUpForm): (r: Option<SignUpCredentials>)
    ensures r.Some? ==> form.username.Some? && form.email.Some? && form.password.Some?
    ensures r.Some? ==> r.value == SignUpCredentials(form.username.value, form.email.value, form.password.value)
  {
    if && form.username.Some? && form.email.Some? && form.password.Some?
       && AcceptsSignUp(form.username.value, form.email.value, form.password.value)
    then Some(SignUpCredentials(form.username.value, form.email.value, form.password.value))
    else None
  }

  /**
   * The sign-up guard, rule by rule: every field present and not made of
   * spaces and tabs alone, a password of at least six characters, and a
   * username without spaces or dots. Nothing is asked of the email's form.
   */
  lemma SignUpRequestRules(form: SignUpForm)
    ensures SignUpRequest(form).Some? <==>
      && form.username.Some? && form.email.Some? && form.password.Some?
      && !IsBlank(form.username.value) && !IsBlank(form.email.value) && !IsBlank(form.password.value)
      && |form.password.value| >= 6
      && (forall i :: 0 <= i < |form.username.value| ==> form.username.value[i] != ' ' && form.username.value[i] != '.')
  {
    if form.username.Some? && form.email.Some? && form.password.Some? {
      AcceptsSignUpRules(form.username.value, form.email.value, form.password.value);
    }
  }

  /** The guard on present texts, with trimming replaced by what it means. */
  lemma AcceptsSignUpRules(username: string, email: string, password: string)
    ensures AcceptsSignUp(username, email, password) <==>
      && !IsBlank(username) && !IsBlank(email) && !IsBlank(password)
      && |password| >= 6
      && (forall i :: 0 <= i < |username| ==> username[i] != ' ' && username[i] != '.')
  {
    TrimEmptyIffBlank(username);
    TrimEmptyIffBlank(email);
    TrimEmptyIffBlank(password);
    assert (' ' !in username && '.' !in username) <==> forall i :: 0 <= i < |username| ==> username[i] != ' ' && username[i] != '.';
  }

  /**
   * The length rule counts the password as typed, surrounding spaces
   * included: once the other rules hold, the form passes exactly when the
   * untrimmed password has six characters or more.
   */
  lemma SignUpPasswordLengthIsUntrimmed(username: string, email: string, password: string)
    requires !IsBlank(username) && !IsBlank(email) && !IsBlank(password)
    requires forall i :: 0 <= i < |username| ==> username[i] != ' ' && username[i] != '.'
    ensures SignUpRequest(SignUpForm(Some(username), Some(email), Some(password))).Some? <==> |password| >= 6
  {
    SignUpRequestRules(SignUpForm(Some(username), Some(email), Some(password)));
  }

  /** A username with a dot, or a five-character password, is turned away. */
  lemma SignUpRejectsDotsAndShortPasswords()
    ensures SignUpRequest(SignUpForm(Some("bob.smith"), Some("b@x.com"), Some("secret"))).None?
    ensures SignUpRequest(SignUpForm(Some("bob"), Some("b@x.com"), Some("short"))).None?
  {
    assert "bob.smith"[3] == '.';
  }

  /** How a tap on "Sign Up" ends. */
  datatype SignUpOutcome = InvalidSignUpInput | SignedUp | SignUpFailed

  /**
   * `didTapSignUp`: rejected input shows an alert and never reaches the
   * provider or the store; accepted input makes exactly one `signUp` call
   * and its result decides between dismissing and the failure alert.
   */
  method DidTapSignUp(db: DatabaseManager, form: SignUpForm, providerAccepts: bool, storeAccepts: bool)
    returns (outcome: SignUpOutcome)
    modifies db
    ensures outcome == InvalidSignUpInput <==> SignUpRequest(form).None?
    ensures outcome == SignedUp <==> SignUpRequest(form).Some? && providerAccepts && storeAccepts
    ensures outcome == SignedUp ==>
      db.users == UsersAfterInsertUser(old(db.users), SignUpRequest(form).value.email, SignUpRequest(form).value.username)
    ensures outcome != SignedUp ==> db.users == old(db.users)
    ensures db.session == old(db.session)
  {
    var request := SignUpRequest(form);
    if request.None? {
      return InvalidSignUpInput;
    }
    var success := AuthManager.SignUp(db, request.value.username, request.value.email, request.value.password, providerAccepts, storeAccepts);
    outcome := if success then SignedUp else SignUpFailed;
  }

  /**
   * The sign-up guard lets upper-case letters through and the record is
   * written under the name as typed, while every read lower-cases the name:
   * after "Alice" signs up on an empty store, the record read for "Alice"
   * is the absent one.
   */
  lemma MixedCaseSignUpIsUnread()
    ensures var users := UsersAfterInsertUser(map[], "a@x.com", "Alice");
      && "Alice" in users
      && RecordAt(users, Lower("Alice")) == AbsentRecord
  {
    var users := UsersAfterInsertUser(map[], "a@x.com", "Alice");
    assert Lower("Alice")[0] == 'a';
    assert Lower("Alice") !in users;
  }
}

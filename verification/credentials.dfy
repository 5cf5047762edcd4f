/**
 * The two authentication forms together, over one local storage: what a
 * sign-up writes, what a later login reads back, and the cases where the
 * round trip fails.
 */
module Credentials {
  import opened Chars
  import opened Forms
  import opened Json
  import opened AuthPatterns
  import SignUp
  import LogIn

  /** An accepted email has no character JSON.stringify escapes. */
  lemma EmailIsJsonSafe(s: string)
    requires EmailPattern(s)
    ensures JsonSafe(s)
  {
  }

  /** An accepted username has no character JSON.stringify escapes, so it
      is stored as itself between two quotes. */
  lemma UsernameIsJsonSafe(s: string)
    requires UsernamePattern(s)
    ensures JsonSafe(s) && Stringify(s) == "\"" + s + "\""
  {
    StringifyPlain(s);
  }

  /** Whatever was stored before, a login right after a sign-up matches the
      stored credentials exactly when neither the email nor the password
      holds a quote, a backslash or a control character. */
  lemma {:induction false} SignUpLogInRoundTrip(items: map<string, string>, username: string, email: string, password: string)
    ensures LogIn.CredentialsMatch(SignUp.StoredCredentials(items, username, email, password), email, password)
      <==> JsonSafe(email) && JsonSafe(password)
  {
    var stored := SignUp.StoredCredentials(items, username, email, password);
    assert stored["email"] == Stringify(email) && stored["password"] == Stringify(password);
    RemoveQuotesStringify(email);
    RemoveQuotesStringify(password);
  }

  /** The password `pass"word` is accepted by both forms. */
  lemma QuotedPasswordAccepted()
    ensures SignUp.Condition("password", "pass\"word") && LogIn.Condition("password", "pass\"word")
  {
  }

  /** The password `pass"word`, accepted by both forms, is stored as
      `"pass\"word"` and reads back as `pass\word` once its quotes are
      stripped: whatever the username and email, the login that follows the
      sign-up never matches. */
  lemma QuotedPasswordLocksOut(items: map<string, string>, username: string, email: string)
    ensures RemoveQuotes(Stringify("pass\"word")) != "pass\"word"
    ensures !LogIn.CredentialsMatch(SignUp.StoredCredentials(items, username, email, "pass\"word"), email, "pass\"word")
  {
  }

  /** With the stored values decoded by JSON.parse, a login right after a
      sign-up always matches, whatever was stored before. */
  lemma SignUpLogInDecodedRoundTrip(items: map<string, string>, username: string, email: string, password: string)
    ensures LogIn.CredentialsDecode(SignUp.StoredCredentials(items, username, email, password), email, password)
    ensures !LogIn.Unreadable(SignUp.StoredCredentials(items, username, email, password))
  {
    ParseStringify(email);
    ParseStringify(password);
  }

  /** Type accepted values into a fresh sign-up form: every flag stays clear. */
  method FillInSignUp(username: string, email: string, password: string, confirmPassword: string)
    returns (signUp: SignUp.SignUpForm)
    requires SignUp.Condition("username", username)
    requires SignUp.Condition("email", email)
    requires SignUp.Condition("password", password)
    ensures fresh(signUp) && signUp.Valid() && !signUp.HasErrors()
    ensures signUp.signUpFieldsState["username"] == username && signUp.signUpFieldsState["email"] == email
    ensures signUp.signUpFieldsState["password"] == password && signUp.signUpFieldsState["confirmPassword"] == confirmPassword
  {
    signUp := new SignUp.SignUpForm();
    signUp.HandleSignUpChange("username", username);
    signUp.HandleSignUpChange("email", email);
    signUp.HandleSignUpChange("password", password);
    signUp.HandleSignUpChange("confirmPassword", confirmPassword);
    assert signUp.fieldErrors == map["email" := false, "password" := false, "username" := false];
  }

  /** Fill in the sign-up form with accepted values and submit it. */
  method SignUpWith(store: LocalStorage, username: string, email: string, password: string, confirmPassword: string)
    returns (shown: bool, outcome: Outcome)
    requires SignUp.Condition("username", username)
    requires SignUp.Condition("email", email)
    requires SignUp.Condition("password", password)
    modifies store
    ensures shown == SignUp.PasswordMismatch(password, confirmPassword)
    ensures outcome == NavigateTo("/login")
    ensures store.items == SignUp.StoredCredentials(old(store.items), username, email, password)
  {
    var signUp := FillInSignUp(username, email, password, confirmPassword);
    shown := signUp.ConfirmPasswordError();
    outcome := signUp.HandleSubmit(store);
  }

  /** Fill in the login form with accepted values and submit it. */
  method LogInWith(store: LocalStorage, email: string, password: string) returns (outcome: Outcome)
    requires LogIn.Condition("email", email) && LogIn.Condition("password", password)
    ensures outcome == Fault <==> "email" !in store.items || "password" !in store.items
    ensures outcome == NavigateTo("/") <==> LogIn.CredentialsMatch(store.items, email, password)
    ensures outcome in {Stay, Fault, NavigateTo("/")}
  {
    var logIn := new LogIn.LogInForm();
    logIn.HandleChange("email", email);
    logIn.HandleChange("password", password);
    assert logIn.logInFieldsState["email"] == email;
    assert logIn.logInFieldsState["password"] == password;
    assert !logIn.HasErrors();
    outcome := logIn.HandleSubmit(store);
  }

  /** Sign up with accepted values, then log in with the same email and
      password: the sign-up always reaches `/login`; the login reaches `/`
      exactly when the password survives the quote stripping, and otherwise
      stays on the form. */
  method SignUpThenLogIn(prior: map<string, string>, username: string, email: string, password: string)
    returns (signedUp: Outcome, loggedIn: Outcome)
    requires SignUp.Condition("username", username)
    requires SignUp.Condition("email", email)
    requires SignUp.Condition("password", password)
    ensures signedUp == NavigateTo("/login")
    ensures loggedIn == NavigateTo("/") <==> JsonSafe(password)
    ensures loggedIn == NavigateTo("/") || loggedIn == Stay
  {
    var store := new LocalStorage(prior);
    var mismatchShown;
    mismatchShown, signedUp := SignUpWith(store, username, email, password, password);
    if email != "" {
      EmailIsJsonSafe(email);
    }
    SignUpLogInRoundTrip(prior, username, email, password);
    loggedIn := LogInWith(store, email, password);
  }

  /** Fill in the login form with accepted values and submit it through the
      decoding handler. */
  method LogInDecodedWith(store: LocalStorage, email: string, password: string) returns (outcome: Outcome)
    requires LogIn.Condition("email", email) && LogIn.Condition("password", password)
    ensures outcome == Fault <==> LogIn.Unreadable(store.items)
    ensures outcome == NavigateTo("/") <==> LogIn.CredentialsDecode(store.items, email, password)
    ensures outcome in {Stay, Fault, NavigateTo("/")}
  {
    var logIn := new LogIn.LogInForm();
    logIn.HandleChange("email", email);
    logIn.HandleChange("password", password);
    assert logIn.logInFieldsState["email"] == email;
    assert logIn.logInFieldsState["password"] == password;
    assert !logIn.HasErrors();
    outcome := logIn.HandleSubmitDecoded(store);
  }

  /** With decoding, every accepted sign-up is followed by a successful
      login with the same email and password. */
  method SignUpThenLogInDecoded(prior: map<string, string>, username: string, email: string, password: string)
    returns (signedUp: Outcome, loggedIn: Outcome)
    requires SignUp.Condition("username", username)
    requires SignUp.Condition("email", email)
    requires SignUp.Condition("password", password)
    ensures signedUp == NavigateTo("/login")
    ensures loggedIn == NavigateTo("/")
  {
    var store := new LocalStorage(prior);
    var mismatchShown;
    mismatchShown, signedUp := SignUpWith(store, username, email, password, password);
    SignUpLogInDecodedRoundTrip(prior, username, email, password);
    loggedIn := LogInDecodedWith(store, email, password);
  }

  /** A login on a browser where nobody signed up: the stored email is null
      and the submit handler throws. */
  method LogInBeforeSignUp(email: string, password: string) returns (outcome: Outcome)
    requires LogIn.Condition("email", email) && LogIn.Condition("password", password)
    ensures outcome == Fault
  {
    var store := new LocalStorage(map[]);
    outcome := LogInWith(store, email, password);
  }

  /** The same login through the decoding handler: JSON.parse(null) gives
      null, which equals no typed value, so the form stays where it is. */
  method LogInDecodedBeforeSignUp(email: string, password: string) returns (outcome: Outcome)
    requires LogIn.Condition("email", email) && LogIn.Condition("password", password)
    ensures outcome == Stay
  {
    var store := new LocalStorage(map[]);
    outcome := LogInDecodedWith(store, email, password);
  }

  /** A confirm password that differs from the password shows its error but
      does not close the gate: the sign-up still goes through. */
  method MismatchDoesNotBlock(username: string, email: string, password: string, confirmPassword: string)
    returns (shown: bool, outcome: Outcome)
    requires SignUp.Condition("username", username)
    requires SignUp.Condition("email", email)
    requires SignUp.Condition("password", password)
    requires SignUp.PasswordMismatch(password, confirmPassword)
    ensures shown && outcome == NavigateTo("/login")
  {
    var store := new LocalStorage(map[]);
    shown, outcome := SignUpWith(store, username, email, password, confirmPassword);
  }
}

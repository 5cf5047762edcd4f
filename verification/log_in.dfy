/**
 * The login form (`LogInForm`): email and password, their error flags, and
 * the submit handler that compares them with the credentials in local
 * storage after stripping the double quotes JSON.stringify put there.
 */
module LogIn {
  import opened Forms
  import opened Json
  import opened AuthPatterns

  /** The `name`s of the inputs, the keys of `logInFieldsState` and of `fieldErrors`. */
  const FieldNames: set<string> := {"email", "password"}

  /** The keys of `fieldErrors`, in declaration order. */
  const ErrorOrder: seq<string> := ["email", "password"]

  /** `validationConditions[fieldName].test(fieldValue)`: the same two
      expressions as the sign-up form, each accepting the empty string. */
  function Condition(fieldName: string, fieldValue: string): (ok: bool)
    requires fieldName in FieldNames
    ensures fieldValue == "" ==> ok
  {
    fieldValue == "" ||
    if fieldName == "email" then EmailPattern(fieldValue) else PasswordPattern(fieldValue)
  }

  /** Both credentials are stored, and with their double quotes removed they
      equal what was typed. A typed value holding a quote therefore never
      matches, and a stored value without quotes must equal it exactly. */
  function CredentialsMatch(items: map<string, string>, email: string, password: string): (matched: bool)
    ensures matched ==> NoQuotes(email) && NoQuotes(password)
    ensures "email" in items && "password" in items && NoQuotes(items["email"]) && NoQuotes(items["password"]) ==>
      (matched <==> items["email"] == email && items["password"] == password)
  {
    && "email" in items && "password" in items
    && RemoveQuotes(items["email"]) == email
    && RemoveQuotes(items["password"]) == password
  }

  /** Both credentials are stored as JSON strings that decode to what was
      typed. */
  predicate CredentialsDecode(items: map<string, string>, email: string, password: string) {
    && "email" in items && "password" in items
    && Parse(items["email"]) == Some(email)
    && Parse(items["password"]) == Some(password)
  }

  /** A stored credential is present but is not a JSON string literal, so
      JSON.parse throws on it. A missing credential is not unreadable:
      `getItem` gives null and JSON.parse(null) gives null back. */
  predicate Unreadable(items: map<string, string>) {
    || ("email" in items && Parse(items["email"]).None?)
    || ("password" in items && Parse(items["password"]).None?)
  }

  class LogInForm {
    var logInFieldsState: map<string, string>
    var fieldErrors: map<string, bool>

    /** Each flag is set exactly when the current value of its field fails
        its expression. */
    ghost predicate Valid()
      reads this
    {
      && logInFieldsState.Keys == FieldNames
      && fieldErrors.Keys == FieldNames
      && forall k :: k in fieldErrors ==> fieldErrors[k] == !Condition(k, logInFieldsState[k])
    }

    constructor ()
      ensures Valid()
      ensures logInFieldsState == map["email" := "", "password" := ""]
      ensures fieldErrors == map["email" := false, "password" := false]
    {
      logInFieldsState := map["email" := "", "password" := ""];
      fieldErrors := map["email" := false, "password" := false];
    }

    /** `handleValidation`: the `confirmPassword` guard copied from the
        sign-up form never applies here, since both fields are validated. */
    method HandleValidation(fieldName: string, fieldValue: string)
      requires fieldName in FieldNames
      modifies this`fieldErrors
      ensures fieldErrors == old(fieldErrors)[fieldName := !Condition(fieldName, fieldValue)]
    {
      if fieldName != "confirmPassword" {
        fieldErrors := fieldErrors[fieldName := !Condition(fieldName, fieldValue)];
      }
    }

    /** `handleChange`: store the value and revalidate that field. */
    method HandleChange(name: string, value: string)
      requires Valid() && name in FieldNames
      modifies this
      ensures Valid()
      ensures logInFieldsState == old(logInFieldsState)[name := value]
      ensures fieldErrors == old(fieldErrors)[name := !Condition(name, value)]
    {
      logInFieldsState := logInFieldsState[name := value];
      HandleValidation(name, value);
    }

    /** Some flag is set: the login button is disabled and submit does nothing. */
    ghost predicate HasErrors()
      reads this
    {
      AnyFlagSet(fieldErrors)
    }

    /** `pushErrorsInArray`, which also drives `disabled` on the login button:
        true exactly when the email or the password fails its expression. */
    method PushErrorsInArray() returns (blocked: bool)
      requires Valid()
      ensures blocked <==> HasErrors()
      ensures blocked <==> !Condition("email", logInFieldsState["email"]) || !Condition("password", logInFieldsState["password"])
    {
      assert Enumerates(ErrorOrder, fieldErrors) by {
        assert forall k :: k in FieldNames ==> k in ErrorOrder;
      }
      blocked := Forms.PushErrorsInArray(ErrorOrder, fieldErrors);
      assert fieldErrors["email"] == !Condition("email", logInFieldsState["email"]);
      assert fieldErrors["password"] == !Condition("password", logInFieldsState["password"]);
    }

    /** `handleSubmit`: with the gate open, read the stored email and
        password; a key that was never written makes `getItem` return null and
        the `.replace` call throw. Go to `/` when both match after their quotes
        are removed; otherwise stay. Storage is only read. */
    method HandleSubmit(store: LocalStorage) returns (outcome: Outcome)
      requires Valid()
      ensures outcome in {Stay, Fault, NavigateTo("/")}
      ensures HasErrors() ==> outcome == Stay
      ensures outcome == Fault <==> !HasErrors() && ("email" !in store.items || "password" !in store.items)
      ensures outcome == NavigateTo("/") <==>
        !HasErrors() && CredentialsMatch(store.items, logInFieldsState["email"], logInFieldsState["password"])
    {
      var checkForErrors := PushErrorsInArray();
      outcome := Stay;
      if !checkForErrors {
        var storedEmail := store.GetItem("email");
        if storedEmail.None? {
          return Fault;
        }
        var emailLocalStorage := RemoveQuotes(storedEmail.value);
        var storedPassword := store.GetItem("password");
        if storedPassword.None? {
          return Fault;
        }
        var passwordLocalStorage := RemoveQuotes(storedPassword.value);
        if logInFieldsState["email"] == emailLocalStorage && logInFieldsState["password"] == passwordLocalStorage {
          outcome := NavigateTo("/");
        }
      }
    }

    /** The submit handler with the stored values decoded by JSON.parse
        instead of having their quotes stripped. A missing key decodes to
        null, which equals no typed value; a present value that is not a JSON
        string throws. Otherwise go to `/` exactly when the decoded
        credentials equal what was typed. */
    method HandleSubmitDecoded(store: LocalStorage) returns (outcome: Outcome)
      requires Valid()
      ensures outcome in {Stay, Fault, NavigateTo("/")}
      ensures HasErrors() ==> outcome == Stay
      ensures outcome == Fault <==> !HasErrors() && Unreadable(store.items)
      ensures outcome == NavigateTo("/") <==>
        !HasErrors() && CredentialsDecode(store.items, logInFieldsState["email"], logInFieldsState["password"])
    {
      var checkForErrors := PushErrorsInArray();
      outcome := Stay;
      if !checkForErrors {
        var storedEmail := store.GetItem("email");
        var emailLocalStorage: Option<string> := None;
        if storedEmail.Some? {
          emailLocalStorage := Parse(storedEmail.value);
          if emailLocalStorage.None? {
            return Fault;
          }
        }
        var storedPassword := store.GetItem("password");
        var passwordLocalStorage: Option<string> := None;
        if storedPassword.Some? {
          passwordLocalStorage := Parse(storedPassword.value);
          if passwordLocalStorage.None? {
            return Fault;
          }
        }
        if emailLocalStorage == Some(logInFieldsState["email"]) && passwordLocalStorage == Some(logInFieldsState["password"]) {
          outcome := NavigateTo("/");
        }
      }
    }
  }
}

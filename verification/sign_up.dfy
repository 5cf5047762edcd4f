/**
 * The sign-up form (`SignUpForm`): four fields, error flags for three of
 * them, the confirm-password mismatch shown beside the fourth, and the submit
 * handler that writes the credentials into local storage as JSON strings.
 */
module SignUp {
  import opened Forms
  import opened Json
  import opened AuthPatterns

  /** The `name`s of the inputs, which are also the keys of `signUpFieldsState`. */
  const FieldNames: set<string> := {"username", "email", "password", "confirmPassword"}

  /** The keys of `fieldErrors` and of `validationConditions`, in declaration order. */
  const ErrorOrder: seq<string> := ["email", "password", "username"]
  const ValidatedFields: set<string> := {"email", "password", "username"}

  /** `validationConditions[fieldName].test(fieldValue)`; each expression
      accepts the empty string through its `(^$)` alternative. */
  function Condition(fieldName: string, fieldValue: string): (ok: bool)
    requires fieldName in ValidatedFields
    ensures fieldValue == "" ==> ok
  {
    fieldValue == "" ||
    match fieldName
    case "email" => EmailPattern(fieldValue)
    case "username" => UsernamePattern(fieldValue)
    case _ => PasswordPattern(fieldValue)
  }

  /** The confirm-password error: nothing is shown while the confirm field is
      empty or equal to the password, and something typed there that differs
      from the password is always shown, even when the password is empty. */
  function PasswordMismatch(password: string, confirmPassword: string): (shown: bool)
    ensures confirmPassword == "" ==> !shown
    ensures confirmPassword == password ==> !shown
    ensures confirmPassword != "" && confirmPassword != password ==> shown
  {
    confirmPassword != password && confirmPassword != ""
  }

  /** Local storage after the three writes of a sign-up. */
  function StoredCredentials(items: map<string, string>, username: string, email: string, password: string): map<string, string> {
    items["username" := Stringify(username)]["email" := Stringify(email)]["password" := Stringify(password)]
  }

  class SignUpForm {
    var signUpFieldsState: map<string, string>
    var fieldErrors: map<string, bool>

    /** The keys never change, and each flag is set exactly when the current
        value of its field fails its expression. */
    ghost predicate Valid()
      reads this
    {
      && signUpFieldsState.Keys == FieldNames
      && fieldErrors.Keys == ValidatedFields
      && forall k :: k in fieldErrors ==> fieldErrors[k] == !Condition(k, signUpFieldsState[k])
    }

    constructor ()
      ensures Valid()
      ensures signUpFieldsState == map["username" := "", "email" := "", "password" := "", "confirmPassword" := ""]
      ensures fieldErrors == map["email" := false, "password" := false, "username" := false]
    {
      signUpFieldsState := map["username" := "", "email" := "", "password" := "", "confirmPassword" := ""];
      fieldErrors := map["email" := false, "password" := false, "username" := false];
    }

    /** `handleValidation`: the confirm-password field has no expression and
        leaves the flags alone; any other field's flag becomes the negated test. */
    method HandleValidation(fieldName: string, fieldValue: string)
      requires fieldName in FieldNames
      modifies this`fieldErrors
      ensures fieldErrors ==
        if fieldName == "confirmPassword" then old(fieldErrors)
        else old(fieldErrors)[fieldName := !Condition(fieldName, fieldValue)]
    {
      if fieldName != "confirmPassword" {
        fieldErrors := fieldErrors[fieldName := !Condition(fieldName, fieldValue)];
      }
    }

    /** `handleSignUpChange`: store the value under its field (the other
        three are unchanged) and revalidate that field only. */
    method HandleSignUpChange(name: string, value: string)
      requires Valid() && name in FieldNames
      modifies this
      ensures Valid()
      ensures signUpFieldsState == old(signUpFieldsState)[name := value]
      ensures name != "confirmPassword" ==> fieldErrors == old(fieldErrors)[name := !Condition(name, value)]
      ensures name == "confirmPassword" ==> fieldErrors == old(fieldErrors)
    {
      signUpFieldsState := signUpFieldsState[name := value];
      HandleValidation(name, value);
    }

    /** Some flag is set: the sign-up button is disabled and submit does nothing. */
    ghost predicate HasErrors()
      reads this
    {
      AnyFlagSet(fieldErrors)
    }

    /** `pushErrorsInArray`, which also drives `disabled` on the sign-up
        button: true exactly when the email, password or username fails its
        expression. The confirm password plays no part. */
    method PushErrorsInArray() returns (blocked: bool)
      requires Valid()
      ensures blocked <==> HasErrors()
      ensures blocked <==> exists k :: k in ValidatedFields && !Condition(k, signUpFieldsState[k])
    {
      assert Enumerates(ErrorOrder, fieldErrors) by {
        assert forall k :: k in ValidatedFields ==> k in ErrorOrder;
      }
      blocked := Forms.PushErrorsInArray(ErrorOrder, fieldErrors);
    }

    /** The error shown under the confirm-password field. */
    predicate ConfirmPasswordError()
      reads this
      requires Valid()
    {
      PasswordMismatch(signUpFieldsState["password"], signUpFieldsState["confirmPassword"])
    }

    /** `handleSubmit`: with the gate open, write the JSON encoding of the
        username, email and password under those keys, replacing whatever was
        there, and go to `/login`; otherwise touch nothing. */
    method HandleSubmit(store: LocalStorage) returns (outcome: Outcome)
      requires Valid()
      modifies store
      ensures !HasErrors() ==>
        && outcome == NavigateTo("/login")
        && store.items == StoredCredentials(old(store.items), signUpFieldsState["username"], signUpFieldsState["email"], signUpFieldsState["password"])
      ensures HasErrors() ==> outcome == Stay && store.items == old(store.items)
    {
      var checkForErrors := PushErrorsInArray();
      if !checkForErrors {
        store.SetItem("username", Stringify(signUpFieldsState["username"]));
        store.SetItem("email", Stringify(signUpFieldsState["email"]));
        store.SetItem("password", Stringify(signUpFieldsState["password"]));
        outcome := NavigateTo("/login");
      } else {
        outcome := Stay;
      }
    }
  }
}

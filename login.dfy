/** The sign-in form of src/components/Auth/Login.js: local validation, the
    per-field error class, and the state changes around the sign-in request
    (the request itself goes to the authentication service). */
module Login {
  import opened Common

  /** JavaScript's `a && b` on strings: `a` when it is falsy (empty), else `b`. */
  function JsAnd(a: string, b: string): string
  {
    if a == "" then a else b
  }

  /** isFormValid: `email && password`, taken as a condition. */
  function IsFormValid(email: string, password: string): (r: bool)
    ensures r <==> email != "" && password != ""
  {
    JsAnd(email, password) != ""
  }

  /** Some error message, lower-cased, contains `inputName` (errors.some(...)). */
  function SomeErrorMentions(errors: seq<Error>, inputName: string): (r: bool)
    ensures r <==> exists i :: 0 <= i < |errors| && Contains(LowerAscii(errors[i].message), inputName)
    decreases |errors|
  {
    if errors == [] then false
    else Contains(LowerAscii(errors[0].message), inputName) || SomeErrorMentions(errors[1..], inputName)
  }

  /** handleInputError: the input's class, "error" exactly when some error
      message mentions the input's name (case-insensitively), "" otherwise. */
  function HandleInputError(errors: seq<Error>, inputName: string): (r: string)
    ensures r == "error" <==> exists i :: 0 <= i < |errors| && Contains(LowerAscii(errors[i].message), inputName)
    ensures r != "error" ==> r == ""
    ensures errors == [] ==> r == ""
  {
    if SomeErrorMentions(errors, inputName) then "error" else ""
  }

  /** displayErrors: one paragraph per error, its message, in order. */
  function DisplayErrors(errors: seq<Error>): (r: seq<string>)
    ensures |r| == |errors|
    ensures forall i :: 0 <= i < |errors| ==> r[i] == errors[i].message
    decreases |errors|
  {
    if errors == [] then [] else [errors[0].message] + DisplayErrors(errors[1..])
  }

  /** The sign-in request handleSubmit sends. */
  datatype Credentials = Credentials(email: string, password: string)

  class LoginForm {
    var email: string
    var password: string
    var errors: seq<Error>
    var loading: bool

    constructor ()
      ensures email == "" && password == "" && errors == [] && !loading
    {
      email := "";
      password := "";
      errors := [];
      loading := false;
    }

    /** handleChange: the input named `name` takes `value`; other names touch no field of the form. */
    method HandleChange(name: string, value: string)
      modifies this`email, this`password
      ensures email == (if name == "email" then value else old(email))
      ensures password == (if name == "password" then value else old(password))
    {
      if name == "email" {
        email := value;
      } else if name == "password" {
        password := value;
      }
    }

    /** handleSubmit: an invalid form changes nothing and sends nothing; a
        valid one clears the errors, starts loading and sends the credentials. */
    method HandleSubmit() returns (signIn: Option<Credentials>)
      modifies this`errors, this`loading
      ensures !IsFormValid(email, password) ==> signIn.None? && errors == old(errors) && loading == old(loading)
      ensures IsFormValid(email, password) ==> signIn == Some(Credentials(email, password)) && errors == [] && loading
      ensures IsFormValid(email, password) ==> HandleInputError(errors, "email") == "" && HandleInputError(errors, "password") == ""
    {
      if IsFormValid(email, password) {
        errors := [];
        loading := true;
        signIn := Some(Credentials(email, password));
      } else {
        signIn := None;
      }
    }

    /** The sign-in failed: the error is appended and loading ends. */
    method OnSignInFailed(err: Error)
      modifies this`errors, this`loading
      ensures errors == old(errors) + [err] && !loading
      ensures DisplayErrors(errors) == DisplayErrors(old(errors)) + [err.message]
    {
      errors := errors + [err];
      loading := false;
    }
  }
}

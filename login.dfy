/** The login form (src/components/Login.js): the session write and the
    admin-versus-user routing after a login attempt. */
module LoginForm {
  import opened Base
  import opened Js
  import opened Effects
  import Api

  const FailedText := "Login failed. Please try again later."

  /** The response is accepted when it is truthy and carries a truthy
      `success` and a truthy `userId`. */
  predicate Accepted(response: JsValue)
  {
    Truthy(response) && Truthy(OptProp(response, "success")) && Truthy(OptProp(response, "userId"))
  }

  /** The effects of `handleSubmit` after the `login` call has settled. The
      result is the façade's: the response body, or the error it threw. An
      accepted response writes the session (key 'userId', 30 days) and routes
      user 1 to the admin home, everyone else to the user home. Otherwise the
      response's message is alerted, with a default; reading `message` of a
      null or undefined response throws, and that lands in the same catch as
      a failed call. */
  function SubmitEffects(result: Result<JsValue, JsError>): (r: seq<Effect>)
    ensures result.Success? && Accepted(result.value) && OptProp(result.value, "userId") == Num(1.0) ==>
              r == [SetSession("userId", Num(1.0), 30), Navigate("/adminHome"), Alert(Str("Admin Login successful!"))]
    ensures result.Success? && Accepted(result.value) && OptProp(result.value, "userId") != Num(1.0) ==>
              r == [SetSession("userId", OptProp(result.value, "userId"), 30), Navigate("/userHome"),
                    Alert(Str("Login successful!"))]
    ensures result.Success? && !Accepted(result.value) && result.value !in {Null, Undefined} ==>
              r == [Alert(Or(OptProp(result.value, "message"), Str("Invalid email or password.")))]
    ensures result.Failure? || result.value in {Null, Undefined} ==> r == [Alert(Str(FailedText))]
    ensures (exists e :: e in r && e.SetSession?) <==> result.Success? && Accepted(result.value)
    ensures Routes(r) != [] <==> result.Success? && Accepted(result.value)
  {
    match result
    case Failure(_) => [Alert(Str(FailedText))]
    case Success(response) =>
      if Accepted(response) then
        var userId := OptProp(response, "userId");
        var route := if userId == Num(1.0) then "/adminHome" else "/userHome";
        var text := if userId == Num(1.0) then "Admin Login successful!" else "Login successful!";
        var written := [SetSession("userId", userId, 30), Navigate(route), Alert(Str(text))];
        assert written[0] in written;
        written
      else
        match Prop(response, "message")
        case Failure(_) => [Alert(Str(FailedText))]
        case Success(message) => [Alert(Or(message, Str("Invalid email or password.")))]
  }

  /** A null body is not a successful login: it ends in the generic failure
      alert, not in the invalid-credentials one. */
  lemma NullResponse()
    ensures SubmitEffects(Success(Null)) == [Alert(Str(FailedText))]
    ensures SubmitEffects(Api.Call(Api.Resolved(Null))) == [Alert(Str(FailedText))]
  {
  }

  /** A `userId` of 1 only routes to the admin home as the number 1: the
      comparison is strict, so the string "1" routes to the user home. */
  lemma AdminIsNumberOne(props: map<string, JsValue>)
    requires "success" in props && props["success"] == Bool(true)
    requires "userId" in props && props["userId"] == Str("1")
    ensures Navigate("/userHome") in SubmitEffects(Success(Obj(props)))
    ensures Navigate("/adminHome") !in SubmitEffects(Success(Obj(props)))
  {
  }

  datatype CredentialField = EmailField | PasswordField

  /** The form's state. */
  class LoginView {
    var email: string
    var password: string
    var isSubmitting: bool
    var effects: seq<Effect>

    constructor ()
      ensures email == "" && password == "" && !isSubmitting && effects == []
    {
      email, password, isSubmitting, effects := "", "", false, [];
    }

    /** `handleChange`: only the named credential changes. */
    method HandleChange(field: CredentialField, value: string)
      modifies this
      ensures field == EmailField ==> email == value && password == old(password)
      ensures field == PasswordField ==> password == value && email == old(email)
      ensures isSubmitting == old(isSubmitting) && effects == old(effects)
    {
      match field {
        case EmailField => email := value;
        case PasswordField => password := value;
      }
    }

    /** The first half of `handleSubmit`: the button is marked busy and the
        credentials are sent. */
    method BeginSubmit()
      modifies this
      ensures isSubmitting
      ensures effects == old(effects) + [Send(LoginRequest(email, password))]
      ensures email == old(email) && password == old(password)
    {
      isSubmitting := true;
      effects := effects + [Send(LoginRequest(email, password))];
    }

    /** The second half: the outcome's effects, then `finally` clears the
        busy flag on every path. */
    method CompleteSubmit(outcome: Api.AxiosOutcome<JsValue>)
      modifies this
      ensures !isSubmitting
      ensures effects == old(effects) + SubmitEffects(Api.Call(outcome))
      ensures email == old(email) && password == old(password)
    {
      effects := effects + SubmitEffects(Api.Call(outcome));
      isSubmitting := false;
    }

    method HandleSubmit(outcome: Api.AxiosOutcome<JsValue>)
      modifies this
      ensures !isSubmitting
      ensures effects == old(effects) + [Send(LoginRequest(email, password))] + SubmitEffects(Api.Call(outcome))
      ensures email == old(email) && password == old(password)
    {
      BeginSubmit();
      CompleteSubmit(outcome);
    }
  }
}

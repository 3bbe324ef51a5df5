/** The password reset form (src/components/ResetPassword.js): the
    confirmation check and the table from the `resetPassword` outcome to the
    message shown and its type. */
module ResetPasswordForm {
  import opened Base
  import opened Js
  import opened Effects
  import Api

  /** The text shown and whether it is styled as success or error. */
  datatype Shown = Shown(message: JsValue, messageType: string)

  /** The message table once `resetPassword` has settled: a truthy `success`
      is the success text; any other response shows its message or a
      default; a thrown error shows its message or another default. */
  function OutcomeMessage(result: Result<Api.ResetResponse, JsError>): (r: Shown)
    ensures result.Success? && Truthy(result.value.success) ==> r == Shown(Str("Password reset successful!"), "success")
    ensures result.Success? && !Truthy(result.value.success) ==>
              r == Shown(Or(result.value.message, Str("Password reset failed. Please try again.")), "error")
    ensures result.Failure? ==> r == Shown(Or(result.error.message, Str("Error occurred. Please try again.")), "error")
    ensures r.messageType == "success" <==> result.Success? && Truthy(result.value.success)
    ensures Truthy(r.message)
  {
    match result
    case Success(response) =>
      if Truthy(response.success) then Shown(Str("Password reset successful!"), "success")
      else Shown(Or(response.message, Str("Password reset failed. Please try again.")), "error")
    case Failure(e) => Shown(Or(e.message, Str("Error occurred. Please try again.")), "error")
  }

  /** Whatever the body of a non-ok response says, the form shows the status
      text message, as an error. */
  lemma NonOkResponse(statusText: string, body: Result<JsValue, string>)
    ensures OutcomeMessage(Api.ResetPassword(Api.Responded(false, statusText, body)))
            == Shown(Str("Failed to reset password: " + statusText), "error")
  {
  }

  /** An ok response whose body has a truthy `success` shows the success text. */
  lemma OkResponse(props: map<string, JsValue>)
    requires "success" in props && Truthy(props["success"])
    ensures OutcomeMessage(Api.ResetPassword(Api.Responded(true, "OK", Success(Obj(props)))))
            == Shown(Str("Password reset successful!"), "success")
  {
  }

  /** The form's state; `token` is the URL's `token` query parameter. */
  class ResetView {
    const token: Option<string>
    var password: string
    var confirmPassword: string
    var message: JsValue
    var messageType: string
    var effects: seq<Effect>

    constructor (tokenParam: Option<string>)
      ensures token == tokenParam && password == "" && confirmPassword == ""
      ensures message == Str("") && messageType == "" && effects == []
    {
      token := tokenParam;
      password, confirmPassword := "", "";
      message, messageType, effects := Str(""), "", [];
    }

    /** `handleSubmit`. Mismatched passwords stop before any request; otherwise
        exactly `{token, newPassword: password}` is sent and the outcome picks
        the message. */
    method HandleSubmit(outcome: Api.FetchOutcome<JsValue>)
      modifies this
      ensures password != confirmPassword ==>
                message == Str("Passwords do not match.") && messageType == "error" && effects == old(effects)
      ensures password == confirmPassword ==>
                effects == old(effects) + [Send(ResetPasswordRequest(token, password))]
                && Shown(message, messageType) == OutcomeMessage(Api.ResetPassword(outcome))
      ensures password == old(password) && confirmPassword == old(confirmPassword)
    {
      if password != confirmPassword {
        message := Str("Passwords do not match.");
        messageType := "error";
        return;
      }
      effects := effects + [Send(ResetPasswordRequest(token, password))];
      var shown := OutcomeMessage(Api.ResetPassword(outcome));
      message := shown.message;
      messageType := shown.messageType;
    }
  }
}

/** The registration form (src/components/Register.js): the handlers that
    clear the error message, the multipart payload with an optional profile
    picture, and the messages and redirect after `registerUser` settles. */
module RegisterForm {
  import opened Base
  import opened Js
  import opened Effects
  import Api

  const SuccessText := "Registration successful! Redirecting..."
  const FallbackText := "Registration failed. Please check your details or try again."

  /** The form state on mount. */
  const InitialForm: map<string, JsValue> := map["name" := Str(""), "email" := Str(""), "password" := Str("")]

  /** The payload of `handleSubmit`: name, email and password in that order,
      then the profile picture only when one is chosen. */
  function Payload(form: map<string, JsValue>, profilePic: JsValue): (r: FormData)
    ensures |r| == 3 || |r| == 4
    ensures Keys(r)[..3] == ["name", "email", "password"]
    ensures forall i :: 0 <= i < 3 ==> r[i].1 == Get(form, Keys(r)[i])
    ensures |r| == 4 <==> Truthy(profilePic)
    ensures |r| == 4 ==> r[3] == ("profilePic", profilePic)
  {
    [("name", Get(form, "name")), ("email", Get(form, "email")), ("password", Get(form, "password"))]
    + (if Truthy(profilePic) then [("profilePic", profilePic)] else [])
  }

  /** The error message shown after a failed `registerUser`:
      `error.message || fallback`. */
  function FailureMessage(e: JsError): (r: JsValue)
    ensures Truthy(r)
    ensures Truthy(e.message) ==> r == e.message
  {
    Or(e.message, Str(FallbackText))
  }

  /** `registerUser` always rejects with a truthy message, so the
      component's `||` never falls through to its own fallback: what is shown
      is the façade's message, for each of its three kinds of failure. */
  lemma FallbackNeverTaken(outcome: Api.AxiosOutcome<JsValue>)
    requires outcome.Rejected?
    ensures FailureMessage(Api.RegisterUser(outcome).error) == Api.RegisterUser(outcome).error.message
    ensures outcome.error.response.None? ==>
              FailureMessage(Api.RegisterUser(outcome).error) != Str(FallbackText)
  {
  }

  /** The form's state. */
  class RegisterView {
    var formData: map<string, JsValue>
    var profilePic: JsValue
    var errorMessage: JsValue
    var successMessage: string
    var loading: bool
    var effects: seq<Effect>

    constructor ()
      ensures formData == InitialForm && profilePic == Null
      ensures errorMessage == Str("") && successMessage == "" && !loading && effects == []
    {
      formData, profilePic := InitialForm, Null;
      errorMessage, successMessage, loading, effects := Str(""), "", false, [];
    }

    /** `handleChange`: the named field takes the typed text and the error
        message is cleared. */
    method HandleChange(name: string, value: string)
      modifies this
      ensures formData == old(formData)[name := Str(value)]
      ensures errorMessage == Str("")
      ensures profilePic == old(profilePic) && successMessage == old(successMessage)
      ensures loading == old(loading) && effects == old(effects)
    {
      formData := formData[name := Str(value)];
      errorMessage := Str("");
    }

    /** `handleFileChange`: the first chosen file (undefined when none) and a
        cleared error message. */
    method HandleFileChange(files: seq<JsValue>)
      modifies this
      ensures profilePic == (if files == [] then Undefined else files[0])
      ensures errorMessage == Str("")
      ensures formData == old(formData) && successMessage == old(successMessage)
      ensures loading == old(loading) && effects == old(effects)
    {
      profilePic := if files == [] then Undefined else files[0];
      errorMessage := Str("");
    }

    /** The first half of `handleSubmit`: busy, both messages cleared, the
        payload posted. */
    method BeginSubmit()
      modifies this
      ensures loading && errorMessage == Str("") && successMessage == ""
      ensures effects == old(effects) + [Send(RegisterUserRequest(Payload(formData, profilePic)))]
      ensures formData == old(formData) && profilePic == old(profilePic)
    {
      loading := true;
      errorMessage := Str("");
      successMessage := "";
      effects := effects + [Send(RegisterUserRequest(Payload(formData, profilePic)))];
    }

    /** The second half: a success shows the success text and schedules the
        verification page; a failure shows the rejection's message. `finally`
        clears the busy flag on both paths. */
    method CompleteSubmit(outcome: Api.AxiosOutcome<JsValue>)
      requires errorMessage == Str("") && successMessage == ""
      modifies this
      ensures !loading
      ensures outcome.Resolved? ==>
                successMessage == SuccessText && errorMessage == Str("")
                && effects == old(effects) + [NavigateLater("/verify", 2000)]
      ensures outcome.Rejected? ==>
                successMessage == "" && errorMessage == Api.RegisterUser(outcome).error.message
                && Truthy(errorMessage) && effects == old(effects)
      ensures formData == old(formData) && profilePic == old(profilePic)
    {
      match Api.RegisterUser(outcome) {
        case Success(_) =>
          successMessage := SuccessText;
          effects := effects + [NavigateLater("/verify", 2000)];
        case Failure(e) =>
          errorMessage := FailureMessage(e);
      }
      loading := false;
    }

    method HandleSubmit(outcome: Api.AxiosOutcome<JsValue>)
      modifies this
      ensures !loading
      ensures outcome.Resolved? ==>
                successMessage == SuccessText && errorMessage == Str("")
                && effects == old(effects) + [Send(RegisterUserRequest(Payload(formData, profilePic))),
                                              NavigateLater("/verify", 2000)]
      ensures outcome.Rejected? ==>
                successMessage == "" && errorMessage == Api.RegisterUser(outcome).error.message && Truthy(errorMessage)
                && effects == old(effects) + [Send(RegisterUserRequest(Payload(formData, profilePic)))]
      ensures formData == old(formData) && profilePic == old(profilePic)
    {
      BeginSubmit();
      CompleteSubmit(outcome);
    }
  }
}

/** The profile update form (src/components/ProfileUpdate.js): the multipart
    payload, the request it is sent with, and the alert and redirect after
    the call settles.

    `userProfileUpdate` takes the user's id and then the form data
    (src/services/api.js:58-69), but the form calls it with the form data
    alone: the form data ends up in the URL path and no body is sent.
    `AsWrittenRequest` models that call, and the form's `HandleSubmit` sends
    it. `ProfileRequest` is the intended one, with the logged-in user's id in
    the path and the form data as the body; `HandleSubmitIntended` is the
    handler that sends it. */
module ProfileUpdateForm {
  import opened Base
  import opened Js
  import opened Effects
  import Api

  const SuccessText := "Profile updated successfully!"
  const FailureText := "Failed to update profile. Please try again."

  /** The payload of `handleSubmit`: name and email, then the picture under
      `file` only when one is chosen. */
  function Payload(name: string, email: string, profilePic: JsValue): (r: FormData)
    ensures |r| == 2 || |r| == 3
    ensures r[0] == ("name", Str(name)) && r[1] == ("email", Str(email))
    ensures |r| == 3 <==> Truthy(profilePic)
    ensures |r| == 3 ==> r[2] == ("file", profilePic)
  {
    [("name", Str(name)), ("email", Str(email))] + (if Truthy(profilePic) then [("file", profilePic)] else [])
  }

  /** The request as the component makes it: `userProfileUpdate(formData)`
      binds the form data to the `userId` parameter, which is interpolated
      into the path, and leaves the body parameter undefined. */
  function AsWrittenRequest(payload: FormData): (r: Request)
    ensures r.UserProfileUpdateRequest? && r.userIdArg == FormDataArg(payload)
    ensures r.body.None?
  {
    UserProfileUpdateRequest(FormDataArg(payload), None)
  }

  /** As written, nothing the user typed is sent as the body, and the path
      names no user. */
  lemma AsWrittenLosesProfile(name: string, email: string, profilePic: JsValue)
    ensures var q := AsWrittenRequest(Payload(name, email, profilePic));
            !q.userIdArg.IdArg? && forall fd :: q.body == Some(fd) ==> ("name", Str(name)) !in fd
  {
  }

  /** The intended request: the logged-in user's id in the path (undefined
      when there is no session) and the form data as the body. */
  function ProfileRequest(session: Option<int>, payload: FormData): (r: Request)
    ensures r.UserProfileUpdateRequest? && r.body == Some(payload)
    ensures session.Some? ==> r.userIdArg == IdArg(session.value)
    ensures session.None? ==> r.userIdArg == NoId
  {
    UserProfileUpdateRequest(if session.Some? then IdArg(session.value) else NoId, Some(payload))
  }

  /** With the intended call the server receives the typed name and email
      for the logged-in user, and the picture when one was chosen. */
  lemma ProfileReachesServer(userId: int, name: string, email: string, profilePic: JsValue)
    ensures var q := ProfileRequest(Some(userId), Payload(name, email, profilePic));
            q.userIdArg == IdArg(userId) && q.body.Some?
            && ("name", Str(name)) in q.body.value && ("email", Str(email)) in q.body.value
            && (Truthy(profilePic) <==> ("file", profilePic) in q.body.value)
  {
    var p := Payload(name, email, profilePic);
    assert p[0] in p && p[1] in p;
    if Truthy(profilePic) {
      assert p[2] in p;
    }
  }

  /** The effects of `handleSubmit` once the call has settled. */
  function SubmitEffects(succeeded: bool): (r: seq<Effect>)
    ensures succeeded ==> r == [Alert(Str(SuccessText)), Navigate("/")]
    ensures !succeeded ==> r == [Alert(Str(FailureText))]
    ensures Routes(r) != [] <==> succeeded
  {
    if succeeded then [Alert(Str(SuccessText)), Navigate("/")] else [Alert(Str(FailureText))]
  }

  /** The form's state. */
  class ProfileView {
    var name: string
    var email: string
    var profilePic: JsValue
    var effects: seq<Effect>

    constructor ()
      ensures name == "" && email == "" && profilePic == Null && effects == []
    {
      name, email, profilePic, effects := "", "", Null, [];
    }

    method SetName(value: string)
      modifies this
      ensures name == value && email == old(email) && profilePic == old(profilePic) && effects == old(effects)
    {
      name := value;
    }

    method SetEmail(value: string)
      modifies this
      ensures email == value && name == old(name) && profilePic == old(profilePic) && effects == old(effects)
    {
      email := value;
    }

    /** The file input: the first chosen file, undefined when none. */
    method SetProfilePic(files: seq<JsValue>)
      modifies this
      ensures profilePic == (if files == [] then Undefined else files[0])
      ensures name == old(name) && email == old(email) && effects == old(effects)
    {
      profilePic := if files == [] then Undefined else files[0];
    }

    /** `handleSubmit` as written: the one-argument call, then a success is
        announced and leads home, a failure is announced. */
    method HandleSubmit(outcome: Api.AxiosOutcome<JsValue>)
      modifies this
      ensures effects == old(effects) + [Send(AsWrittenRequest(Payload(name, email, profilePic)))]
                                       + SubmitEffects(outcome.Resolved?)
      ensures name == old(name) && email == old(email) && profilePic == old(profilePic)
    {
      var payload := Payload(name, email, profilePic);
      effects := effects + [Send(AsWrittenRequest(payload))];
      effects := effects + SubmitEffects(Api.Call(outcome).Success?);
    }

    /** `handleSubmit` with the intended call: `session` is the logged-in
        user's id, and the payload goes to that user's update endpoint. */
    method HandleSubmitIntended(session: Option<int>, outcome: Api.AxiosOutcome<JsValue>)
      modifies this
      ensures effects == old(effects) + [Send(ProfileRequest(session, Payload(name, email, profilePic)))]
                                       + SubmitEffects(outcome.Resolved?)
      ensures name == old(name) && email == old(email) && profilePic == old(profilePic)
    {
      var payload := Payload(name, email, profilePic);
      effects := effects + [Send(ProfileRequest(session, payload))];
      effects := effects + SubmitEffects(Api.Call(outcome).Success?);
    }
  }
}

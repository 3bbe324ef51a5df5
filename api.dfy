/** The API façade (src/services/api.js): how each endpoint wrapper turns the
    outcome of its HTTP call into a resolved value or a thrown error. The HTTP
    transport itself is not modelled; each call's outcome is a parameter. */
module Api {
  import opened Base
  import opened Js
  import opened Effects

  /** What a catch clause sees of an axios rejection, or of an `Error` thrown
      inside the façade's own try block: `response.data` when the server
      answered, whether a request went out, and the error's message. */
  datatype Caught = Caught(response: Option<JsValue>, request: bool, message: string)

  /** The outcome of one axios call. */
  datatype AxiosOutcome<T> = Resolved(data: T) | Rejected(error: Caught)

  /** The outcome of one `fetch` call: the promise rejects (a network failure,
      with the TypeError's message), or a response arrives whose body
      `response.json()` either parses or rejects with a parse error message. */
  datatype FetchOutcome<T> =
    | FetchRejected(message: string)
    | Responded(ok: bool, statusText: string, body: Result<T, string>)

  /** What `resetPassword` resolves with. */
  datatype ResetResponse = ResetResponse(success: JsValue, message: JsValue)

  /** A façade call that consults the session first: the request it sent, if
      any, and how it settled. */
  datatype Exchange<T> = Exchange(sent: Option<Request>, result: Result<T, JsError>)

  const NotLoggedIn := "User not logged in."

  /** `handleApiError`: never returns normally; it always produces the error
      to throw. With a server response the message is the response body's
      `message` when that is truthy, otherwise a generic text (reading
      `message` of a null or undefined body throws a TypeError instead).
      Without a response it is the network error text. */
  function HandleApiError(e: Caught): (r: JsError)
    ensures Truthy(r.message)
    ensures e.response.None? ==> r.message == Str("Network error: " + e.message)
    ensures e.response.Some? && e.response.value !in {Null, Undefined}
            && Truthy(OptProp(e.response.value, "message"))
            ==> r.message == OptProp(e.response.value, "message")
    ensures e.response.Some? && e.response.value !in {Null, Undefined}
            && !Truthy(OptProp(e.response.value, "message"))
            ==> r.message == Str("An error occurred")
    ensures e.response.Some? && e.response.value in {Null, Undefined}
            ==> r == Prop(e.response.value, "message").error
  {
    match e.response
    case Some(data) =>
      (match Prop(data, "message")
       case Failure(typeError) => typeError
       case Success(m) => JsError(Or(m, Str("An error occurred"))))
    case None => JsError(Str("Network error: " + e.message))
  }

  /** Every wrapper of the form `try { return (await api.x(...)).data } catch
      (error) { handleApiError(error) }`: it resolves exactly when the call
      does, with the call's data, and otherwise rejects with an error whose
      message is truthy (it never resolves with undefined after a failure). */
  function Call<T>(outcome: AxiosOutcome<T>): (r: Result<T, JsError>)
    ensures r.Success? <==> outcome.Resolved?
    ensures r.Success? ==> r.value == outcome.data
    ensures r.Failure? ==> Truthy(r.error.message)
  {
    match outcome
    case Resolved(data) => Success(data)
    case Rejected(e) => Failure(HandleApiError(e))
  }

  /** `resetPassword` (uses `fetch`). On a non-ok response the try block
      throws, either the body's message or a JSON parse error, but its own
      catch replaces that error, so the result is always the status text
      message whatever the body holds. */
  function ResetPassword(outcome: FetchOutcome<JsValue>): (r: Result<ResetResponse, JsError>)
    ensures outcome.FetchRejected? ==> r == Failure(JsError(Str(outcome.message)))
    ensures outcome.Responded? && !outcome.ok
            ==> r == Failure(JsError(Str("Failed to reset password: " + outcome.statusText)))
    ensures outcome.Responded? && outcome.ok && outcome.body.Success? && outcome.body.value.Obj?
            ==> r == Success(ResetResponse(Get(outcome.body.value.props, "success"),
                                           Get(outcome.body.value.props, "message")))
    ensures r.Success? ==> outcome.Responded? && outcome.ok
  {
    match outcome
    case FetchRejected(m) => Failure(JsError(Str(m)))
    case Responded(ok, statusText, body) =>
      if !ok then
        Failure(JsError(Str("Failed to reset password: " + statusText)))
      else
        match body
        case Failure(parseError) => Failure(JsError(Str(parseError)))
        case Success(data) =>
          match Prop(data, "success")
          case Failure(typeError) => Failure(typeError)
          case Success(success) => Success(ResetResponse(success, Prop(data, "message").value))
  }

  /** `registerUser`: failures are classified three ways, by whether the
      server answered and whether a request went out. */
  function RegisterUser<T>(outcome: AxiosOutcome<T>): (r: Result<T, JsError>)
    ensures r.Success? <==> outcome.Resolved?
    ensures r.Success? ==> r.value == outcome.data
    ensures r.Failure? ==> Truthy(r.error.message)
    ensures outcome.Rejected? && outcome.error.response.Some?
            ==> r.error.message == Or(OptProp(outcome.error.response.value, "message"),
                                      Str("Error registering user"))
    ensures outcome.Rejected? && outcome.error.response.None? && outcome.error.request
            ==> r.error.message == Str("No response from server. Please try again.")
    ensures outcome.Rejected? && outcome.error.response.None? && !outcome.error.request
            ==> r.error.message == Str("An unexpected error occurred. Please try again.")
  {
    match outcome
    case Resolved(data) => Success(data)
    case Rejected(e) =>
      if e.response.Some? then
        Failure(JsError(Or(OptProp(e.response.value, "message"), Str("Error registering user"))))
      else if e.request then
        Failure(JsError(Str("No response from server. Please try again.")))
      else
        Failure(JsError(Str("An unexpected error occurred. Please try again.")))
  }

  /** `throw error.response?.data || fallback`: the thrown value is the raw
      response body (not an Error object) when it is truthy, else the
      fallback string; either way it is truthy. */
  function RawRejection(e: Caught, fallback: string): (thrown: JsValue)
    requires fallback != ""
    ensures Truthy(thrown)
    ensures e.response.Some? && Truthy(e.response.value) ==> thrown == e.response.value
    ensures !(e.response.Some? && Truthy(e.response.value)) ==> thrown == Str(fallback)
  {
    Or(if e.response.Some? then e.response.value else Undefined, Str(fallback))
  }

  /** `verifyAccount`: rejects with the raw response body or a fixed string. */
  function VerifyAccount<T>(outcome: AxiosOutcome<T>): (r: Result<T, JsValue>)
    ensures r.Success? <==> outcome.Resolved?
    ensures r.Success? ==> r.value == outcome.data
    ensures r.Failure? ==> Truthy(r.error)
    ensures r.Failure? && !(outcome.error.response.Some? && Truthy(outcome.error.response.value))
            ==> r.error == Str("Error verifying account")
    ensures r.Failure? && outcome.error.response.Some? && Truthy(outcome.error.response.value)
            ==> r.error == outcome.error.response.value
  {
    match outcome
    case Resolved(data) => Success(data)
    case Rejected(e) => Failure(RawRejection(e, "Error verifying account"))
  }

  /** `regenerateOtp`: same shape as `verifyAccount`, with its own fallback. */
  function RegenerateOtp<T>(outcome: AxiosOutcome<T>): (r: Result<T, JsValue>)
    ensures r.Success? <==> outcome.Resolved?
    ensures r.Success? ==> r.value == outcome.data
    ensures r.Failure? ==> Truthy(r.error)
    ensures r.Failure? && !(outcome.error.response.Some? && Truthy(outcome.error.response.value))
            ==> r.error == Str("Error regenerating OTP")
    ensures r.Failure? && outcome.error.response.Some? && Truthy(outcome.error.response.value)
            ==> r.error == outcome.error.response.value
  {
    match outcome
    case Resolved(data) => Success(data)
    case Rejected(e) => Failure(RawRejection(e, "Error regenerating OTP"))
  }

  /** `addToWishlist` (uses `fetch`): a non-ok response throws a fixed
      message; a network or parse failure is rethrown unchanged. */
  function AddToWishlist<T>(outcome: FetchOutcome<T>): (r: Result<T, JsError>)
    ensures r.Success? <==> outcome.Responded? && outcome.ok && outcome.body.Success?
    ensures r.Success? ==> r.value == outcome.body.value
    ensures outcome.Responded? && !outcome.ok ==> r == Failure(JsError(Str("Failed to add to wishlist")))
    ensures outcome.FetchRejected? ==> r == Failure(JsError(Str(outcome.message)))
  {
    match outcome
    case FetchRejected(m) => Failure(JsError(Str(m)))
    case Responded(ok, _, body) =>
      if !ok then Failure(JsError(Str("Failed to add to wishlist")))
      else
        match body
        case Failure(parseError) => Failure(JsError(Str(parseError)))
        case Success(data) => Success(data)
  }

  /** A façade that reads the session first and throws inside its own try
      block when no user is logged in; that throw reaches `handleApiError`,
      which sees no response. */
  function SessionGuarded<T>(session: Option<int>, request: int -> Request, outcome: AxiosOutcome<T>): (r: Exchange<T>)
    ensures session.None? ==> r.sent.None?
    ensures session.None? ==> r.result == Failure(JsError(Str("Network error: User not logged in.")))
    ensures session.Some? ==> r.sent == Some(request(session.value))
    ensures session.Some? ==> (r.result.Success? <==> outcome.Resolved?)
  {
    if session.None? then
      assert "Network error: " + NotLoggedIn == "Network error: User not logged in.";
      Exchange(None, Failure(HandleApiError(Caught(None, false, NotLoggedIn))))
    else
      Exchange(Some(request(session.value)), Call(outcome))
  }

  /** `getUserWishlist`. */
  function GetUserWishlist<T>(session: Option<int>, outcome: AxiosOutcome<T>): (r: Exchange<T>)
    ensures session.None? ==> r == Exchange(None, Failure(JsError(Str("Network error: User not logged in."))))
    ensures session.Some? ==> r.sent == Some(GetUserWishlistRequest(session.value))
    ensures session.Some? ==> r.result == Call(outcome)
  {
    SessionGuarded(session, userId => GetUserWishlistRequest(userId), outcome)
  }

  /** `getUserCart`. */
  function GetUserCart<T>(session: Option<int>, outcome: AxiosOutcome<T>): (r: Exchange<T>)
    ensures session.None? ==> r == Exchange(None, Failure(JsError(Str("Network error: User not logged in."))))
    ensures session.Some? ==> r.sent == Some(GetUserCartRequest(session.value))
    ensures session.Some? ==> r.result == Call(outcome)
  {
    SessionGuarded(session, userId => GetUserCartRequest(userId), outcome)
  }
}

/** The JavaScript values the components pass around: parsed JSON bodies,
    form-state objects and the `Error` objects the façade throws. */
module Js {
  import opened Base

  /** A JavaScript value. `Obj` is a plain object (a parsed JSON object or a
      form-state object); `Blob` is a `File` picked in a file input, known by
      its name. Numbers are exact (NaN and rounding are not modelled). */
  datatype JsValue =
    | Undefined
    | Null
    | Bool(b: bool)
    | Num(n: real)
    | Str(s: string)
    | Obj(props: map<string, JsValue>)
    | Blob(name: string)

  /** JavaScript truthiness. */
  predicate Truthy(v: JsValue)
  {
    match v
    case Undefined => false
    case Null => false
    case Bool(b) => b
    case Num(n) => n != 0.0
    case Str(s) => s != ""
    case Obj(_) => true
    case Blob(_) => true
  }

  /** `a || b`: the left operand when it is truthy, otherwise the right one. */
  function Or(a: JsValue, b: JsValue): (r: JsValue)
    ensures Truthy(b) ==> Truthy(r)
    ensures r == a || r == b
  {
    if Truthy(a) then a else b
  }

  /** `s.length`: JavaScript counts UTF-16 code units, so a character
      outside the Basic Multilingual Plane (an emoji, say) counts twice. */
  function Utf16Length(s: string): (n: nat)
    ensures |s| <= n <= 2 * |s|
    ensures n == |s| <==> forall i :: 0 <= i < |s| ==> (s[i] as int) < 0x1_0000
  {
    if s == [] then 0
    else (if (s[0] as int) < 0x1_0000 then 1 else 2) + Utf16Length(s[1..])
  }

  /** An `Error` object; `message` is the value that was given to `new Error(...)`. */
  datatype JsError = JsError(message: JsValue)

  /** The TypeError that V8 throws when a property of null or undefined is read. */
  function TypeError(receiver: string, key: string): JsError
  {
    JsError(Str("Cannot read properties of " + receiver + " (reading '" + key + "')"))
  }

  /** Property lookup in a plain object; a missing key reads as undefined. */
  function Get(props: map<string, JsValue>, key: string): JsValue
  {
    if key in props then props[key] else Undefined
  }

  /** `v.key`: throws a TypeError on null and undefined. Only plain objects and
      a file's `name` carry properties in this model. */
  function Prop(v: JsValue, key: string): (r: Result<JsValue, JsError>)
    ensures r.Failure? <==> v == Undefined || v == Null
    ensures r.Failure? ==> Truthy(r.error.message)
  {
    match v
    case Undefined => Failure(TypeError("undefined", key))
    case Null => Failure(TypeError("null", key))
    case Obj(p) => Success(Get(p, key))
    case Blob(name) => Success(if key == "name" then Str(name) else Undefined)
    case _ => Success(Undefined)
  }

  /** `v?.key`: undefined on null and undefined, `v.key` otherwise. */
  function OptProp(v: JsValue, key: string): (r: JsValue)
    ensures Prop(v, key).Success? ==> r == Prop(v, key).value
    ensures Prop(v, key).Failure? ==> r == Undefined
  {
    match v
    case Undefined => Undefined
    case Null => Undefined
    case _ => Prop(v, key).value
  }
}

/** What a handler does besides updating its own state: the requests it sends
    through the API façade, alerts, navigation and session writes. */
module Effects {
  import opened Base
  import opened Js

  /** A `FormData`: its entries in the order they were appended. */
  type FormData = seq<(string, JsValue)>

  /** The keys of a `FormData`, in order. */
  function Keys(fd: FormData): (r: seq<string>)
    ensures |r| == |fd|
    ensures forall i :: 0 <= i < |fd| ==> r[i] == fd[i].0
  {
    seq(|fd|, i requires 0 <= i < |fd| => fd[i].0)
  }

  /** A value placed in a URL path segment. */
  datatype PathArg = IdArg(id: int) | NoId | FormDataArg(form: FormData)

  /** One backend request, by endpoint, with the arguments the caller supplies. */
  datatype Request =
    | RegisterUserRequest(form: FormData)
    | VerifyAccountRequest(email: string, otp: string)
    | RegenerateOtpRequest(email: string)
    | LoginRequest(email: string, password: string)
    | ResetPasswordRequest(token: Option<string>, newPassword: string)
    | UserProfileUpdateRequest(userIdArg: PathArg, body: Option<FormData>)
    | AddArtRequest(form: FormData)
    | GetArtsRequest
    | GetCategoriesRequest
    | GetArtByIdRequest(routeArtId: string)
    | UpdateArtByIdRequest(routeArtId: string, form: FormData)
    | AddToWishlistRequest(userId: int, artId: int)
    | GetUserWishlistRequest(userId: int)
    | RemoveFromWishlistRequest(wishlistItemId: int)
    | ClearWishlistRequest(sessionUserId: Option<int>)
    | AddToCartRequest(userId: int, artId: int, quantity: int)
    | GetUserCartRequest(userId: int)
    | UpdateCartItemRequest(sessionUserId: Option<int>, cartItemId: int, editedQuantity: Option<int>)
    | RemoveFromCartRequest(cartItemId: int)
    | ClearUserCartRequest(sessionUserId: Option<int>)

  /** An observable effect of a handler. `NavigateLater` is a navigation
      scheduled with `setTimeout`. */
  datatype Effect =
    | Send(request: Request)
    | Alert(text: JsValue)
    | Navigate(route: string)
    | NavigateLater(route: string, delayMs: nat)
    | SetSession(key: string, value: JsValue, days: nat)

  /** The requests in an effect log, in order. */
  function Requests(log: seq<Effect>): (r: seq<Request>)
    ensures |r| <= |log|
    ensures forall q :: q in r <==> Send(q) in log
  {
    if log == [] then []
    else (if log[0].Send? then [log[0].request] else []) + Requests(log[1..])
  }

  /** The routes navigated to, immediately or later, in an effect log. */
  function Routes(log: seq<Effect>): (r: seq<string>)
    ensures forall route :: route in r <==> Navigate(route) in log || exists d :: NavigateLater(route, d) in log
  {
    if log == [] then []
    else (match log[0]
          case Navigate(route) => [route]
          case NavigateLater(route, _) => [route]
          case _ => []) + Routes(log[1..])
  }
}

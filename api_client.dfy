/** The front end's HTTP client glue (frontend/src/utils/api.js): the
    request interceptor that attaches the stored token, the response
    interceptor that forgets the token on a 401, and `handleAPIError`,
    which picks the message to show from an error. */
module ApiClient {
  import opened Values

  const DefaultErrorMessage: string := "An error occurred"

  /** What a JavaScript call produced: a value, a rejected promise, or a
      `TypeError` thrown by a property access on `null`/`undefined`. */
  datatype Completion = Fulfilled(value: Value) | Rejected(reason: Value) | ThrewTypeError

  predicate Nullish(v: Value) {
    v.Undefined? || v.Null?
  }

  /** A parameter with a JavaScript default: `undefined` takes the default. */
  function WithDefault(v: Value, default: Value): Value {
    if v.Undefined? then default else v
  }

  /** Reference definition: the first truthy value of a list, else the
      fallback. */
  function FirstTruthy(candidates: seq<Value>, fallback: Value): (r: Value)
    ensures r in candidates || r == fallback
  {
    if candidates == [] then fallback
    else if Truthy(candidates[0]) then candidates[0]
    else FirstTruthy(candidates[1..], fallback)
  }

  function Detail(error: Value): Value {
    OptField(OptField(Field(error, "response"), "data"), "detail")
  }

  function Message(error: Value): Value {
    OptField(OptField(Field(error, "response"), "data"), "message")
  }

  /** `handleAPIError(error, defaultMessage)`: `response.data.detail` when it
      is truthy, else `response.data.message`, else `error.message`, else
      the default message. Reading `error.response` on a nullish error
      throws. */
  function HandleApiError(error: Value, defaultMessage: Value): (r: Option<Value>)
    ensures r.None? <==> Nullish(error)
    ensures r.Some? && Truthy(Detail(error)) ==> r.value == Detail(error)
    ensures r.Some? && !Truthy(Detail(error)) && Truthy(Message(error)) ==> r.value == Message(error)
    ensures r.Some? && Truthy(WithDefault(defaultMessage, Str(DefaultErrorMessage))) ==> Truthy(r.value)
  {
    if Nullish(error) then None
    else if Truthy(Detail(error)) then Some(Detail(error))
    else if Truthy(Message(error)) then Some(Message(error))
    else if Truthy(Field(error, "message")) then Some(Field(error, "message"))
    else Some(WithDefault(defaultMessage, Str(DefaultErrorMessage)))
  }

  /** `handleAPIError` is exactly "the first truthy of detail, message and
      error.message, else the default". */
  lemma HandleApiErrorIsFirstTruthy(error: Value, defaultMessage: Value)
    requires !Nullish(error)
    ensures HandleApiError(error, defaultMessage)
         == Some(FirstTruthy([Detail(error), Message(error), Field(error, "message")],
                             WithDefault(defaultMessage, Str(DefaultErrorMessage))))
  {
    var fallback := WithDefault(defaultMessage, Str(DefaultErrorMessage));
    var cs := [Detail(error), Message(error), Field(error, "message")];
    assert cs[1..] == [Message(error), Field(error, "message")];
    assert cs[1..][1..] == [Field(error, "message")];
    assert cs[1..][1..][1..] == [];
    assert FirstTruthy(cs[1..][1..], fallback)
        == if Truthy(Field(error, "message")) then Field(error, "message") else fallback;
  }

  /** An empty-string `detail` is falsy and falls through to `message`. */
  lemma EmptyDetailFallsThrough(message: string)
    requires message != ""
    ensures var error := Obj(map["response" := Obj(map["data" := Obj(map["detail" := Str(""), "message" := Str(message)])])]);
            HandleApiError(error, Undefined) == Some(Str(message))
  {
    var data := Obj(map["detail" := Str(""), "message" := Str(message)]);
    var error := Obj(map["response" := Obj(map["data" := data])]);
    assert Field(error, "response") == Obj(map["data" := data]);
    assert Detail(error) == Str("");
    assert Message(error) == Str(message);
  }

  /** The browser state the interceptors touch: the `token` entry of
      `localStorage` and the current location. */
  class Browser {
    var storedToken: Option<string>
    var location: string

    constructor (token: Option<string>, location: string)
      ensures storedToken == token && this.location == location
    {
      storedToken := token;
      this.location := location;
    }

    /** The response interceptor's error handler: a 401 removes the token
        and redirects to the login page; every error is rejected unchanged. */
    method OnResponseError(error: Value) returns (c: Completion)
      modifies this
      ensures Nullish(error) ==> c == ThrewTypeError && storedToken == old(storedToken) && location == old(location)
      ensures !Nullish(error) ==> c == Rejected(error)
      ensures !Nullish(error) && IsUnauthorized(error) ==> storedToken == None && location == "/login"
      ensures !Nullish(error) && !IsUnauthorized(error) ==> storedToken == old(storedToken) && location == old(location)
    {
      if Nullish(error) {
        return ThrewTypeError;
      }
      if IsUnauthorized(error) {
        storedToken := None;
        location := "/login";
      }
      c := Rejected(error);
    }
  }

  /** `error.response?.status === 401`. */
  predicate IsUnauthorized(error: Value) {
    OptField(Field(error, "response"), "status") == Num(401)
  }

  /** The response interceptor's success handler hands the response on. */
  function OnResponse(response: Value): (c: Completion)
    ensures c.Fulfilled? && c.value == response
  {
    Fulfilled(response)
  }

  /** The request configuration axios passes through the interceptor. */
  class RequestConfig {
    var headers: map<string, string>

    constructor (headers: map<string, string>)
      ensures this.headers == headers
    {
      this.headers := headers;
    }
  }

  /** The request interceptor: with a truthy stored token, set
      `Authorization: Bearer <token>` on the config in place; hand the same
      config on either way. */
  method OnRequest(browser: Browser, config: RequestConfig) returns (out: RequestConfig)
    modifies config
    ensures out == config
    ensures PresentStr(browser.storedToken) ==>
              config.headers == old(config.headers)["Authorization" := "Bearer " + browser.storedToken.value]
    ensures !PresentStr(browser.storedToken) ==> config.headers == old(config.headers)
  {
    var header := AuthorizationHeader(browser.storedToken);
    if header.Some? {
      config.headers := config.headers["Authorization" := header.value];
    }
    out := config;
  }

  /** The header value the request interceptor attaches, as a pure
      function of the stored token. */
  function AuthorizationHeader(token: Option<string>): (r: Option<string>)
    ensures r.Some? <==> PresentStr(token)
    ensures r.Some? ==> |r.value| > 7 && r.value[..7] == "Bearer " && r.value[7..] == token.value
  {
    if PresentStr(token) then Some("Bearer " + token.value) else None
  }
}

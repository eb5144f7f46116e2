/** The HTTP gateway: request preparation (base URL, default headers, the
    bearer credential read from storage), the five verb helpers, and the
    classification of what `fetch` produced into a returned `{data}`, a
    returned `{error}`, or a thrown `ApiError`. */
module Api {
  import opened Wrappers
  import opened JsText

  /** Base URL used when no API URL is configured. */
  const DefaultBaseUrl: string := "http://localhost:8000"

  /** `configured || 'http://localhost:8000'`: an unset or empty setting
      falls back to the default. */
  function BaseUrl(configured: Option<string>): (url: string)
    ensures url != []
    ensures TruthyOpt(configured) ==> url == configured.value
    ensures !TruthyOpt(configured) ==> url == DefaultBaseUrl
  {
    OrElse(configured, DefaultBaseUrl)
  }

  // ---------------------------------------------------------------- headers

  type Headers = map<string, string>

  const ContentType: string := "Content-Type"
  const Authorization: string := "Authorization"
  const JsonMediaType: string := "application/json"

  /** The token the gateway sees: the `token` storage entry, or nothing when
      there is no browser window (server-side rendering). */
  function StoredToken(hasWindow: bool, storage: map<string, string>): (token: Option<string>)
    ensures token.Some? <==> hasWindow && "token" in storage
    ensures token.Some? ==> token.value == storage["token"]
  {
    if hasWindow && "token" in storage then Some(storage["token"]) else None
  }

  /** Headers of every gateway request: `Content-Type: application/json`
      unless the caller gives its own, then the caller's headers, then
      `Authorization: Bearer <token>` when the token is non-empty, replacing
      any caller-supplied Authorization. */
  function BuildHeaders(caller: Headers, token: Option<string>): (h: Headers)
    ensures h.Keys == caller.Keys + {ContentType} + (if TruthyOpt(token) then {Authorization} else {})
    ensures h[ContentType] == if ContentType in caller then caller[ContentType] else JsonMediaType
    ensures TruthyOpt(token) ==> h[Authorization] == "Bearer " + token.value
    ensures forall k | k in caller && (k != Authorization || !TruthyOpt(token)) :: h[k] == caller[k]
  {
    var merged := map[ContentType := JsonMediaType] + caller;
    if TruthyOpt(token) then merged[Authorization := "Bearer " + token.value] else merged
  }

  // ------------------------------------------------------------ JSON bodies

  /** The flat JSON values the client sends. */
  datatype Scalar = JStr(str: string) | JBool(b: bool) | JNum(num: int) | JNull

  datatype Field = Field(key: string, value: Scalar)

  /** A flat JSON object, in `JSON.stringify` key order. Keys whose value is
      `undefined` are simply not present. */
  type JsonObject = seq<Field>

  /** The value stored under `key` (its first occurrence), if any. */
  function Lookup(o: JsonObject, key: string): (v: Option<Scalar>)
    ensures v.None? <==> forall i | 0 <= i < |o| :: o[i].key != key
    ensures v.Some? ==> exists i | 0 <= i < |o| ::
      o[i] == Field(key, v.value) && forall j | 0 <= j < i :: o[j].key != key
  {
    if o == [] then None
    else if o[0].key == key then Some(o[0].value)
    else Lookup(o[1..], key)
  }

  // -------------------------------------------------------------- requests

  datatype Method = GET | POST | PUT | PATCH | DELETE

  /** The `RequestInit` a caller passes to `request`. */
  datatype RequestInit = RequestInit(verb: Method, headers: Headers, body: Option<JsonObject>)

  /** A call of `request(endpoint, init)`. */
  datatype Call = Call(endpoint: string, init: RequestInit)

  /** Methods whose helper serialises a JSON body. */
  predicate SendsBody(m: Method) {
    m == POST || m == PUT || m == PATCH
  }

  function Get(endpoint: string): (c: Call)
    ensures c.endpoint == endpoint && c.init.verb == GET
    ensures c.init.body.None? && c.init.headers == map[]
  {
    Call(endpoint, RequestInit(GET, map[], None))
  }

  function Post(endpoint: string, data: JsonObject): (c: Call)
    ensures c.endpoint == endpoint && c.init.verb == POST
    ensures c.init.body == Some(data) && c.init.headers == map[]
  {
    Call(endpoint, RequestInit(POST, map[], Some(data)))
  }

  function Put(endpoint: string, data: JsonObject): (c: Call)
    ensures c.endpoint == endpoint && c.init.verb == PUT
    ensures c.init.body == Some(data) && c.init.headers == map[]
  {
    Call(endpoint, RequestInit(PUT, map[], Some(data)))
  }

  function Patch(endpoint: string, data: JsonObject): (c: Call)
    ensures c.endpoint == endpoint && c.init.verb == PATCH
    ensures c.init.body == Some(data) && c.init.headers == map[]
  {
    Call(endpoint, RequestInit(PATCH, map[], Some(data)))
  }

  function Delete(endpoint: string): (c: Call)
    ensures c.endpoint == endpoint && c.init.verb == DELETE
    ensures c.init.body.None? && c.init.headers == map[]
  {
    Call(endpoint, RequestInit(DELETE, map[], None))
  }

  /** Each verb helper issues its own method, and exactly the ones that
      serialise data carry a body; none adds headers of its own. */
  lemma VerbHelpers(endpoint: string, data: JsonObject)
    ensures forall c | c in [Get(endpoint), Post(endpoint, data), Put(endpoint, data),
                             Patch(endpoint, data), Delete(endpoint)] ::
      c.endpoint == endpoint && c.init.headers == map[] &&
      (c.init.body.Some? <==> SendsBody(c.init.verb)) &&
      (c.init.body.Some? ==> c.init.body.value == data)
    ensures [Get(endpoint).init.verb, Post(endpoint, data).init.verb, Put(endpoint, data).init.verb,
             Patch(endpoint, data).init.verb, Delete(endpoint).init.verb] == [GET, POST, PUT, PATCH, DELETE]
  {
  }

  /** Where the gateway runs: the base URL and whether a browser window
      (and so `localStorage`) exists. */
  datatype Env = Env(baseUrl: string, hasWindow: bool)

  /** What `fetch` is asked to send. */
  datatype HttpRequest = HttpRequest(url: string, verb: Method, headers: Headers, body: Option<JsonObject>)

  /** The request `request(endpoint, init)` hands to `fetch`: the URL is the
      base followed by the endpoint with nothing inserted, method and body
      are the caller's, and the headers gain the stored bearer token. */
  function Prepare(env: Env, storage: map<string, string>, call: Call): (r: HttpRequest)
    ensures |r.url| == |env.baseUrl| + |call.endpoint|
    ensures r.url[..|env.baseUrl|] == env.baseUrl && r.url[|env.baseUrl|..] == call.endpoint
    ensures r.verb == call.init.verb && r.body == call.init.body
    ensures r.headers == BuildHeaders(call.init.headers, StoredToken(env.hasWindow, storage))
    ensures var token := StoredToken(env.hasWindow, storage);
      && (TruthyOpt(token) ==> Authorization in r.headers && r.headers[Authorization] == "Bearer " + token.value)
      && (!TruthyOpt(token) ==> r.headers == map[ContentType := JsonMediaType] + call.init.headers)
  {
    var token := StoredToken(env.hasWindow, storage);
    HttpRequest(env.baseUrl + call.endpoint, call.init.verb, BuildHeaders(call.init.headers, token), call.init.body)
  }

  // ------------------------------------------------------------- responses

  /** The `detail` and `message` fields of a decoded error body; the empty
      object `{}` has neither. */
  datatype ErrorFields = ErrorFields(detail: Option<string>, message: Option<string>)

  const EmptyObject: ErrorFields := ErrorFields(None, None)

  /** A response body: it does not decode as JSON (an empty body included),
      it decodes to `null`, or it decodes to a value seen both as the typed
      payload and through its error fields. */
  datatype JsonBody<T> = Malformed | Null | Decoded(payload: T, fields: ErrorFields)

  datatype HttpResponse<T> = HttpResponse(status: nat, body: JsonBody<T>) {
    /** `response.ok`: the status is in the 2xx range. */
    predicate Ok() {
      200 <= status <= 299
    }
  }

  /** What awaiting `fetch` produced: a rejection (a `TypeError`, which
      browsers raise for network failures) or a response. */
  datatype FetchResult<T> = NetworkFailure | Received(response: HttpResponse<T>)

  datatype ApiError = ApiError(message: string, statusCode: int, details: Option<ErrorFields>)

  /** What `request` does: return `{data}` (`None` when the body was
      `null`), return `{error}`, or throw. */
  datatype Outcome<T> = Data(data: Option<T>) | Error(error: ApiError) | Thrown(thrown: ApiError) {
    /** The error a caller's `catch` sees, whichever way it arrived. */
    function Failure(): ApiError
      requires !Data?
    {
      if Error? then error else thrown
    }
  }

  const NetworkErrorMessage: string := "Network error - check connection"
  const UnexpectedErrorMessage: string := "Unexpected error occurred"

  /** `detail || message || 'HTTP <status>'`: never empty. */
  function ErrorMessage(fields: ErrorFields, status: nat): (m: string)
    ensures m != []
    ensures TruthyOpt(fields.detail) ==> m == fields.detail.value
    ensures !TruthyOpt(fields.detail) && TruthyOpt(fields.message) ==> m == fields.message.value
    ensures !TruthyOpt(fields.detail) && !TruthyOpt(fields.message) ==> m == "HTTP " + DecimalString(status)
  {
    OrElse(fields.detail, OrElse(fields.message, "HTTP " + DecimalString(status)))
  }

  /** The outcome of `request` for what `fetch` produced. An error status
      with a `null` body fails while reading `detail` from it; that
      `TypeError` is reported as the network error. */
  function Classify<T>(fetched: FetchResult<T>): (o: Outcome<T>)
    ensures o.Data? <==> fetched.Received? && fetched.response.Ok() && !fetched.response.body.Malformed?
    ensures o.Data? ==> (o.data.Some? <==> fetched.response.body.Decoded?)
    ensures o.Data? && o.data.Some? ==> o.data.value == fetched.response.body.payload
    ensures o.Error? <==> fetched.Received? && !fetched.response.Ok() && !fetched.response.body.Null?
    ensures o.Error? ==>
      var response := fetched.response;
      var fields := if response.body.Decoded? then response.body.fields else EmptyObject;
      && o.error.statusCode == response.status
      && o.error.details == Some(fields)
      && o.error.message == ErrorMessage(fields, response.status)
    ensures o.Thrown? ==> o.thrown.statusCode == 500 && o.thrown.details.None?
    ensures o.Thrown? ==> (o.thrown.message == NetworkErrorMessage <==>
                            fetched.NetworkFailure? || fetched.response.body.Null?)
    ensures o.Thrown? ==> (o.thrown.message == UnexpectedErrorMessage <==>
                            fetched.Received? && fetched.response.body.Malformed?)
    ensures !o.Data? ==> o.Failure().message != []
  {
    match fetched
    case NetworkFailure => Thrown(ApiError(NetworkErrorMessage, 500, None))
    case Received(response) =>
      if !response.Ok() then
        match response.body
        case Null => Thrown(ApiError(NetworkErrorMessage, 500, None))
        case Malformed => Error(ApiError(ErrorMessage(EmptyObject, response.status), response.status, Some(EmptyObject)))
        case Decoded(_, fields) => Error(ApiError(ErrorMessage(fields, response.status), response.status, Some(fields)))
      else
        match response.body
        case Malformed => Thrown(ApiError(UnexpectedErrorMessage, 500, None))
        case Null => Data(None)
        case Decoded(payload, _) => Data(Some(payload))
  }

  /** An error status whose body is JSON `null` is thrown as the network
      error, not returned as `{error}`: its status is lost. */
  lemma NullErrorBody<T>(status: nat)
    requires !(200 <= status <= 299)
    ensures Classify<T>(Received(HttpResponse(status, Null))) == Thrown(ApiError(NetworkErrorMessage, 500, None))
    ensures Classify<T>(Received(HttpResponse(status, Null))) != Classify<T>(Received(HttpResponse(status, Malformed)))
  {
  }

  /** HTTP's "204 No Content" status, whose response has no body (section
      15.3.5 of RFC 9110). */
  const NoContent: nat := 204

  /** The gateway as evidently intended: a "204 No Content" response is a
      success without data instead of a failed JSON read; every other input
      is handled as before. */
  function ClassifyIntended<T>(fetched: FetchResult<T>): (o: Outcome<T>)
    ensures fetched.Received? && fetched.response.status == NoContent ==> o == Data(None)
    ensures !(fetched.Received? && fetched.response.status == NoContent) ==> o == Classify(fetched)
    ensures o.Data? <==> fetched.Received? && fetched.response.Ok()
                         && (fetched.response.status == NoContent || !fetched.response.body.Malformed?)
  {
    if fetched.Received? && fetched.response.status == NoContent then Data(None) else Classify(fetched)
  }

  /** A non-2xx response whose body does not decode is reported with `{}`
      as details and `HTTP <status>` as message, and the status can be read
      back from that message. */
  lemma UndecodableErrorBody<T>(status: nat)
    requires !(200 <= status <= 299)
    ensures var o := Classify<T>(Received(HttpResponse(status, Malformed)));
      && o == Error(ApiError("HTTP " + DecimalString(status), status, Some(EmptyObject)))
      && IsDigits(o.error.message[5..])
      && ParseDecimal(o.error.message[5..]) == status
  {
    var m := "HTTP " + DecimalString(status);
    assert m[5..] == DecimalString(status);
    ParseDecimalString(status);
  }
}

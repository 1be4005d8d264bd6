/**
 * `lodestarRequest`, the proxy's one door to the upstream LodeStar API: how it
 * dresses a request (headers and an encoded body) and how it reads what comes
 * back into an `{ ok, status, data }` result. The network, `JSON.parse` and
 * the two body encoders are parameters: what they do is not part of this model.
 */
module Upstream {
  import opened Json

  const FormType: string := "application/x-www-form-urlencoded"
  const JsonType: string := "application/json"

  /** A request body as it travels: the URL-encoded form of an object, or its JSON text. */
  datatype Payload = FormEncoded(value: Value) | JsonText(value: Value)

  /** The `options` handed to `fetch`. */
  datatype FetchOptions = FetchOptions(httpMethod: string, headers: map<string, string>, body: Option<Payload>)

  /** The `Content-Type` header names the encoding of the body, and there is a header exactly when there is a body. */
  predicate Describes(options: FetchOptions) {
    && ("Content-Type" in options.headers <==> options.body.Some?)
    && (options.body.Some? && options.body.value.FormEncoded? ==> options.headers["Content-Type"] == FormType)
    && (options.body.Some? && options.body.value.JsonText? ==> options.headers["Content-Type"] == JsonType)
  }

  /**
   * The options `lodestarRequest(endpoint, method, body, contentType)` sends:
   * JSON is always accepted; a truthy body is URL-encoded when the caller asks
   * for a form and sent as JSON otherwise; without a body there is neither a
   * body nor a `Content-Type`.
   */
  function OptionsFor(httpMethod: string, body: Value, contentType: string): (options: FetchOptions)
    ensures options.httpMethod == httpMethod
    ensures Describes(options)
    ensures options.headers.Keys <= {"Accept", "Content-Type"}
    ensures "Accept" in options.headers && options.headers["Accept"] == JsonType
    ensures options.body.Some? <==> Truthy(body)
    ensures options.body.Some? ==> options.body.value.value == body
    ensures options.body.Some? ==> (options.body.value.FormEncoded? <==> contentType == FormType)
  {
    if Truthy(body) && contentType == FormType then
      FetchOptions(httpMethod, map["Accept" := JsonType, "Content-Type" := FormType], Some(FormEncoded(body)))
    else if Truthy(body) then
      FetchOptions(httpMethod, map["Accept" := JsonType, "Content-Type" := JsonType], Some(JsonText(body)))
    else
      FetchOptions(httpMethod, map["Accept" := JsonType], None)
  }

  /** The option-building steps of `lodestarRequest`, which fill in `options.headers` and `options.body` one by one. */
  method BuildOptions(httpMethod: string, body: Value, contentType: string) returns (options: FetchOptions)
    ensures options == OptionsFor(httpMethod, body, contentType)
  {
    var headers := map["Accept" := JsonType];
    var payload: Option<Payload> := None;
    if contentType == FormType && Truthy(body) {
      headers := headers["Content-Type" := FormType];
      payload := Some(FormEncoded(body));
    } else if Truthy(body) {
      headers := headers["Content-Type" := JsonType];
      payload := Some(JsonText(body));
    }
    options := FetchOptions(httpMethod, headers, payload);
  }

  /** What `fetch` followed by `response.text()` yields: the response, or the message of the error thrown. */
  datatype Fetched = Response(ok: bool, status: int, text: string) | FetchError(message: string)

  /** What `JSON.parse` yields: the value, or the message of the `SyntaxError` it throws. */
  datatype Parsed = ParsedValue(value: Value) | SyntaxError(message: string)

  /** The record `lodestarRequest` resolves to. */
  datatype ApiResult = ApiResult(ok: bool, status: int, data: Value)

  predicate StartsWith(s: string, prefix: string) {
    |prefix| <= |s| && s[..|prefix|] == prefix
  }

  /** A body that is an HTML page rather than JSON. */
  predicate IsHtml(text: string) {
    StartsWith(text, "<!DOCTYPE") || StartsWith(text, "<html")
  }

  /** The `data` of a failed request: `{ error: message }`. */
  function ErrorData(message: string): Value {
    Obj(map["error" := Str(message)])
  }

  function NotFoundMessage(clientName: string): string {
    "Client \"" + clientName + "\" not found."
  }

  function ErrorPageMessage(status: int): string {
    "API returned an error page (HTTP " + IntText(status) + ")"
  }

  /**
   * How `lodestarRequest` reads the upstream reply: an HTML page is a failure
   * that keeps the upstream status, a JSON body is passed on with the
   * upstream `ok` and status, and a thrown error (network or parse) becomes a
   * failure with status 500 carrying the error's message.
   */
  function Classify(fetched: Fetched, parse: string -> Parsed, clientName: string): (r: ApiResult)
    ensures r.ok <==> fetched.Response? && fetched.ok && !IsHtml(fetched.text) && parse(fetched.text).ParsedValue?
    ensures fetched.Response? && IsHtml(fetched.text) ==>
      r.status == fetched.status
      && (r.data == ErrorData(NotFoundMessage(clientName)) <==> fetched.status == 404)
      && (fetched.status != 404 ==> r.data == ErrorData(ErrorPageMessage(fetched.status)))
    ensures fetched.Response? && !IsHtml(fetched.text) && parse(fetched.text).ParsedValue? ==>
      r.status == fetched.status && r.data == parse(fetched.text).value
    ensures fetched.Response? && !IsHtml(fetched.text) && parse(fetched.text).SyntaxError? ==>
      r == ApiResult(false, 500, ErrorData(parse(fetched.text).message))
    ensures fetched.FetchError? ==> r == ApiResult(false, 500, ErrorData(fetched.message))
  {
    match fetched
    case FetchError(message) => ApiResult(false, 500, ErrorData(message))
    case Response(ok, status, text) =>
      if IsHtml(text) then
        HtmlMessagesDiffer(clientName, status);
        ApiResult(false, status, ErrorData(if status == 404 then NotFoundMessage(clientName) else ErrorPageMessage(status)))
      else
        match parse(text)
        case ParsedValue(data) => ApiResult(ok, status, data)
        case SyntaxError(message) => ApiResult(false, 500, ErrorData(message))
  }

  /** The query of an upstream endpoint: pairs written raw into a template string, or serialised by `URLSearchParams`. */
  datatype Query = Raw(pairs: seq<(string, string)>) | Encoded(pairs: seq<(string, string)>)

  /** One call of `lodestarRequest(endpoint, method, body, contentType)`; a body of `null` means none. */
  datatype Call = Call(path: string, query: Query, httpMethod: string, body: Value, contentType: string)

  /** A `GET` without a body. */
  function GetCall(path: string, query: Query): Call {
    Call(path, query, "GET", Null, JsonType)
  }

  /**
   * What the proxy runs on and talks to: the base URL of the client's API,
   * the client name, the credentials (empty when not configured), today's date,
   * the network, `JSON.parse` and the form encoder of `URLSearchParams`.
   */
  datatype Env = Env(
    baseUrl: string,
    clientName: string,
    username: string,
    password: string,
    today: string,
    fetch: (string, FetchOptions) -> Fetched,
    parse: string -> Parsed,
    formEncode: string -> string)

  function JoinPairs(pairs: seq<(string, string)>, encode: string -> string, raw: bool): string
    decreases |pairs|
  {
    if pairs == [] then ""
    else
      var (k, v) := pairs[0];
      (if raw then k + "=" + v else encode(k) + "=" + encode(v))
      + (if |pairs| == 1 then "" else "&" + JoinPairs(pairs[1..], encode, raw))
  }

  /** The URL `lodestarRequest` fetches: the base URL, the endpoint path and its query. */
  function Url(env: Env, call: Call): string {
    var pairs := call.query.pairs;
    env.baseUrl + call.path + (if pairs == [] then "" else "?" + JoinPairs(pairs, env.formEncode, call.query.Raw?))
  }

  /** The specification of `lodestarRequest`: the classified reply to the dressed request. */
  function Result(env: Env, call: Call): ApiResult {
    Classify(env.fetch(Url(env, call), OptionsFor(call.httpMethod, call.body, call.contentType)), env.parse, env.clientName)
  }

  /** `lodestarRequest`: dress the request, fetch it and classify the reply. */
  method LodestarRequest(env: Env, call: Call) returns (result: ApiResult)
    ensures result == Result(env, call)
  {
    var options := BuildOptions(call.httpMethod, call.body, call.contentType);
    var fetched := env.fetch(Url(env, call), options);
    result := Classify(fetched, env.parse, env.clientName);
  }

  /** The two error messages for an HTML page never coincide, so the 404 case is told apart by its message alone. */
  lemma HtmlMessagesDiffer(clientName: string, status: int)
    ensures ErrorData(NotFoundMessage(clientName)) != ErrorData(ErrorPageMessage(status))
  {
    assert NotFoundMessage(clientName)[0] == 'C';
    assert ErrorPageMessage(status)[0] == 'A';
    assert ErrorData(NotFoundMessage(clientName)).fields["error"] != ErrorData(ErrorPageMessage(status)).fields["error"];
  }
}

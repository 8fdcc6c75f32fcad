/** The `apiFetch` helper (src/api/client.js): how a request to the backend is
    built, and how the answer is turned into a value, `null`, or an error.
    The network is not modelled: the answer to the request is a parameter. */
module Client {
  import opened Wrappers
  import opened JsonValues

  const ApiBaseUrl: string := "http://localhost:8080"
  const DefaultMessage: string := "Error en la API"
  const JsonContentType: string := "application/json"
  /** V8's message for `errorBody.detail` when the error body parsed to `null`. */
  const NullBodyRead: string := "Cannot read properties of null (reading 'detail')"

  type Headers = map<string, string>

  /** The `options` argument: `method` and `headers` may be left undefined;
      `body` stands for the rest, passed to `fetch` untouched. */
  datatype Options = Options(httpMethod: Option<string>, headers: Option<Headers>, body: Option<string>)

  /** What is handed to `fetch`. */
  datatype Request = Request(url: string, httpMethod: string, headers: Headers, body: Option<string>)

  /** The response body as `response.json()` sees it. */
  datatype BodyText = Parsed(json: Json) | NotJson(reason: string)

  /** The answer to one request: a transport failure (`fetch` rejects) or a
      response with its status, status text and body. */
  datatype Reply =
    | NoConnection(reason: string)
    | Response(status: int, statusText: string, body: BodyText)

  /** What `apiFetch` throws: the enriched `Error` of a non-ok response, or any
      other rejection (transport failure, unparsable body) with its message. */
  datatype Error =
    | HttpError(message: string, status: int, body: Json)
    | Rejected(message: string)

  /** `response.ok`, as the Fetch standard defines it. */
  predicate IsOk(status: int) {
    200 <= status <= 299
  }

  /** Methods for which the client declares a JSON body. */
  predicate SendsBody(httpMethod: string) {
    httpMethod != "GET" && httpMethod != "HEAD"
  }

  /** The request `apiFetch(path, options)` sends: the fixed base URL followed
      by `path`, the method (GET by default), and the caller's headers laid
      over `Content-Type: application/json`, which is only there for methods
      other than GET and HEAD. */
  function Prepare(path: string, options: Options): (r: Request)
    ensures r.url == ApiBaseUrl + path
    ensures r.url[..|ApiBaseUrl|] == ApiBaseUrl && r.url[|ApiBaseUrl|..] == path
    ensures options.httpMethod.None? ==> r.httpMethod == "GET"
    ensures options.httpMethod.Some? ==> r.httpMethod == options.httpMethod.value
    ensures r.body == options.body
    ensures var caller := options.headers.GetOr(map[]);
      && (forall k :: k in caller ==> k in r.headers && r.headers[k] == caller[k])
      && r.headers.Keys == caller.Keys + (if SendsBody(r.httpMethod) then {"Content-Type"} else {})
      && ("Content-Type" !in caller ==>
            ("Content-Type" in r.headers <==> SendsBody(r.httpMethod))
            && ("Content-Type" in r.headers ==> r.headers["Content-Type"] == JsonContentType))
  {
    var httpMethod := options.httpMethod.GetOr("GET");
    var base: Headers := if SendsBody(httpMethod) then map["Content-Type" := JsonContentType] else map[];
    Request(ApiBaseUrl + path, httpMethod, base + options.headers.GetOr(map[]), options.body)
  }

  /** The message of the error thrown for a non-ok response: the body's
      `detail`, else its `message`, else the fixed default; a falsy value
      (missing, null, 0, "") is skipped, and a chosen non-string is converted
      by `String`. */
  function ErrorMessage(body: Json): (m: string)
    requires !body.JNull?
    ensures TruthyOpt(Get(body, "detail")) ==> m == Text(Get(body, "detail").value)
    ensures !TruthyOpt(Get(body, "detail")) && TruthyOpt(Get(body, "message")) ==>
              m == Text(Get(body, "message").value)
    ensures !TruthyOpt(Get(body, "detail")) && !TruthyOpt(Get(body, "message")) ==>
              m == DefaultMessage
  {
    var detail := Get(body, "detail");
    var message := Get(body, "message");
    if TruthyOpt(detail) then Text(detail.value)
    else if TruthyOpt(message) then Text(message.value)
    else DefaultMessage
  }

  /** The body used for an error response whose text is not JSON. */
  function StatusTextBody(statusText: string): Json {
    JObj(map["message" := JStr(statusText)])
  }

  /** An unparsable error response reports its status text, or the default
      message when the status text is empty (as it is over HTTP/2). */
  lemma StatusTextFallback(statusText: string)
    ensures ErrorMessage(StatusTextBody(statusText))
            == if statusText != "" then statusText else DefaultMessage
  {
  }

  /** How `apiFetch` settles once `reply` is in. The non-ok check comes
      first and always throws, with the status copied and the parsed body (or
      `{message: statusText}`) attached; an ok 204 gives `null`; any other ok
      response gives its parsed body, and a body that is not JSON rejects. */
  function Settle(reply: Reply): (outcome: Result<Json, Error>)
    ensures reply.NoConnection? ==> outcome == Failure(Rejected(reply.reason))
    ensures reply.Response? && !IsOk(reply.status) ==>
      outcome.Failure? &&
      var body := if reply.body.Parsed? then reply.body.json else StatusTextBody(reply.statusText);
      if body.JNull? then outcome.error == Rejected(NullBodyRead)
      else outcome.error == HttpError(ErrorMessage(body), reply.status, body)
    ensures reply.Response? && IsOk(reply.status) && reply.status == 204 ==> outcome == Success(JNull)
    ensures reply.Response? && IsOk(reply.status) && reply.status != 204 ==>
      outcome == if reply.body.Parsed? then Success(reply.body.json) else Failure(Rejected(reply.body.reason))
    ensures outcome.Success? <==> reply.Response? && IsOk(reply.status) && (reply.status == 204 || reply.body.Parsed?)
  {
    match reply
    case NoConnection(reason) => Failure(Rejected(reason))
    case Response(status, statusText, body) =>
      if !IsOk(status) then
        var errorBody := if body.Parsed? then body.json else StatusTextBody(statusText);
        if errorBody.JNull? then Failure(Rejected(NullBodyRead))
        else Failure(HttpError(ErrorMessage(errorBody), status, errorBody))
      else if status == 204 then Success(JNull)
      else if body.Parsed? then Success(body.json)
      else Failure(Rejected(body.reason))
  }

  /** `apiFetch(path, options)`, step by step: the request is built, sent,
      and the reply settles the call. The thrown error is built first and its
      `status` and `body` are assigned afterwards, as in the source. */
  method ApiFetch(path: string, options: Options, reply: Reply) returns (request: Request, outcome: Result<Json, Error>)
    ensures request == Prepare(path, options)
    ensures outcome == Settle(reply)
  {
    request := Prepare(path, options);
    if reply.NoConnection? {
      return request, Failure(Rejected(reply.reason));
    }
    if !IsOk(reply.status) {
      var errorBody: Json;
      if reply.body.Parsed? {
        errorBody := reply.body.json;
      } else {
        errorBody := StatusTextBody(reply.statusText);
      }
      if errorBody.JNull? {
        return request, Failure(Rejected(NullBodyRead));
      }
      var error := HttpError(ErrorMessage(errorBody), 0, JNull);
      error := error.(status := reply.status);
      error := error.(body := errorBody);
      return request, Failure(error);
    }
    if reply.status == 204 {
      return request, Success(JNull);
    }
    match reply.body
    case Parsed(json) => outcome := Success(json);
    case NotJson(reason) => outcome := Failure(Rejected(reason));
  }
}

/**
 * The REST client of the survey front end (lib/api-client.ts): a singleton
 * that keeps the bearer token, adds it to every request, and turns each HTTP
 * response into either a value or a thrown ApiError {message, status}
 * (or, for a JSON body that does not parse, the bare SyntaxError).
 *
 * The network is a parameter: every call receives the `Reply` the server (or
 * fetch) produced, and JSON parsing is the oracle `parse`, used both for
 * response.json() and JSON.parse(text).
 */
module Api {
  import opened Wrappers
  import opened JsValue
  import opened Text
  import Decimal
  import FormUrlEncoding

  const ApiBaseUrl := "https://8a71c4b4c1fd.ngrok-free.app"

  /** What every failing call rejects with. `message` is whatever the server sent as `detail`, so not always a string. */
  datatype ApiError = ApiError(message: Value, status: int)

  /** A response as the client reads it: the status, the Content-Type header ("" when absent) and the body text. */
  datatype Response = Response(status: nat, contentType: string, body: string)

  /** What a `try` block of the client can catch. */
  datatype Thrown =
    | TypeError(message: string)   // fetch could not reach the server, or a property read of null/undefined
    | OtherError(message: string)  // any other Error, such as the SyntaxError of response.json()
    | Rejected(error: ApiError)    // an ApiError object the client itself threw
    | NonError                     // a thrown value that is neither an Error nor carries a status

  /** The outcome of one fetch: a response, or the exception fetch threw. */
  datatype Reply = Responded(response: Response) | FetchFailed(thrown: Thrown)

  /** The result of JSON parsing: a value, or the SyntaxError message. */
  datatype ParseResult = Parsed(value: Value) | SyntaxError(message: string)

  type Parser = string -> ParseResult

  /** One audio piece recorded by the browser's MediaRecorder; its bytes are not modelled. */
  datatype AudioChunk = AudioChunk(id: nat, size: nat)

  datatype Body = NoBody | JsonBody | AudioForm(audio: seq<AudioChunk>)

  /** The request the client hands to fetch. */
  datatype HttpRequest = HttpRequest(url: string, httpMethod: string, headers: map<string, string>, body: Body)

  const UnauthorizedMessage := "Не авторизован. Пожалуйста, войдите снова."
  const HtmlErrorMessage := "Сервер вернул HTML вместо JSON. Возможно, проблема с CORS или URL неправильный."
  const HtmlInsteadOfJsonMessage := "Сервер вернул HTML вместо JSON. Проверьте URL и настройки CORS."
  const ExpectedJsonPrefix := "Ожидался JSON, но получен: "
  const ConnectMessage := "Не удается подключиться к серверу. Убедитесь, что сервер запущен на " + ApiBaseUrl
  const UnknownErrorMessage := "Неизвестная ошибка"
  const UploadFailedMessage := "Ошибка загрузки аудио"
  const UploadConnectMessage := "Не удается загрузить аудио. Проверьте соединение с сервером."
  const FetchFailure := "Failed to fetch"

  const AuthorizationHeader := "Authorization"
  const DefaultHeaders: map<string, string> :=
    map["Content-Type" := "application/json", "Accept" := "application/json", "ngrok-skip-browser-warning" := "true"]
  const UploadBaseHeaders: map<string, string> := map["ngrok-skip-browser-warning" := "true"]

  /** Response.ok: a 2xx status. */
  predicate IsOk(status: int) {
    200 <= status <= 299
  }

  predicate IsJson(contentType: string) {
    Includes(contentType, "application/json")
  }

  predicate LooksLikeHtml(text: string) {
    Includes(text, "<!DOCTYPE") || Includes(text, "<html")
  }

  function HttpStatusMessage(status: nat): string {
    "HTTP " + Decimal.IntToString(status)
  }

  /**
   * `errorData.detail || errorData.message || fallback` inside its own try:
   * an unparsable body, or a JSON null whose property read throws, leaves
   * the fallback.
   */
  function DetailOrMessage(errorBody: ParseResult, fallback: Value): (m: Value)
    ensures m == fallback || Truthy(m)
    ensures errorBody.SyntaxError? ==> m == fallback
  {
    match errorBody
    case SyntaxError(_) => fallback
    case Parsed(data) =>
      match Get(data, "detail")
      case None => fallback
      case Some(detail) => Or(detail, Or(GetOptional(data, "message"), fallback))
  }

  /**
   * How the try block of a call ends for a response: it returns a value,
   * throws, or returns the `response.json()` promise without awaiting it.
   */
  datatype Handled = Returned(value: Value) | Threw(thrown: Thrown) | ReturnedJson(body: string)

  /**
   * What a call rejects with: the ApiError its catch built or rethrew, or the
   * SyntaxError of an unawaited `response.json()`. That promise is returned
   * from inside the try, so its rejection reaches the caller after the catch
   * has been left: it is never normalised and has no status.
   */
  datatype Rejection = Failed(error: ApiError) | Unparsable(message: string)
  {
    /** `err?.message`, as a caller reads it. */
    function Message(): Value {
      match this
      case Failed(e) => e.message
      case Unparsable(m) => Str(m)
    }
  }

  /**
   * The try block of `request` for a response: every throw is an ApiError
   * with the response's own status, every non-2xx throws, and only a JSON
   * 2xx other than 204 hands its body on unparsed.
   */
  function ClassifyResponse(r: Response, parse: Parser): (h: Handled)
    ensures !IsOk(r.status) ==> h.Threw?
    ensures h.Threw? ==> h.thrown.Rejected? && h.thrown.error.status == r.status
    ensures h.Returned? ==> IsOk(r.status)
    ensures h.ReturnedJson? <==> IsOk(r.status) && r.status != 204 && IsJson(r.contentType)
    ensures h.ReturnedJson? ==> h.body == r.body
  {
    if r.status == 401 then Threw(Rejected(ApiError(Str(UnauthorizedMessage), 401)))
    else if !IsOk(r.status) then
      var fallback := Str(HttpStatusMessage(r.status));
      var message :=
        if IsJson(r.contentType) then DetailOrMessage(parse(r.body), fallback)
        else if LooksLikeHtml(r.body) then Str(HtmlErrorMessage)
        else Or(Str(Take(r.body, 200)), fallback);
      Threw(Rejected(ApiError(message, r.status)))
    else if r.status == 204 then Returned(Undefined)
    else if !IsJson(r.contentType) then
      if LooksLikeHtml(r.body) then Threw(Rejected(ApiError(Str(HtmlInsteadOfJsonMessage), r.status)))
      else match parse(r.body)
        case Parsed(v) => Returned(v)
        case SyntaxError(_) => Threw(Rejected(ApiError(Str(ExpectedJsonPrefix + Take(r.body, 100)), r.status)))
    else ReturnedJson(r.body)
  }

  /**
   * The outer catch: a fetch TypeError "Failed to fetch" becomes status 0 with
   * the connection message, anything already carrying a status is rethrown as
   * it is, and everything else is wrapped with status 0.
   */
  function Normalize(t: Thrown, connectMessage: string, fallbackMessage: string): (e: ApiError)
    ensures t.Rejected? ==> e == t.error
    ensures !t.Rejected? ==> e.status == 0 && e.message.Str?
    ensures t.TypeError? && t.message == FetchFailure ==> e.message == Str(connectMessage)
  {
    match t
    case TypeError(m) => if m == FetchFailure then ApiError(Str(connectMessage), 0) else ApiError(Str(m), 0)
    case OtherError(m) => ApiError(Str(m), 0)
    case Rejected(e) => e
    case NonError => ApiError(Str(fallbackMessage), 0)
  }

  /**
   * How a call settles once its try/catch is done: a returned JSON promise
   * settles only now, outside the catch.
   */
  function Settle(h: Handled, parse: Parser, connectMessage: string, fallbackMessage: string): Result<Value, Rejection> {
    match h
    case Returned(v) => Ok(v)
    case Threw(t) => Err(Failed(Normalize(t, connectMessage, fallbackMessage)))
    case ReturnedJson(body) =>
      match parse(body)
      case Parsed(v) => Ok(v)
      case SyntaxError(m) => Err(Unparsable(m))
  }

  /**
   * What `request` resolves or rejects with: success only on a 2xx, and the
   * unnormalised SyntaxError only for a JSON-typed 2xx body that fails to parse.
   */
  function RequestOutcome(reply: Reply, parse: Parser): (o: Result<Value, Rejection>)
    ensures o.Ok? ==> reply.Responded? && IsOk(reply.response.status)
    ensures o.Err? && o.error.Unparsable? <==>
      reply.Responded? && IsOk(reply.response.status) && reply.response.status != 204
      && IsJson(reply.response.contentType) && parse(reply.response.body).SyntaxError?
  {
    match reply
    case FetchFailed(t) => Err(Failed(Normalize(t, ConnectMessage, UnknownErrorMessage)))
    case Responded(r) => Settle(ClassifyResponse(r, parse), parse, ConnectMessage, UnknownErrorMessage)
  }

  /**
   * The try block of `uploadAudio` for a response: every throw is an ApiError
   * with the response's status, and a JSON-typed 2xx hands its body on unparsed.
   */
  function ClassifyUploadResponse(r: Response, parse: Parser): (h: Handled)
    ensures h.Threw? <==> !IsOk(r.status)
    ensures h.Threw? ==> h.thrown.Rejected? && h.thrown.error.status == r.status
    ensures h.ReturnedJson? <==> IsOk(r.status) && IsJson(r.contentType)
    ensures h.ReturnedJson? ==> h.body == r.body
  {
    if r.status == 401 then Threw(Rejected(ApiError(Str(UnauthorizedMessage), 401)))
    else if !IsOk(r.status) then
      var fallback := Str(UploadFailedMessage);
      var message := if IsJson(r.contentType) then DetailOrMessage(parse(r.body), fallback) else fallback;
      Threw(Rejected(ApiError(message, r.status)))
    else if IsJson(r.contentType) then ReturnedJson(r.body)
    else Returned(Obj(map[]))
  }

  /** What `uploadAudio` resolves or rejects with. */
  function UploadOutcome(reply: Reply, parse: Parser): (o: Result<Value, Rejection>)
    ensures o.Ok? ==> reply.Responded? && IsOk(reply.response.status)
    ensures o.Err? && o.error.Unparsable? <==>
      reply.Responded? && IsOk(reply.response.status)
      && IsJson(reply.response.contentType) && parse(reply.response.body).SyntaxError?
  {
    match reply
    case FetchFailed(t) => Err(Failed(Normalize(t, UploadConnectMessage, UploadFailedMessage)))
    case Responded(r) => Settle(ClassifyUploadResponse(r, parse), parse, UploadConnectMessage, UploadFailedMessage)
  }

  /** The reply is a 401 response: the one case that clears the token. */
  predicate IsUnauthorized(reply: Reply) {
    reply.Responded? && reply.response.status == 401
  }

  /** The headers of `request`: defaults, overridden by the caller's, then the bearer token when it is truthy. */
  function RequestHeaders(callerHeaders: map<string, string>, token: Value): (h: map<string, string>)
    ensures DefaultHeaders.Keys <= h.Keys
    ensures AuthorizationHeader in h <==> Truthy(token) || AuthorizationHeader in callerHeaders
  {
    var merged := DefaultHeaders + callerHeaders;
    if Truthy(token) then merged[AuthorizationHeader := "Bearer " + ToStr(token)] else merged
  }

  /** The headers of `uploadAudio`: no Content-Type, so the browser writes the multipart boundary. */
  function UploadHeaders(token: Value): (h: map<string, string>)
    ensures "Content-Type" !in h
    ensures h.Keys == UploadBaseHeaders.Keys + (if Truthy(token) then {AuthorizationHeader} else {})
  {
    if Truthy(token) then UploadBaseHeaders[AuthorizationHeader := "Bearer " + ToStr(token)] else UploadBaseHeaders
  }

  /** `if (x)` on an optional string argument: present and not empty. */
  predicate Given(x: Option<string>) {
    x.Some? && x.value != ""
  }

  const LoginPath := "/api/auth/login"
  const RegisterPath := "/api/auth/register"
  const SurveysPath := "/api/agent/surveys"
  const StartSessionPath := "/api/sessions/start"
  const SupervisorSessionsPath := "/api/supervisor/sessions"
  const DefaultSessionLimit := 50

  /** The id fills the segment after "/api/sessions/" and the action ends the path. */
  function SessionPath(sessionId: string, action: string): (p: string)
    ensures |p| == 15 + |sessionId| + |action|
    ensures StartsWith(p, "/api/sessions/") && p[14..14 + |sessionId|] == sessionId
    ensures p[14 + |sessionId|] == '/' && p[15 + |sessionId|..] == action
  {
    "/api/sessions/" + sessionId + "/" + action
  }

  /** The endpoint of getSurveys: a `session_id` query only when a session id is given. */
  function SurveysEndpoint(sessionId: Option<string>): (e: string)
    ensures StartsWith(e, SurveysPath)
    ensures e == SurveysPath <==> !Given(sessionId)
  {
    if Given(sessionId) then SurveysPath + "?" + FormUrlEncoding.Serialize([("session_id", sessionId.value)])
    else SurveysPath
  }

  /** The parameters of getSupervisorSessions, in the order they are appended. */
  function SupervisorParams(status: Option<string>, limit: Option<int>): (ps: seq<FormUrlEncoding.Param>)
    ensures |ps| == if Given(status) then 2 else 1
    ensures Given(status) ==> ps[0] == ("status", status.value)
    ensures ps[|ps| - 1] == ("limit", Decimal.IntToString(limit.GetOr(DefaultSessionLimit)))
  {
    (if Given(status) then [("status", status.value)] else [])
      + [("limit", Decimal.IntToString(limit.GetOr(DefaultSessionLimit)))]
  }

  /** The endpoint of getSupervisorSessions: always a query, since `limit` is always present. */
  function SupervisorSessionsEndpoint(status: Option<string>, limit: Option<int>): (e: string)
    ensures StartsWith(e, SupervisorSessionsPath + "?")
  {
    SupervisorSessionsPath + "?" + FormUrlEncoding.Serialize(SupervisorParams(status, limit))
  }

  function QuestionsPath(surveyId: int): string {
    "/api/surveys/" + Decimal.IntToString(surveyId) + "/questions"
  }

  /** The endpoint of getSurveyQuestions: a `session_id` query only when a session id is given. */
  function SurveyQuestionsEndpoint(surveyId: int, sessionId: Option<string>): (e: string)
    ensures StartsWith(e, QuestionsPath(surveyId))
    ensures e == QuestionsPath(surveyId) <==> !Given(sessionId)
  {
    if Given(sessionId) then QuestionsPath(surveyId) + "?" + FormUrlEncoding.Serialize([("session_id", sessionId.value)])
    else QuestionsPath(surveyId)
  }

  /** The client object; its one field is the bearer token (null until set). */
  class ApiClient {
    var token: Value

    constructor()
      ensures token == Null
    {
      token := Null;
    }

    method SetToken(t: Value)
      modifies this
      ensures token == t
    {
      token := t;
    }

    method GetToken() returns (t: Value)
      ensures t == token
    {
      t := token;
    }

    method ClearToken()
      modifies this
      ensures token == Null
    {
      token := Null;
    }

    /** The private `request`: sends with the current token and clears the token on a 401. */
    method Request(endpoint: string, httpMethod: string, headers: map<string, string>, body: Body, reply: Reply, parse: Parser)
      returns (result: Result<Value, Rejection>, sent: HttpRequest)
      modifies this
      ensures sent == HttpRequest(ApiBaseUrl + endpoint, httpMethod, RequestHeaders(headers, old(token)), body)
      ensures result == RequestOutcome(reply, parse)
      ensures token == if IsUnauthorized(reply) then Null else old(token)
    {
      sent := HttpRequest(ApiBaseUrl + endpoint, httpMethod, RequestHeaders(headers, token), body);
      if IsUnauthorized(reply) {
        ClearToken();
      }
      result := RequestOutcome(reply, parse);
    }

    method Login(reply: Reply, parse: Parser) returns (result: Result<Value, Rejection>, sent: HttpRequest)
      modifies this
      ensures sent == HttpRequest(ApiBaseUrl + LoginPath, "POST", RequestHeaders(map[], old(token)), JsonBody)
      ensures result == RequestOutcome(reply, parse)
      ensures token == if IsUnauthorized(reply) then Null else old(token)
    {
      result, sent := Request(LoginPath, "POST", map[], JsonBody, reply, parse);
    }

    method Register(reply: Reply, parse: Parser) returns (result: Result<Value, Rejection>, sent: HttpRequest)
      modifies this
      ensures sent == HttpRequest(ApiBaseUrl + RegisterPath, "POST", RequestHeaders(map[], old(token)), JsonBody)
      ensures result == RequestOutcome(reply, parse)
      ensures token == if IsUnauthorized(reply) then Null else old(token)
    {
      result, sent := Request(RegisterPath, "POST", map[], JsonBody, reply, parse);
    }

    method GetSurveys(sessionId: Option<string>, reply: Reply, parse: Parser) returns (result: Result<Value, Rejection>, sent: HttpRequest)
      modifies this
      ensures sent == HttpRequest(ApiBaseUrl + SurveysEndpoint(sessionId), "GET", RequestHeaders(map[], old(token)), NoBody)
      ensures result == RequestOutcome(reply, parse)
      ensures token == if IsUnauthorized(reply) then Null else old(token)
    {
      result, sent := Request(SurveysEndpoint(sessionId), "GET", map[], NoBody, reply, parse);
    }

    method StartSession(reply: Reply, parse: Parser) returns (result: Result<Value, Rejection>, sent: HttpRequest)
      modifies this
      ensures sent == HttpRequest(ApiBaseUrl + StartSessionPath, "POST", RequestHeaders(map[], old(token)), JsonBody)
      ensures result == RequestOutcome(reply, parse)
      ensures token == if IsUnauthorized(reply) then Null else old(token)
    {
      result, sent := Request(StartSessionPath, "POST", map[], JsonBody, reply, parse);
    }

    method UpdateLocation(sessionId: string, reply: Reply, parse: Parser) returns (result: Result<Value, Rejection>, sent: HttpRequest)
      modifies this
      ensures sent == HttpRequest(ApiBaseUrl + SessionPath(sessionId, "location"), "POST", RequestHeaders(map[], old(token)), JsonBody)
      ensures result == RequestOutcome(reply, parse)
      ensures token == if IsUnauthorized(reply) then Null else old(token)
    {
      result, sent := Request(SessionPath(sessionId, "location"), "POST", map[], JsonBody, reply, parse);
    }

    method CompleteSession(sessionId: string, reply: Reply, parse: Parser) returns (result: Result<Value, Rejection>, sent: HttpRequest)
      modifies this
      ensures sent == HttpRequest(ApiBaseUrl + SessionPath(sessionId, "complete"), "POST", RequestHeaders(map[], old(token)), JsonBody)
      ensures result == RequestOutcome(reply, parse)
      ensures token == if IsUnauthorized(reply) then Null else old(token)
    {
      result, sent := Request(SessionPath(sessionId, "complete"), "POST", map[], JsonBody, reply, parse);
    }

    method GetSupervisorSessions(status: Option<string>, limit: Option<int>, reply: Reply, parse: Parser)
      returns (result: Result<Value, Rejection>, sent: HttpRequest)
      modifies this
      ensures sent == HttpRequest(ApiBaseUrl + SupervisorSessionsEndpoint(status, limit), "GET", RequestHeaders(map[], old(token)), NoBody)
      ensures result == RequestOutcome(reply, parse)
      ensures token == if IsUnauthorized(reply) then Null else old(token)
    {
      result, sent := Request(SupervisorSessionsEndpoint(status, limit), "GET", map[], NoBody, reply, parse);
    }

    method GetSurveyQuestions(surveyId: int, sessionId: Option<string>, reply: Reply, parse: Parser)
      returns (result: Result<Value, Rejection>, sent: HttpRequest)
      modifies this
      ensures sent == HttpRequest(ApiBaseUrl + SurveyQuestionsEndpoint(surveyId, sessionId), "GET", RequestHeaders(map[], old(token)), NoBody)
      ensures result == RequestOutcome(reply, parse)
      ensures token == if IsUnauthorized(reply) then Null else old(token)
    {
      result, sent := Request(SurveyQuestionsEndpoint(surveyId, sessionId), "GET", map[], NoBody, reply, parse);
    }

    /** `uploadAudio`: the whole blob as the multipart field `audio`; a 401 clears the token here too. */
    method UploadAudio(sessionId: string, audio: seq<AudioChunk>, reply: Reply, parse: Parser)
      returns (result: Result<Value, Rejection>, sent: HttpRequest)
      modifies this
      ensures sent == HttpRequest(ApiBaseUrl + SessionPath(sessionId, "audio"), "POST", UploadHeaders(old(token)), AudioForm(audio))
      ensures result == UploadOutcome(reply, parse)
      ensures token == if IsUnauthorized(reply) then Null else old(token)
    {
      sent := HttpRequest(ApiBaseUrl + SessionPath(sessionId, "audio"), "POST", UploadHeaders(token), AudioForm(audio));
      if IsUnauthorized(reply) {
        ClearToken();
      }
      result := UploadOutcome(reply, parse);
    }
  }
}

/**
 * What the API client promises about responses, errors, headers and query
 * strings, stated over the functions of module Api.
 */
module ApiClientProperties {
  import opened Wrappers
  import opened JsValue
  import opened Text
  import opened Api
  import Decimal
  import FormUrlEncoding

  /** A 401 rejects with status 401 and the fixed message, whatever the body or content type; so does uploadAudio. */
  lemma UnauthorizedRejects(r: Response, parse: Parser)
    requires r.status == 401
    ensures RequestOutcome(Responded(r), parse) == Err(Failed(ApiError(Str(UnauthorizedMessage), 401)))
    ensures UploadOutcome(Responded(r), parse) == Err(Failed(ApiError(Str(UnauthorizedMessage), 401)))
  {
  }

  /** The message a JSON error object yields: `detail` if truthy, else `message` if truthy, else the fallback. */
  function ObjectErrorMessage(fields: map<string, Value>, fallback: Value): Value {
    if "detail" in fields && Truthy(fields["detail"]) then fields["detail"]
    else if "message" in fields && Truthy(fields["message"]) then fields["message"]
    else fallback
  }

  /** A non-2xx, non-401 JSON error object: detail, else message, else "HTTP <status>", with the response's status. */
  lemma JsonErrorMessage(r: Response, parse: Parser, fields: map<string, Value>)
    requires !IsOk(r.status) && r.status != 401 && IsJson(r.contentType)
    requires parse(r.body) == Parsed(Obj(fields))
    ensures RequestOutcome(Responded(r), parse)
         == Err(Failed(ApiError(ObjectErrorMessage(fields, Str("HTTP " + Decimal.IntToString(r.status))), r.status)))
    ensures UploadOutcome(Responded(r), parse)
         == Err(Failed(ApiError(ObjectErrorMessage(fields, Str(UploadFailedMessage)), r.status)))
  {
  }

  /** A JSON-typed error body that does not parse, or parses to null, leaves the fallback message. */
  lemma UnreadableJsonErrorMessage(r: Response, parse: Parser)
    requires !IsOk(r.status) && r.status != 401 && IsJson(r.contentType)
    requires parse(r.body).SyntaxError? || parse(r.body) == Parsed(Null)
    ensures RequestOutcome(Responded(r), parse) == Err(Failed(ApiError(Str("HTTP " + Decimal.IntToString(r.status)), r.status)))
    ensures UploadOutcome(Responded(r), parse) == Err(Failed(ApiError(Str(UploadFailedMessage), r.status)))
  {
  }

  /**
   * A non-2xx, non-401 body without a JSON content type: a page with an HTML
   * marker gives the fixed HTML message; otherwise the message is the body's
   * first 200 characters, or "HTTP <status>" for an empty body. uploadAudio
   * does not read such a body at all.
   */
  lemma TextErrorMessage(r: Response, parse: Parser)
    requires !IsOk(r.status) && r.status != 401 && !IsJson(r.contentType)
    ensures RequestOutcome(Responded(r), parse).Err? && RequestOutcome(Responded(r), parse).error.Failed?
    ensures var e := RequestOutcome(Responded(r), parse).error.error;
      && e.status == r.status
      && (LooksLikeHtml(r.body) ==> e.message == Str(HtmlErrorMessage))
      && (!LooksLikeHtml(r.body) && r.body == "" ==> e.message == Str("HTTP " + Decimal.IntToString(r.status)))
      && (!LooksLikeHtml(r.body) && r.body != "" ==>
            e.message.Str? && StartsWith(r.body, e.message.s)
            && |e.message.s| == (if |r.body| <= 200 then |r.body| else 200))
    ensures UploadOutcome(Responded(r), parse) == Err(Failed(ApiError(Str(UploadFailedMessage), r.status)))
  {
  }

  /** 204 No Content resolves to undefined without reading the body. */
  lemma NoContentIsUndefined(r: Response, parse: Parser)
    requires r.status == 204
    ensures RequestOutcome(Responded(r), parse) == Ok(Undefined)
  {
  }

  /**
   * A 2xx other than 204 without a JSON content type: HTML is an error with
   * the response's status; otherwise the body is parsed anyway, and a body
   * that does not parse is an error quoting its first 100 characters.
   */
  lemma NonJsonSuccess(r: Response, parse: Parser)
    requires IsOk(r.status) && r.status != 204 && !IsJson(r.contentType)
    ensures LooksLikeHtml(r.body) ==>
      RequestOutcome(Responded(r), parse) == Err(Failed(ApiError(Str(HtmlInsteadOfJsonMessage), r.status)))
    ensures !LooksLikeHtml(r.body) && parse(r.body).Parsed? ==>
      RequestOutcome(Responded(r), parse) == Ok(parse(r.body).value)
    ensures !LooksLikeHtml(r.body) && parse(r.body).SyntaxError? ==>
      RequestOutcome(Responded(r), parse) == Err(Failed(ApiError(Str(ExpectedJsonPrefix + Take(r.body, 100)), r.status)))
  {
  }

  /**
   * A 2xx JSON response resolves to the parsed body; a body that fails to
   * parse rejects with the parser's SyntaxError itself, which has no status.
   */
  lemma JsonSuccess(r: Response, parse: Parser)
    requires IsOk(r.status) && r.status != 204 && IsJson(r.contentType)
    ensures parse(r.body).Parsed? ==> RequestOutcome(Responded(r), parse) == Ok(parse(r.body).value)
    ensures parse(r.body).SyntaxError? ==>
      RequestOutcome(Responded(r), parse) == Err(Unparsable(parse(r.body).message))
  {
  }

  /**
   * A 2xx upload resolves to the parsed JSON body, or to an empty object when
   * the body is not JSON-typed; a JSON body that fails to parse rejects with
   * the bare SyntaxError.
   */
  lemma UploadSuccess(r: Response, parse: Parser)
    requires IsOk(r.status)
    ensures !IsJson(r.contentType) ==> UploadOutcome(Responded(r), parse) == Ok(Obj(map[]))
    ensures IsJson(r.contentType) && parse(r.body).Parsed? ==> UploadOutcome(Responded(r), parse) == Ok(parse(r.body).value)
    ensures IsJson(r.contentType) && parse(r.body).SyntaxError? ==>
      UploadOutcome(Responded(r), parse) == Err(Unparsable(parse(r.body).message))
  {
  }

  /**
   * A call on a response succeeds only on a 2xx; every ApiError it rejects
   * with carries the response's own status; the one rejection that is not an
   * ApiError is the SyntaxError of a JSON-typed 2xx body (other than 204 for
   * `request`) that fails to parse.
   */
  lemma OutcomeStatus(r: Response, parse: Parser)
    ensures RequestOutcome(Responded(r), parse).Ok? ==> IsOk(r.status)
    ensures var o := RequestOutcome(Responded(r), parse);
      o.Err? ==>
        if IsOk(r.status) && r.status != 204 && IsJson(r.contentType) && parse(r.body).SyntaxError?
        then o.error == Unparsable(parse(r.body).message)
        else o.error.Failed? && o.error.error.status == r.status
    ensures UploadOutcome(Responded(r), parse).Ok? ==> IsOk(r.status)
    ensures var o := UploadOutcome(Responded(r), parse);
      o.Err? ==>
        if IsOk(r.status) && IsJson(r.contentType) && parse(r.body).SyntaxError?
        then o.error == Unparsable(parse(r.body).message)
        else o.error.Failed? && o.error.error.status == r.status
  {
  }

  /**
   * When fetch itself throws: "Failed to fetch" becomes status 0 with the
   * connection message, an object that already has a status passes through
   * unchanged, and anything else is wrapped with status 0.
   */
  lemma FetchFailureNormalized(t: Thrown, parse: Parser)
    ensures t == TypeError(FetchFailure) ==>
      RequestOutcome(FetchFailed(t), parse) == Err(Failed(ApiError(Str(ConnectMessage), 0)))
      && UploadOutcome(FetchFailed(t), parse) == Err(Failed(ApiError(Str(UploadConnectMessage), 0)))
    ensures t.Rejected? ==>
      RequestOutcome(FetchFailed(t), parse) == Err(Failed(t.error)) && UploadOutcome(FetchFailed(t), parse) == Err(Failed(t.error))
    ensures !t.Rejected? ==>
      RequestOutcome(FetchFailed(t), parse).error.error.status == 0 && UploadOutcome(FetchFailed(t), parse).error.error.status == 0
    ensures (t.TypeError? && t.message != FetchFailure) || t.OtherError? ==>
      RequestOutcome(FetchFailed(t), parse) == Err(Failed(ApiError(Str(t.message), 0)))
  {
  }

  /**
   * The Authorization header is `Bearer <token>` exactly when the token is
   * truthy (a set, non-empty token); otherwise only a caller-supplied one is
   * sent.
   */
  lemma AuthorizationRule(callerHeaders: map<string, string>, token: Value)
    ensures var h := RequestHeaders(callerHeaders, token);
      && (Truthy(token) ==> h[AuthorizationHeader] == "Bearer " + ToStr(token))
      && (!Truthy(token) ==> (AuthorizationHeader in h <==> AuthorizationHeader in callerHeaders))
    ensures var h := UploadHeaders(token);
      && (AuthorizationHeader in h <==> Truthy(token))
      && (Truthy(token) ==> h[AuthorizationHeader] == "Bearer " + ToStr(token))
  {
  }

  /** The token header of a string token is exactly "Bearer " followed by the token. */
  lemma BearerOfStringToken(callerHeaders: map<string, string>, t: string)
    requires t != ""
    ensures RequestHeaders(callerHeaders, Str(t))[AuthorizationHeader] == "Bearer " + t
  {
  }

  /**
   * Caller headers override the defaults; defaults the caller did not name are
   * kept; nothing else is added except the token header.
   */
  lemma CallerHeadersOverride(callerHeaders: map<string, string>, token: Value)
    ensures var h := RequestHeaders(callerHeaders, token);
      && (forall k :: k in callerHeaders && k != AuthorizationHeader ==> h[k] == callerHeaders[k])
      && (forall k :: k in DefaultHeaders && k !in callerHeaders ==> h[k] == DefaultHeaders[k])
      && h.Keys == DefaultHeaders.Keys + callerHeaders.Keys + (if Truthy(token) then {AuthorizationHeader} else {})
  {
  }

  /** getSurveys carries `session_id` exactly when a session id is given, and a server reads it back unchanged. */
  lemma SurveysQuery(sessionId: Option<string>)
    ensures Given(sessionId) ==>
      exists q :: SurveysEndpoint(sessionId) == SurveysPath + "?" + q
               && FormUrlEncoding.ParseQuery(q) == Some([("session_id", sessionId.value)])
    ensures !Given(sessionId) ==> SurveysEndpoint(sessionId) == SurveysPath
  {
    if Given(sessionId) {
      FormUrlEncoding.QueryRoundTrip([("session_id", sessionId.value)]);
    }
  }

  /** getSurveyQuestions carries `session_id` exactly when a session id is given. */
  lemma SurveyQuestionsQuery(surveyId: int, sessionId: Option<string>)
    ensures Given(sessionId) ==>
      exists q :: SurveyQuestionsEndpoint(surveyId, sessionId) == QuestionsPath(surveyId) + "?" + q
               && FormUrlEncoding.ParseQuery(q) == Some([("session_id", sessionId.value)])
    ensures !Given(sessionId) ==> SurveyQuestionsEndpoint(surveyId, sessionId) == QuestionsPath(surveyId)
  {
    if Given(sessionId) {
      FormUrlEncoding.QueryRoundTrip([("session_id", sessionId.value)]);
    }
  }

  /**
   * The supervisor listing always carries `limit` (50 unless given), preceded
   * by `status` only when a status is given; a server reads back the pairs in
   * this order and the limit as the same number.
   */
  lemma SupervisorQuery(status: Option<string>, limit: Option<int>)
    ensures exists q :: SupervisorSessionsEndpoint(status, limit) == SupervisorSessionsPath + "?" + q
                     && FormUrlEncoding.ParseQuery(q) == Some(SupervisorParams(status, limit))
    ensures var ps := SupervisorParams(status, limit);
      && |ps| == (if Given(status) then 2 else 1)
      && (Given(status) ==> ps[0] == ("status", status.value))
      && ps[|ps| - 1].0 == "limit"
      && Decimal.ParseInt(ps[|ps| - 1].1) == Some(limit.GetOr(50))
  {
    var ps := SupervisorParams(status, limit);
    FormUrlEncoding.QueryRoundTrip(ps);
    assert SupervisorSessionsEndpoint(status, limit) == SupervisorSessionsPath + "?" + FormUrlEncoding.Serialize(ps);
    Decimal.IntToStringRoundTrip(limit.GetOr(50));
  }

  /** Distinct session ids address distinct session endpoints. */
  lemma SessionPathInjective(a: string, b: string, action: string)
    requires SessionPath(a, action) == SessionPath(b, action)
    ensures a == b
  {
    var prefix := "/api/sessions/";
    var sa, sb := SessionPath(a, action), SessionPath(b, action);
    assert |a| == |b|;
    assert a == sa[|prefix|..|prefix| + |a|];
    assert b == sb[|prefix|..|prefix| + |b|];
  }

  /** getToken returns what setToken stored last, and null once clearToken ran. */
  method TokenLifecycle(t: Value) returns (afterSet: Value, afterClear: Value)
    ensures afterSet == t && afterClear == Null
  {
    var client := new ApiClient();
    client.SetToken(t);
    afterSet := client.GetToken();
    client.ClearToken();
    afterClear := client.GetToken();
  }
}

/**
 * front-end/src/data/data-api.ts: `apiRequest`, which builds the request
 * (headers and body) and maps the outcome of `fetch` to the uniform response
 * envelope `{success, data?, error?, meta?, status}`. The network call, its
 * timer and abort controller are not modelled; the outcome is a parameter.
 */
module DataApi {
  import opened Wrappers
  import opened Js

  datatype HttpMethod = GET | POST | PUT | PATCH | DELETE

  /** The request body: none, or `JSON.stringify` of the given value. */
  datatype RequestBody = NoBody | JsonBody(payload: Json)

  datatype Request = Request(verb: HttpMethod, headers: map<string, string>, body: RequestBody)

  /** The headers object, built and then extended in place when a token is present. */
  method BuildHeaders(authToken: Option<string>) returns (headers: map<string, string>)
    ensures "Content-Type" in headers && headers["Content-Type"] == "application/json"
    ensures "Authorization" in headers <==> authToken.Some? && authToken.value != ""
    ensures "Authorization" in headers ==> headers["Authorization"] == "Bearer " + authToken.value
    ensures headers.Keys <= {"Content-Type", "Authorization"}
  {
    headers := map["Content-Type" := "application/json"];
    if authToken.Some? && authToken.value != "" {
      headers := headers["Authorization" := "Bearer " + authToken.value];
    }
  }

  /** The `body` option: GET and DELETE send none, the others send `payload ?? {}`. */
  function BodyFor(verb: HttpMethod, payload: Option<Json>): (b: RequestBody)
    ensures verb == GET || verb == DELETE ==> b == NoBody
    ensures verb != GET && verb != DELETE ==> b.JsonBody?
    ensures b.JsonBody? && payload.Some? && payload.value != JNull ==> b.payload == payload.value
    ensures b.JsonBody? && (payload.None? || payload.value == JNull) ==> b.payload == JObj(map[])
  {
    if verb == GET || verb == DELETE then NoBody else JsonBody(Coalesce(payload, JObj(map[])))
  }

  /** What `response.json()` gives: a value, or the message of the parse error it throws. */
  datatype BodyParse = Parsed(json: Json) | Unparsable(message: string)

  /** The outcome of the `fetch` call: aborted by the timer, thrown, or a response. */
  datatype FetchOutcome =
    | Aborted
    | Threw(error: Thrown)
    | Resp(status: int, statusText: string, body: BodyParse)

  /** `response.ok`: the status is in the range 200 to 299. */
  predicate IsOk(status: int) { 200 <= status <= 299 }

  /** The envelope (`TStrapiResponse`); `None` fields are absent. */
  datatype Envelope = Envelope(success: bool, data: Option<Json>, error: Option<Json>, meta: Option<Json>, status: int)

  /** Exactly one of `data` and `error` is present, as `success` says. */
  predicate WellFormed(e: Envelope) {
    (e.success ==> e.data.Some? && e.error.None?) && (!e.success ==> e.error.Some? && e.data.None?)
  }

  /** An error object `{status, name, message}` built by the wrapper. */
  function ErrorJson(status: int, name: Json, message: Json): Json {
    JObj(map["status" := JNum(status), "name" := name, "message" := message])
  }

  function ErrorStatus(e: Envelope): Option<Json> { OptProp(e.error, "status") }
  function ErrorName(e: Envelope): Option<Json> { OptProp(e.error, "name") }
  function ErrorMessage(e: Envelope): Option<Json> { OptProp(e.error, "message") }

  const DeleteFailedMessage: string := "리소스 삭제 실패"
  const GenericErrorMessage: string := "에러가 발생했습니다."
  const TimeoutMessage: string := "요청이 시간 초과되었습니다. 다시 시도해주세요."
  const UnknownErrorMessage: string := "알 수 없는 오류 발생"
  /** The DOMException an aborted `fetch` rejects with. */
  const AbortException: Thrown := ErrorValue("AbortError", "This operation was aborted")

  /** The `catch` block: a timeout envelope for an `AbortError`, a network-error envelope otherwise. */
  function CaughtEnvelope(e: Thrown): (env: Envelope)
    ensures WellFormed(env) && !env.success
    ensures e.ErrorValue? && e.name == "AbortError" ==>
      env.status == 408 && ErrorStatus(env) == Some(JNum(408)) && ErrorName(env) == Some(JStr("TimeoutError"))
    ensures !(e.ErrorValue? && e.name == "AbortError") ==>
      env.status == 500 && ErrorStatus(env) == Some(JNum(500)) && ErrorName(env) == Some(JStr("NetworkError"))
      && ErrorMessage(env) == Some(JStr(MessageOr(e, UnknownErrorMessage)))
  {
    if e.ErrorValue? && e.name == "AbortError" then
      Envelope(false, None, Some(ErrorJson(408, JStr("TimeoutError"), JStr(TimeoutMessage))), None, 408)
    else
      Envelope(false, None, Some(ErrorJson(500, JStr("NetworkError"), JStr(MessageOr(e, UnknownErrorMessage)))), None, 500)
  }

  /** The envelope for a response that arrived. */
  function ResponseEnvelope(verb: HttpMethod, status: int, statusText: string, body: BodyParse): (env: Envelope)
    ensures WellFormed(env)
  {
    if verb == DELETE then
      if IsOk(status) then Envelope(true, Some(JBool(true)), None, None, status)
      else Envelope(false, None, Some(ErrorJson(status, JStr("Error"), JStr(DeleteFailedMessage))), None, status)
    else
      match body
      case Unparsable(m) => CaughtEnvelope(ErrorValue("SyntaxError", m))
      case Parsed(data) =>
        if !IsOk(status) then
          match Prop(data, "error")
          case Err(m) => CaughtEnvelope(ErrorValue("TypeError", m))
          case Ok(err) =>
            if TruthyOpt(err) then Envelope(false, None, err, None, status)
            else
              var name := Coalesce(OptProp(err, "name"), JStr("Error"));
              var message := Coalesce(OptProp(err, "message"), JStr(statusText));
              var message' := if Truthy(message) then message else JStr(GenericErrorMessage);
              Envelope(false, None, Some(ErrorJson(status, name, message')), None, status)
        else
          match Prop(data, "data")
          case Err(m) => CaughtEnvelope(ErrorValue("TypeError", m))
          case Ok(d) =>
            var responseData := if TruthyOpt(d) then d.value else data;
            var m := Prop(data, "meta").value;
            var responseMeta := if TruthyOpt(m) then m else None;
            Envelope(true, Some(responseData), None, responseMeta, status)
  }

  /** The envelope `apiRequest` resolves to for a given outcome of `fetch`. */
  function FetchEnvelope(verb: HttpMethod, outcome: FetchOutcome): (env: Envelope)
    ensures WellFormed(env)
  {
    match outcome
    case Aborted => CaughtEnvelope(AbortException)
    case Threw(e) => CaughtEnvelope(e)
    case Resp(status, statusText, body) => ResponseEnvelope(verb, status, statusText, body)
  }

  /** `apiRequest(url, {verb, payload, authToken})`: the request it sends and the envelope it returns. */
  method ApiRequest(verb: HttpMethod, payload: Option<Json>, authToken: Option<string>, outcome: FetchOutcome)
    returns (request: Request, env: Envelope)
    ensures request.verb == verb && request.body == BodyFor(verb, payload)
    ensures "Content-Type" in request.headers && request.headers["Content-Type"] == "application/json"
    ensures "Authorization" in request.headers <==> authToken.Some? && authToken.value != ""
    ensures "Authorization" in request.headers ==> request.headers["Authorization"] == "Bearer " + authToken.value
    ensures env == FetchEnvelope(verb, outcome)
  {
    var headers := BuildHeaders(authToken);
    request := Request(verb, headers, BodyFor(verb, payload));
    env := FetchEnvelope(verb, outcome);
  }

  /** An abort gives a 408 TimeoutError; any other throw gives a 500 NetworkError carrying its message. */
  lemma ThrownOutcomes(verb: HttpMethod, message: string)
    ensures var env := FetchEnvelope(verb, Aborted);
      !env.success && env.status == 408 && ErrorName(env) == Some(JStr("TimeoutError"))
    ensures var env := FetchEnvelope(verb, Threw(ErrorValue("TypeError", message)));
      !env.success && env.status == 500 && ErrorName(env) == Some(JStr("NetworkError"))
      && ErrorMessage(env) == Some(JStr(message))
  {
  }

  /** A body that fails to parse behaves like a throw from `fetch` itself (DELETE never parses). */
  lemma UnparsableIsNetworkError(verb: HttpMethod, status: int, statusText: string, message: string)
    requires verb != DELETE
    ensures FetchEnvelope(verb, Resp(status, statusText, Unparsable(message)))
         == FetchEnvelope(verb, Threw(ErrorValue("SyntaxError", message)))
    ensures FetchEnvelope(verb, Resp(status, statusText, Unparsable(message))).status == 500
  {
  }

  /** DELETE never reads the body: `{success: true, data: true}` when ok, an "Error" with the status otherwise. */
  lemma DeleteIgnoresBody(status: int, statusText: string, b1: BodyParse, b2: BodyParse)
    ensures FetchEnvelope(DELETE, Resp(status, statusText, b1)) == FetchEnvelope(DELETE, Resp(status, statusText, b2))
    ensures var env := FetchEnvelope(DELETE, Resp(status, statusText, b1));
      env.status == status && env.success == IsOk(status)
      && (env.success ==> env.data == Some(JBool(true)))
      && (!env.success ==> ErrorName(env) == Some(JStr("Error")) && ErrorStatus(env) == Some(JNum(status)))
  {
  }

  /** A non-ok response whose body carries a truthy `error` passes that error through unchanged. */
  lemma ErrorPassedThrough(verb: HttpMethod, status: int, statusText: string, fields: map<string, Json>)
    requires verb != DELETE && !IsOk(status)
    requires "error" in fields && Truthy(fields["error"])
    ensures FetchEnvelope(verb, Resp(status, statusText, Parsed(JObj(fields))))
         == Envelope(false, None, Some(fields["error"]), None, status)
  {
  }

  /** A non-ok response without a body error gets an "Error" with the status and `statusText` (or the fallback). */
  lemma ErrorSynthesized(verb: HttpMethod, status: int, statusText: string, data: Json)
    requires verb != DELETE && !IsOk(status)
    requires data != JNull && !TruthyOpt(Prop(data, "error").value)
    ensures var env := FetchEnvelope(verb, Resp(status, statusText, Parsed(data)));
      !env.success && env.status == status
      && env.error == Some(ErrorJson(status, JStr("Error"), JStr(if statusText != "" then statusText else GenericErrorMessage)))
  {
  }

  /** An ok response: `data` is `body.data` when truthy and the whole body otherwise; `meta` only when truthy. */
  lemma SuccessEnvelope(verb: HttpMethod, status: int, statusText: string, fields: map<string, Json>)
    requires verb != DELETE && IsOk(status)
    ensures var env := FetchEnvelope(verb, Resp(status, statusText, Parsed(JObj(fields))));
      env.success && env.status == status && env.error.None?
      && env.data == Some(if "data" in fields && Truthy(fields["data"]) then fields["data"] else JObj(fields))
      && env.meta == (if "meta" in fields && Truthy(fields["meta"]) then Some(fields["meta"]) else None)
  {
  }

  /** On every path where no exception is raised, `status` is the HTTP status and `success` is `response.ok`. */
  lemma StatusAgrees(verb: HttpMethod, status: int, statusText: string, data: Json)
    requires verb == DELETE || data != JNull
    ensures var env := FetchEnvelope(verb, Resp(status, statusText, Parsed(data)));
      env.status == status && env.success == IsOk(status)
  {
  }
}

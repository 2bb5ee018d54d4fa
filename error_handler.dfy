/**
 * front-end/src/lib/error-handler.ts: turning a response envelope into its data,
 * a not-found signal (`notFound()`), or a thrown error with a message.
 */
module ErrorHandler {
  import opened Wrappers
  import opened Js
  import opened DataApi

  /** What `handleApiError` does: return, call `notFound()`, or throw `Error(message)`. */
  datatype HandleOutcome = Pass | NotFound | Throws(message: string)

  const DefaultResource: string := "리소스"

  /** `${resourceName || "리소스"}를 불러오지 못했습니다.` */
  function LoadFailedMessage(resourceName: Option<string>): string {
    (if resourceName.Some? && resourceName.value != "" then resourceName.value else DefaultResource)
      + "를 불러오지 못했습니다."
  }

  /** `handleApiError(data, resourceName)`; `None` is `null`/`undefined`. */
  function HandleApiError(data: Option<Envelope>, resourceName: Option<string>): (o: HandleOutcome)
    ensures data.None? ==> o == Throws(LoadFailedMessage(resourceName))
    ensures o == NotFound <==> data.Some? && ErrorStatus(data.value) == Some(JNum(404))
    ensures (data.Some? && ErrorStatus(data.value) != Some(JNum(404))
             && !(data.value.success && TruthyOpt(data.value.data))) ==> o.Throws?
    ensures o == Pass <==>
      data.Some? && ErrorStatus(data.value) != Some(JNum(404)) && data.value.success && TruthyOpt(data.value.data)
    ensures o.Throws? && data.Some? ==>
      o.message == (if TruthyOpt(ErrorMessage(data.value)) then JsonToString(ErrorMessage(data.value).value)
                    else LoadFailedMessage(resourceName))
  {
    if data.None? then Throws(LoadFailedMessage(resourceName))
    else if OptProp(data.value.error, "status") == Some(JNum(404)) then NotFound
    else if !data.value.success || !TruthyOpt(data.value.data) then
      var message := OptProp(data.value.error, "message");
      Throws(if TruthyOpt(message) then JsonToString(message.value) else LoadFailedMessage(resourceName))
    else Pass
  }

  /** A failed 500 envelope throws its own error message. */
  lemma ServerErrorThrows(name: Option<string>)
    ensures HandleApiError(Some(Envelope(false, None,
      Some(JObj(map["status" := JNum(500), "message" := JStr("boom")])), None, 500)), name) == Throws("boom")
  {
  }

  /** What `validateApiResponse` does: return the data, signal not-found, or throw. */
  datatype ValidateOutcome = Data(value: Json) | NotFoundSignal | Thrown(message: string)

  /** `validateApiResponse(data, resourceName)`: exactly the envelope's `data` when nothing is raised. */
  function ValidateApiResponse(data: Option<Envelope>, resourceName: Option<string>): (o: ValidateOutcome)
    ensures o.Data? <==> HandleApiError(data, resourceName) == Pass
    ensures o.Data? ==> data.Some? && data.value.data == Some(o.value) && Truthy(o.value)
    ensures o.NotFoundSignal? <==> HandleApiError(data, resourceName) == NotFound
    ensures o.Thrown? <==> HandleApiError(data, resourceName).Throws?
  {
    match HandleApiError(data, resourceName)
    case Pass => Data(data.value.data.value)
    case NotFound => NotFoundSignal
    case Throws(m) => Thrown(m)
  }

  /** A non-ok 404 response whose body carries no error is turned into not-found by the two layers together. */
  lemma NotFoundFromResponse(verb: HttpMethod, statusText: string, fields: map<string, Json>)
    requires verb != DELETE && "error" !in fields
    ensures ValidateApiResponse(Some(FetchEnvelope(verb, Resp(404, statusText, Parsed(JObj(fields))))), None) == NotFoundSignal
  {
    ErrorSynthesized(verb, 404, statusText, JObj(fields));
  }

  /** A 404 from a DELETE is also not-found. */
  lemma NotFoundFromDelete(statusText: string, body: BodyParse)
    ensures ValidateApiResponse(Some(FetchEnvelope(DELETE, Resp(404, statusText, body))), None) == NotFoundSignal
  {
  }

  /** A successful response with truthy `data` is returned exactly as the body's `data`. */
  lemma DataFromSuccess(verb: HttpMethod, status: int, statusText: string, fields: map<string, Json>, name: Option<string>)
    requires verb != DELETE && IsOk(status)
    requires "data" in fields && Truthy(fields["data"])
    ensures ValidateApiResponse(Some(FetchEnvelope(verb, Resp(status, statusText, Parsed(JObj(fields))))), name)
         == Data(fields["data"])
  {
    SuccessEnvelope(verb, status, statusText, fields);
  }

  /** A timed-out request throws the timeout message. */
  lemma TimeoutThrows(verb: HttpMethod, name: Option<string>)
    ensures ValidateApiResponse(Some(FetchEnvelope(verb, Aborted)), name) == Thrown(TimeoutMessage)
  {
  }
}

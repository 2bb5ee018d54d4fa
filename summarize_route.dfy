/**
 * front-end/src/app/api/summarize/route.ts: the `POST` handler's gates, in
 * order: authentication, credits, the transcript in the request body, then
 * summary generation. The auth lookup, the request body and the generator
 * are parameters; the handler never touches the credits store.
 */
module SummarizeRoute {
  import opened Wrappers
  import opened Js

  /** The signed-in user as the auth helper returns it; `credits: None` is `null`/absent. */
  datatype AuthUser = AuthUser(credits: Option<int>)

  /** What `safeRequireAuthUser()` resolves to. */
  datatype AuthResult = AuthResult(success: bool, status: Option<int>, user: Option<AuthUser>)

  /** A response body: the auth result serialised as it is, or a JSON value. */
  datatype Body = EchoAuth(auth: AuthResult) | JsonText(json: Json)

  datatype Response = Response(status: int, body: Body)

  /** The handler responds, or an exception escapes it. */
  datatype Outcome = Responded(response: Response) | Crashed(error: Thrown)

  /** One run: its outcome, whether the request body was read, and what the generator was given. */
  datatype Run = Run(outcome: Outcome, bodyRead: bool, generatorInput: Option<Json>)

  const InsufficientCreditsMessage: string := "요약을 생성하기 위한 크레딧이 부족합니다."
  const NoTranscriptMessage: string := "No transcript provided"
  const GenerationFailedMessage: string := "Error generating summary."

  /** The 402 body `{error: {status: 402, name: "InsufficientCredits", message}}`. */
  const InsufficientCreditsBody: Json :=
    JObj(map["error" := JObj(map["status" := JNum(402), "name" := JStr("InsufficientCredits"),
                                 "message" := JStr(InsufficientCreditsMessage)])])

  /** `!user || (user.credits || 0) < 1` fails: there is a user with at least one credit. */
  predicate HasCredits(user: Option<AuthUser>) {
    user.Some? && user.value.credits.Some? && user.value.credits.value >= 1
  }

  /**
   * `POST(req)`. `requestBody` is what `req.json()` resolves to or rejects with;
   * `generated` is what `generateSummary` resolves to or throws.
   */
  function Post(auth: AuthResult, requestBody: Result<Json, Thrown>, generated: Result<Json, Thrown>): (r: Run)
    ensures !auth.success ==>
      r == Run(Responded(Response(auth.status.GetOr(401), EchoAuth(auth))), false, None)
    ensures auth.success && !HasCredits(auth.user) ==>
      r == Run(Responded(Response(402, JsonText(InsufficientCreditsBody))), false, None)
    ensures r.bodyRead <==> auth.success && HasCredits(auth.user)
    ensures r.generatorInput.Some? ==>
      r.bodyRead && requestBody.Ok? && requestBody.value.JObj?
      && "fullTranscript" in requestBody.value.fields
      && Truthy(requestBody.value.fields["fullTranscript"])
      && r.generatorInput.value == requestBody.value.fields["fullTranscript"]
    ensures r.bodyRead && requestBody.Err? ==> r.outcome == Crashed(requestBody.error)
    ensures r.bodyRead && requestBody.Ok? && requestBody.value.JNull? ==>
      r.outcome == Crashed(ErrorValue("TypeError", DestructureNullMessage("fullTranscript", "body")))
    ensures r.bodyRead && requestBody.Ok? && r.generatorInput.None? && !requestBody.value.JNull? ==>
      r.outcome == Responded(Response(400, JsonText(JObj(map["error" := JStr(NoTranscriptMessage)]))))
    ensures r.generatorInput.Some? && generated.Ok? ==>
      r.outcome == Responded(Response(200, JsonText(JObj(map["data" := generated.value, "error" := JNull]))))
    ensures r.generatorInput.Some? && generated.Err? ==>
      r.outcome == Responded(Response(200, JsonText(JObj(map["error" := JStr(MessageOr(generated.error, GenerationFailedMessage))]))))
  {
    if !auth.success then Run(Responded(Response(auth.status.GetOr(401), EchoAuth(auth))), false, None)
    else if !HasCredits(auth.user) then Run(Responded(Response(402, JsonText(InsufficientCreditsBody))), false, None)
    else match requestBody
      case Err(e) => Run(Crashed(e), true, None)
      case Ok(body) =>
        // `const {fullTranscript} = body`: destructuring `null` throws
        match Prop(body, "fullTranscript")
        case Err(_) => Run(Crashed(ErrorValue("TypeError", DestructureNullMessage("fullTranscript", "body"))), true, None)
        case Ok(transcript) =>
          if !TruthyOpt(transcript) then
            Run(Responded(Response(400, JsonText(JObj(map["error" := JStr(NoTranscriptMessage)])))), true, None)
          else
            var response := match generated
              case Ok(summary) => Response(200, JsonText(JObj(map["data" := summary, "error" := JNull])))
              case Err(e) => Response(200, JsonText(JObj(map["error" := JStr(MessageOr(e, GenerationFailedMessage))])));
            Run(Responded(response), true, transcript)
  }

  /** The generator runs only for a signed-in user with credits and a non-empty transcript. */
  lemma GeneratorGated(auth: AuthResult, requestBody: Result<Json, Thrown>, generated: Result<Json, Thrown>)
    ensures Post(auth, requestBody, generated).generatorInput.Some? <==>
      auth.success && HasCredits(auth.user) && requestBody.Ok? && requestBody.value.JObj?
      && "fullTranscript" in requestBody.value.fields && Truthy(requestBody.value.fields["fullTranscript"])
  {
  }

  /** A user whose credits are absent, zero or negative is refused with 402 before anything else happens. */
  lemma NoCreditsRefused(credits: Option<int>, status: Option<int>, requestBody: Result<Json, Thrown>,
                         generated: Result<Json, Thrown>)
    requires credits.None? || credits.value < 1
    ensures var r := Post(AuthResult(true, status, Some(AuthUser(credits))), requestBody, generated);
      r.outcome.Responded? && r.outcome.response.status == 402 && !r.bodyRead && r.generatorInput.None?
  {
  }
}

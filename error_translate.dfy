/**
 * backend/src/middlewares/error-translate/index.ts: a middleware that catches
 * an error escaping the rest of the chain and answers with its status and a
 * Korean message chosen by the first matching substring of the error message.
 */
module ErrorTranslate {
  import opened Wrappers
  import opened Js
  import opened Strings

  const DefaultMessage: string := "서버 내부 오류가 발생했습니다."
  const NotFoundMessage: string := "요청한 리소스를 찾을 수 없습니다."
  const ValidationMessage: string := "데이터 검증에 실패했습니다."
  const UnauthorizedMessage: string := "권한이 없습니다."

  /** The translation table: substring to look for, and its message, in the order they are tried. */
  const Rules: seq<(string, string)> :=
    [("not found", NotFoundMessage), ("Validation", ValidationMessage), ("Unauthorized", UnauthorizedMessage)]

  /** The message of the first rule whose substring occurs in `original`, or `fallback`. */
  function FirstMatch(rules: seq<(string, string)>, original: string, fallback: string): (m: string)
    ensures (forall i :: 0 <= i < |rules| ==> !Contains(original, rules[i].0)) ==> m == fallback
    ensures forall i :: (0 <= i < |rules| && Contains(original, rules[i].0)
              && (forall j :: 0 <= j < i ==> !Contains(original, rules[j].0))) ==> m == rules[i].1
  {
    if |rules| == 0 then fallback
    else if Contains(original, rules[0].0) then rules[0].1
    else FirstMatch(rules[1..], original, fallback)
  }

  /** `let message = ...; if (...) message = ...; else if ...`: the translated message. */
  method TranslateMessage(original: string) returns (message: string)
    ensures message == FirstMatch(Rules, original, DefaultMessage)
  {
    var rest := Rules[1..];
    assert rest == [("Validation", ValidationMessage), ("Unauthorized", UnauthorizedMessage)];
    assert rest[1..] == [("Unauthorized", UnauthorizedMessage)];
    assert FirstMatch(rest[1..][1..], original, DefaultMessage) == DefaultMessage;
    message := DefaultMessage;
    if Contains(original, "not found") {
      message := NotFoundMessage;
    } else if Contains(original, "Validation") {
      message := ValidationMessage;
      assert FirstMatch(rest, original, DefaultMessage) == ValidationMessage;
    } else if Contains(original, "Unauthorized") {
      message := UnauthorizedMessage;
      assert FirstMatch(rest[1..], original, DefaultMessage) == UnauthorizedMessage;
      assert FirstMatch(rest, original, DefaultMessage) == UnauthorizedMessage;
    } else {
      assert FirstMatch(rest[1..], original, DefaultMessage) == DefaultMessage;
      assert FirstMatch(rest, original, DefaultMessage) == DefaultMessage;
    }
  }

  /** A message mentioning both "not found" and "Validation" is translated as not-found. */
  lemma NotFoundWins(a: string, b: string, c: string)
    ensures FirstMatch(Rules, a + "not found" + b + "Validation" + c, DefaultMessage) == NotFoundMessage
  {
    ContainsInfix(a, "not found", b + "Validation" + c, "not found");
    assert a + "not found" + b + "Validation" + c == a + "not found" + (b + "Validation" + c);
  }

  /** A message with none of the three substrings gets the default. */
  lemma UnmatchedIsDefault(original: string)
    requires !Contains(original, "not found") && !Contains(original, "Validation") && !Contains(original, "Unauthorized")
    ensures FirstMatch(Rules, original, DefaultMessage) == DefaultMessage
  {
  }

  /**
   * The caught value: an object with its `status` and `message` (`None` is
   * `undefined`), or a thrown `null` (`isNull`) or `undefined`.
   */
  datatype CaughtError =
    | CaughtError(status: Option<int>, message: Option<string>)
    | Nullish(isNull: bool)

  /** `err.status || 500`, given `err.status`. */
  function StatusOf(status: Option<int>): (s: int)
    ensures status.Some? && status.value != 0 ==> s == status.value
    ensures status.None? || status.value == 0 ==> s == 500
  {
    if status.Some? && status.value != 0 then status.value else 500
  }

  /** `{error: {status, message}}`. */
  function ErrorBody(status: int, message: string): (b: Json)
    ensures b.JObj? && b.fields.Keys == {"error"}
    ensures b.fields["error"] == JObj(map["status" := JNum(status), "message" := JStr(message)])
  {
    JObj(map["error" := JObj(map["status" := JNum(status), "message" := JStr(message)])])
  }

  /** The TypeError `err.message.includes(...)` raises when the message is `undefined`. */
  const UndefinedMessageError: Thrown :=
    ErrorValue("TypeError", "Cannot read properties of undefined (reading 'includes')")

  /** The TypeError `err.status` raises when `null` or `undefined` was thrown. */
  function NullishStatusError(isNull: bool): Thrown {
    ErrorValue("TypeError", "Cannot read properties of " + (if isNull then "null" else "undefined") + " (reading 'status')")
  }

  /** The Koa context the middleware writes. */
  class TranslateContext {
    var status: int
    var body: Json

    constructor (status: int, body: Json)
      ensures this.status == status && this.body == body
    {
      this.status := status;
      this.body := body;
    }

    /** One run; `failure` is what `next()` throws, if anything, and `rethrown` what escapes the catch block. */
    method Handle(failure: Option<CaughtError>) returns (rethrown: Option<Thrown>)
      modifies this
      ensures failure.None? ==> status == old(status) && body == old(body) && rethrown == None
      ensures failure.Some? && failure.value.Nullish? ==>
        status == old(status) && body == old(body) && rethrown == Some(NullishStatusError(failure.value.isNull))
      ensures failure.Some? && failure.value.CaughtError? ==> status == StatusOf(failure.value.status)
      ensures failure.Some? && failure.value.CaughtError? && failure.value.message.None? ==>
        body == old(body) && rethrown == Some(UndefinedMessageError)
      ensures failure.Some? && failure.value.CaughtError? && failure.value.message.Some? ==>
        body == ErrorBody(status, FirstMatch(Rules, failure.value.message.value, DefaultMessage)) && rethrown == None
    {
      rethrown := None;
      if failure.None? {
        return;
      }
      var err := failure.value;
      if err.Nullish? {
        rethrown := Some(NullishStatusError(err.isNull));
        return;
      }
      status := StatusOf(err.status);
      if err.message.None? {
        rethrown := Some(UndefinedMessageError);
        return;
      }
      var message := TranslateMessage(err.message.value);
      body := ErrorBody(status, message);
    }
  }
}

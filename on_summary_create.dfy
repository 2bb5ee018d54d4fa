/**
 * backend/src/api/summary/middlewares/on-summary-create.ts: the credit gate in
 * front of summary creation. It rejects callers without a user or with exactly
 * zero credits, stamps the caller's `documentId` into `body.data.userId`, runs
 * the creation (`next`) and then writes the caller's credits back one lower.
 */
module OnSummaryCreate {
  import opened Wrappers
  import opened Js

  const UnauthenticatedMessage: string := "인증되지 않은 사용자입니다."
  const NoCreditsMessage: string := "사용 가능한 크레딧이 부족합니다."
  const CreditUpdateFailedMessage: string := "사용자 크레딧 업데이트 중 오류가 발생했습니다."

  /** `ctx.state.user`: its `documentId` and its `credits` (`None` is `null`). */
  datatype User = User(documentId: string, credits: Option<int>)

  /** `availableCredits === 0`: only an exact zero is rejected. */
  predicate OutOfCredits(u: User) {
    u.credits == Some(0)
  }

  /** `availableCredits - 1`, where `null - 1` is `-1`. */
  function Remaining(u: User): (r: int)
    ensures u.credits.Some? ==> r == u.credits.value - 1
    ensures u.credits.None? ==> r == -1
  {
    u.credits.GetOr(0) - 1
  }

  /** `{...body, data: {...body.data, userId}}`, or the TypeError reading `data` of `null` raises. */
  function StampedBody(body: Json, userId: string): (r: Result<Json, Thrown>)
    ensures r.Err? <==> body.JNull?
    ensures r.Err? ==> r.error == ErrorValue("TypeError", NullReadMessage("data"))
    ensures r.Ok? ==> r.value.JObj? && r.value.fields.Keys == Spread(Some(body)).Keys + {"data"}
    ensures r.Ok? ==> forall k :: k in Spread(Some(body)) && k != "data" ==> r.value.fields[k] == Spread(Some(body))[k]
    ensures r.Ok? ==> var d := r.value.fields["data"];
      d.JObj? && d.fields.Keys == Spread(Prop(body, "data").value).Keys + {"userId"}
      && d.fields["userId"] == JStr(userId)
      && forall k :: k in Spread(Prop(body, "data").value) && k != "userId" ==>
           d.fields[k] == Spread(Prop(body, "data").value)[k]
  {
    match Prop(body, "data")
    case Err(m) => Err(ErrorValue("TypeError", m))
    case Ok(data) => Ok(JObj(Spread(Some(body))["data" := JObj(Spread(data)["userId" := JStr(userId)])]))
  }

  /**
   * The credits store after one run: the caller's entry is set to the snapshot
   * minus one exactly when creation completed and the write succeeded.
   */
  function CreditsAfter(store: map<string, int>, user: Option<User>, body: Json,
                        nextOutcome: Option<Thrown>, updateFails: bool): (s: map<string, int>)
    ensures s != store ==> user.Some? && !OutOfCredits(user.value) && !body.JNull? && nextOutcome.None? && !updateFails
    ensures user.Some? && !OutOfCredits(user.value) && !body.JNull? && nextOutcome.None? && !updateFails ==>
      s == store[user.value.documentId := Remaining(user.value)]
  {
    if user.Some? && !OutOfCredits(user.value) && !body.JNull? && nextOutcome.None? && !updateFails then
      store[user.value.documentId := Remaining(user.value)]
    else store
  }

  /** Runs against a store that agrees with the callers' snapshots never drive credits below zero. */
  lemma CreditsStayNonNegative(store: map<string, int>, user: User, body: Json,
                               nextOutcome: Option<Thrown>, updateFails: bool)
    requires forall k :: k in store ==> store[k] >= 0
    requires user.documentId in store && user.credits == Some(store[user.documentId])
    ensures var s := CreditsAfter(store, Some(user), body, nextOutcome, updateFails);
      forall k :: k in s ==> s[k] >= 0
  {
  }

  /** Every key other than the caller's is untouched. */
  lemma OthersUntouched(store: map<string, int>, user: Option<User>, body: Json,
                        nextOutcome: Option<Thrown>, updateFails: bool, k: string)
    requires k in store && (user.None? || k != user.value.documentId)
    ensures var s := CreditsAfter(store, user, body, nextOutcome, updateFails);
      k in s && s[k] == store[k]
  {
  }

  /** The middleware's context together with the users' credits store. */
  class CreditGate {
    /** `ctx.state.user`. */
    const user: Option<User>
    /** `ctx.request.body`, overwritten with the stamped body. */
    var body: Json
    /** Stored credits by user `documentId`. */
    var credits: map<string, int>
    /** The message of `ctx.unauthorized`, once called. */
    var rejection: Option<string>
    /** The message of `ctx.badRequest`, once called. */
    var badRequest: Option<string>
    /** How often `next()` was awaited. */
    var nextCalls: nat

    constructor (user: Option<User>, body: Json, credits: map<string, int>)
      ensures this.user == user && this.body == body && this.credits == credits
      ensures rejection == None && badRequest == None && nextCalls == 0
    {
      this.user := user;
      this.body := body;
      this.credits := credits;
      rejection := None;
      badRequest := None;
      nextCalls := 0;
    }

    /**
     * One run. `nextOutcome` is what `next()` throws, if anything; `updateFails`
     * says whether the credits write throws. `thrown` is what the middleware rethrows.
     */
    method Handle(nextOutcome: Option<Thrown>, updateFails: bool) returns (thrown: Option<Thrown>)
      modifies this
      ensures credits == CreditsAfter(old(credits), user, old(body), nextOutcome, updateFails)
      ensures user.None? ==>
        rejection == Some(UnauthenticatedMessage) && nextCalls == old(nextCalls) && body == old(body) && thrown == None
      ensures user.Some? && OutOfCredits(user.value) ==>
        rejection == Some(NoCreditsMessage) && nextCalls == old(nextCalls) && body == old(body) && thrown == None
      ensures user.Some? && !OutOfCredits(user.value) ==> rejection == old(rejection)
      ensures user.Some? && !OutOfCredits(user.value) && old(body).JNull? ==>
        thrown == Some(ErrorValue("TypeError", NullReadMessage("data"))) && nextCalls == old(nextCalls)
        && body == old(body)
      ensures user.Some? && !OutOfCredits(user.value) && !old(body).JNull? ==>
        body == StampedBody(old(body), user.value.documentId).value && nextCalls == old(nextCalls) + 1
        && thrown == nextOutcome
      ensures badRequest == (if user.Some? && !OutOfCredits(user.value) && !old(body).JNull?
                                && nextOutcome.None? && updateFails
                             then Some(CreditUpdateFailedMessage) else old(badRequest))
    {
      thrown := None;
      if user.None? {
        rejection := Some(UnauthenticatedMessage);
        return;
      }
      var u := user.value;
      if OutOfCredits(u) {
        rejection := Some(NoCreditsMessage);
        return;
      }
      var stamped := StampedBody(body, u.documentId);
      if stamped.Err? {
        thrown := Some(stamped.error);
        return;
      }
      body := stamped.value;
      nextCalls := nextCalls + 1;
      if nextOutcome.Some? {
        thrown := nextOutcome;
        return;
      }
      if updateFails {
        badRequest := Some(CreditUpdateFailedMessage);
      } else {
        credits := credits[u.documentId := Remaining(u)];
      }
    }
  }
}

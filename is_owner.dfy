/**
 * backend/src/middlewares/is-owner.ts: the ownership middleware. A caller may
 * only read or change entries whose `userId` is their own `documentId`; list
 * requests are narrowed by forcing `filters.userId` into the query.
 */
module IsOwner {
  import opened Wrappers
  import opened Js

  const DeniedMessage: string := "You can't access this entry"

  /** `generateUID(apiName)`: the content-type UID `api::<name>.<name>`. */
  function GenerateUID(apiName: string): (uid: string)
    ensures |uid| == 2 * |apiName| + 6
    ensures uid[..5] == "api::" && uid[|uid| - |apiName| - 1] == '.'
    ensures uid[5..5 + |apiName|] == apiName && uid[|uid| - |apiName|..] == apiName
  {
    "api::" + apiName + "." + apiName
  }

  /** Distinct API names give distinct UIDs. */
  lemma GenerateUIDInjective(a: string, b: string)
    ensures GenerateUID(a) == GenerateUID(b) ==> a == b
  {
  }

  /** A stored entry; only its `userId` attribute matters here. */
  datatype Entry = Entry(userId: Option<Json>)

  /** The document store: entries by content-type UID and `documentId`. */
  type Store = map<(string, string), Entry>

  /** `findOne({documentId})` on the collection `uid`: `null` when absent. */
  function FindOne(store: Store, uid: string, documentId: string): (e: Option<Entry>)
    ensures e.Some? <==> (uid, documentId) in store
    ensures e.Some? ==> e.value == store[(uid, documentId)]
  {
    if (uid, documentId) in store then Some(store[(uid, documentId)]) else None
  }

  /** `if (entryId)`: the route carries a non-empty `:id`. */
  predicate HasEntryId(entryId: Option<string>) {
    entryId.Some? && entryId.value != ""
  }

  datatype Verdict = Unauthorized | Proceed

  /**
   * The middleware's decision, given the caller's `documentId`, the route's `:id`
   * and the entry that id names (if any).
   */
  function Decide(userId: Option<Json>, entryId: Option<string>, entry: Option<Entry>): (v: Verdict)
    ensures !TruthyOpt(userId) ==> v == Unauthorized
    ensures TruthyOpt(userId) && !HasEntryId(entryId) ==> v == Proceed
    ensures TruthyOpt(userId) && HasEntryId(entryId) && entry.None? ==> v == Proceed
    ensures v == Unauthorized <==>
      !TruthyOpt(userId) || (HasEntryId(entryId) && entry.Some? && entry.value.userId != userId)
  {
    if !TruthyOpt(userId) then Unauthorized
    else if HasEntryId(entryId) && entry.Some? && entry.value.userId != userId then Unauthorized
    else Proceed
  }

  /** `ctx.query.filters`, spread: the caller's existing filters. */
  function Filters(query: map<string, Json>): map<string, Json> {
    Spread(if "filters" in query then Some(query["filters"]) else None)
  }

  /** `{...ctx.query, filters: {...ctx.query.filters, userId}}`. */
  function ScopedQuery(query: map<string, Json>, userId: Json): (q: map<string, Json>)
    ensures q.Keys == query.Keys + {"filters"}
    ensures forall k :: k in query && k != "filters" ==> q[k] == query[k]
    ensures q["filters"].JObj? && q["filters"].fields.Keys == Filters(query).Keys + {"userId"}
    ensures q["filters"].fields["userId"] == userId
    ensures forall k :: k in Filters(query) && k != "userId" ==> q["filters"].fields[k] == Filters(query)[k]
  {
    query["filters" := JObj(Filters(query)["userId" := userId])]
  }

  /** Scoping is idempotent: a scoped query is left as it is by scoping again with the same caller. */
  lemma ScopedQueryIdempotent(query: map<string, Json>, userId: Json)
    ensures ScopedQuery(ScopedQuery(query, userId), userId) == ScopedQuery(query, userId)
  {
    var q := ScopedQuery(query, userId);
    var f := Filters(query)["userId" := userId];
    assert Filters(q) == f;
    assert f["userId" := userId] == f;
    assert q["filters" := JObj(f)] == q;
  }

  /** A string `filters` (as `?filters=ab` parses) is spread into its index keys before `userId` is added. */
  lemma StringFiltersSpread()
    ensures ScopedQuery(map["filters" := JStr("ab")], JStr("u"))["filters"]
      == JObj(map["0" := JStr("a"), "1" := JStr("b"), "userId" := JStr("u")])
  {
    var items := [JStr("a"), JStr("b")];
    assert CharStrings("ab") == items;
    assert IndexKey(0) == "0" && IndexKey(1) == "1";
    assert items[..1][..0] == [];
    assert IndexedEntries(items[..1]) == map["0" := JStr("a")];
    assert IndexedEntries(items) == map["0" := JStr("a"), "1" := JStr("b")];
  }

  /** The request context the middleware reads and changes. */
  class OwnerContext {
    /** `ctx.params.id`. */
    const entryId: Option<string>
    /** `ctx.state.user?.documentId`. */
    const userId: Option<Json>
    /** `ctx.state.route.info.apiName`. */
    const apiName: string
    /** `ctx.query`, reassigned on list requests. */
    var query: map<string, Json>
    /** The message passed to `ctx.unauthorized`, once it is called. */
    var rejection: Option<string>
    /** How often `next()` was awaited. */
    var nextCalls: nat
    /** The `findOne` calls made, as (UID, documentId). */
    var lookups: seq<(string, string)>

    constructor (entryId: Option<string>, userId: Option<Json>, apiName: string, query: map<string, Json>)
      ensures this.entryId == entryId && this.userId == userId && this.apiName == apiName
      ensures this.query == query && rejection == None && nextCalls == 0 && lookups == []
    {
      this.entryId := entryId;
      this.userId := userId;
      this.apiName := apiName;
      this.query := query;
      rejection := None;
      nextCalls := 0;
      lookups := [];
    }

    /** The entry the route's `:id` names, when there is one. */
    function Target(store: Store): Option<Entry>
      reads this
    {
      if HasEntryId(entryId) then FindOne(store, GenerateUID(apiName), entryId.value) else None
    }

    /** One run of the middleware against `store`. */
    method Handle(store: Store)
      modifies this
      ensures var v := Decide(userId, entryId, Target(store));
        && (v == Unauthorized ==> rejection == Some(DeniedMessage) && nextCalls == old(nextCalls))
        && (v == Proceed ==> rejection == old(rejection) && nextCalls == old(nextCalls) + 1)
      ensures query == (if TruthyOpt(userId) && !HasEntryId(entryId) then ScopedQuery(old(query), userId.value)
                        else old(query))
      ensures lookups == old(lookups) + (if TruthyOpt(userId) && HasEntryId(entryId)
                                         then [(GenerateUID(apiName), entryId.value)] else [])
    {
      if !TruthyOpt(userId) {
        rejection := Some(DeniedMessage);
        return;
      }
      var appUid := GenerateUID(apiName);
      if HasEntryId(entryId) {
        var entry := FindOne(store, appUid, entryId.value);
        lookups := lookups + [(appUid, entryId.value)];
        if entry.Some? && entry.value.userId != userId {
          rejection := Some(DeniedMessage);
          return;
        }
      }
      if !HasEntryId(entryId) {
        query := ScopedQuery(query, userId.value);
      }
      nextCalls := nextCalls + 1;
    }
  }

  /** A caller reading their own entry is let through with the query untouched. */
  lemma OwnerProceeds(store: Store, apiName: string, id: string, userId: Json)
    requires id != "" && Truthy(userId)
    requires (GenerateUID(apiName), id) in store && store[(GenerateUID(apiName), id)].userId == Some(userId)
    ensures Decide(Some(userId), Some(id), FindOne(store, GenerateUID(apiName), id)) == Proceed
  {
  }
}

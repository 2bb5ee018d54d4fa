# Summary app core, modelled in Dafny

This project models the decision logic of a YouTube-summary web application. The app has a
Next.js 15 front end and a Strapi 5 back end. The model covers:

- **Data layer.** `apiRequest` builds a request and maps what `fetch` did to the response
  envelope `{success, data?, error?, meta?, status}`. `handleApiError` and
  `validateApiResponse` turn that envelope into data, a not-found signal or a thrown error.
- **Request guards.**
  - The Next.js middleware protects `/dashboard` and everything below it.
  - The Strapi `is-owner` middleware restricts users to their own entries.
  - The `on-summary-create` middleware stamps the author into the body and deducts a credit.
  - The `error-translate` middleware turns errors into Korean messages.
  - The `/api/summarize` route handler gates the generator on authentication, credits and a
    transcript.
- **Forms.**
  - The Zod schemas for summaries, profiles, profile images, sign-in and sign-up, with every
    message text.
  - The server actions that validate a form, call a service and return the next form state:
    `updateSummaryAction`, `deleteSummaryAction`, `registerUserAction` and
    `updateProfileAction`.
- **Small utilities.**
  - `getStrapiURL` and `getStrapiMedia`.
  - `extractYouTubeID`.
  - The transcript post-processing of `generateTranscript`.
- **URL building.** The search box and the pagination component, over a model of
  `URLSearchParams`. That model follows the WHATWG URL Standard: the list operations of
  section 6.2 and the `application/x-www-form-urlencoded` serializer of section 5.2.

## Form of the model

Pure TypeScript code is modelled as datatypes and functions. Code that updates a context or a local
object in place is modelled as a Dafny `class` whose methods carry `modifies` clauses:

- the Koa `ctx` of the three Strapi middlewares (`IsOwner.OwnerContext`,
  `OnSummaryCreate.CreditGate`, `ErrorTranslate.TranslateContext`);
- the `URLSearchParams` object (`SearchParams.URLSearchParams`).

Code that assigns local variables step by step is modelled as a method. These are the header
building, the translation chain and the two transcript `try` blocks.

The following are parameters of the model:

- what a network call, a database call or an external library returns;
- what an environment variable holds;
- which e-mail format check Zod applies.

The shared modules model the JavaScript semantics the core relies on:

- `Js`: JSON values, truthiness, `||`, `??`, property reads (including the TypeError on
  `null`), `Number()` and string conversion of thrown values.
- `Zod`: continuable string checks, type errors and `flattenError().fieldErrors`.
- `FormData`: `Object.fromEntries`, `formData.get` and object spread.
- `Strings`, `Wrappers`: string search, split and join, `Option` and `Result`.

Where the code and its own comments or messages disagree, the model follows the code:

- The sign-in password must have at least 6 characters, although its message says 4
  (`AuthValidation.FiveCharacterPasswordRefused`).
- `updateProfileAction` returns `success: false` together with its success message.
- `updateProfileAction` reports "Failed to Login." when the service returns an error.

## Model

| member | source | states |
|---|---|---|
| DataApi.BuildHeaders | front-end/src/data/data-api.ts:48-56 | JSON content type always; `Authorization: Bearer <token>` exactly when the token is non-empty; no other header |
| DataApi.WellFormed | front-end/src/data/data-api.ts:73-159 | none; body only: a success envelope carries data and no error, a failure envelope an error and no data (the shape every return of `apiRequest` has) |
| DataApi.BodyFor | front-end/src/data/data-api.ts:64-68 | GET and DELETE send no body; the other verbs send the payload, or `{}` when it is absent or null |
| DataApi.CaughtEnvelope | front-end/src/data/data-api.ts:133-160 | a caught AbortError becomes a 408 TimeoutError; anything else becomes a 500 NetworkError carrying the error's message or the unknown-error text |
| DataApi.ResponseEnvelope | front-end/src/data/data-api.ts:73-132 | every envelope built from a response is well formed: data present iff success, error present iff not |
| DataApi.FetchEnvelope | front-end/src/data/data-api.ts:58-160 | every outcome of `fetch` (abort, throw, response) yields a well-formed envelope |
| DataApi.ApiRequest | front-end/src/data/data-api.ts:42-161 | the request sent has the verb, the body and the headers of the rules above; the envelope returned is the one for the fetch outcome |
| DataApi.ThrownOutcomes | front-end/src/data/data-api.ts:133-160 | abort gives status 408 and name TimeoutError; a thrown Error gives status 500, name NetworkError and its own message |
| DataApi.UnparsableIsNetworkError | front-end/src/data/data-api.ts:88-89 | a non-DELETE response whose body fails to parse behaves as a thrown SyntaxError, so it becomes a 500 |
| DataApi.DeleteIgnoresBody | front-end/src/data/data-api.ts:73-86 | DELETE never depends on the body; ok gives `data: true`, otherwise an "Error" with the HTTP status |
| DataApi.ErrorPassedThrough | front-end/src/data/data-api.ts:101-108 | a non-ok response whose body has a truthy `error` returns that error unchanged |
| DataApi.ErrorSynthesized | front-end/src/data/data-api.ts:110-119 | a non-ok response without a body error gets name "Error", the status, and `statusText` or the generic message |
| DataApi.SuccessEnvelope | front-end/src/data/data-api.ts:122-132 | ok response: data is `body.data` when truthy, else the whole body; meta only when truthy |
| DataApi.StatusAgrees | front-end/src/data/data-api.ts:73-132 | whenever no exception is raised, the envelope status is the HTTP status and success is `response.ok` |
| ErrorHandler.HandleApiError | front-end/src/lib/error-handler.ts:12-31 | missing envelope throws the load-failed message; not-found iff the error status is 404; passes iff it is not a 404 and has success and truthy data; a present non-404 envelope without success or truthy data throws; a throw's message is the error's truthy message or the default |
| ErrorHandler.ServerErrorThrows | front-end/src/lib/error-handler.ts:26-30 | a failed 500 envelope with message "boom" throws `Error("boom")` |
| ErrorHandler.ValidateApiResponse | front-end/src/lib/error-handler.ts:41-47 | returns exactly the envelope's (truthy) data when `handleApiError` passes; not-found and throw correspond one to one |
| ErrorHandler.NotFoundFromResponse | front-end/src/lib/error-handler.ts:20-23 | a 404 response without a body error, through `apiRequest`, becomes not-found |
| ErrorHandler.NotFoundFromDelete | front-end/src/lib/error-handler.ts:20-23 | a 404 from DELETE becomes not-found whatever the body |
| ErrorHandler.DataFromSuccess | front-end/src/lib/error-handler.ts:41-47 | a successful response with truthy `data` returns that very value |
| ErrorHandler.TimeoutThrows | front-end/src/lib/error-handler.ts:25-30 | a timed-out request throws the timeout message |
| ErrorTranslate.FirstMatch | backend/src/middlewares/error-translate/index.ts:14-21 | the message of the first rule whose substring occurs, or the fallback when none does |
| ErrorTranslate.TranslateMessage | backend/src/middlewares/error-translate/index.ts:14-21 | the if/else-if chain computes the first-match translation of the three rules |
| ErrorTranslate.NotFoundWins | backend/src/middlewares/error-translate/index.ts:19-20 | a message containing both "not found" and "Validation" is translated as not found (order of the rules) |
| ErrorTranslate.UnmatchedIsDefault | backend/src/middlewares/error-translate/index.ts:14-21 | a message without the three substrings gets the internal-error default |
| ErrorTranslate.StatusOf | backend/src/middlewares/error-translate/index.ts:11 | `err.status || 500` on the caught object's status: the status when present and non-zero, else 500 |
| ErrorTranslate.ErrorBody | backend/src/middlewares/error-translate/index.ts:24-29 | the body has the single key `error` holding status and message |
| ErrorTranslate.TranslateContext.Handle | backend/src/middlewares/error-translate/index.ts:3-31 | no failure leaves the context alone; a thrown `null` or `undefined` rethrows the TypeError of reading `status` before anything is set; otherwise a failure sets the status and the translated body, and an undefined message rethrows the TypeError after setting the status |
| IsOwner.GenerateUID | backend/src/middlewares/is-owner.ts:28-31 | `api::<name>.<name>`: length, prefix, separator and both copies of the name |
| IsOwner.GenerateUIDInjective | backend/src/middlewares/is-owner.ts:28-34 | distinct API names give distinct UIDs |
| IsOwner.FindOne | backend/src/middlewares/is-owner.ts:39-42 | an entry is found iff the store holds that UID and documentId, and it is the stored one |
| IsOwner.Decide | backend/src/middlewares/is-owner.ts:15-47 | unauthorized iff no (truthy) user id, or the id names an existing entry owned by someone else |
| IsOwner.ScopedQuery | backend/src/middlewares/is-owner.ts:50-56 | every query key kept, every existing filter kept except `userId`, which is set to the caller |
| IsOwner.ScopedQueryIdempotent | backend/src/middlewares/is-owner.ts:50-56 | scoping a scoped query again with the same caller changes nothing |
| IsOwner.StringFiltersSpread | backend/src/middlewares/is-owner.ts:54 | a string `filters` such as `"ab"` is spread into the index keys `"0"` and `"1"` holding its characters, next to `userId` |
| IsOwner.OwnerContext.Handle | backend/src/middlewares/is-owner.ts:11-60 | rejection and `next()` follow `Decide`; the query is scoped only on list requests by a signed-in user; a lookup happens only for single-entry requests by a signed-in user |
| IsOwner.OwnerProceeds | backend/src/middlewares/is-owner.ts:37-47 | an owner reading their own entry proceeds |
| OnSummaryCreate.Remaining | backend/src/api/summary/middlewares/on-summary-create.ts:36 | the credits written back are the snapshot minus one (null counts as 0) |
| OnSummaryCreate.StampedBody | backend/src/api/summary/middlewares/on-summary-create.ts:19-25 | a null body throws the TypeError; otherwise every key is kept and `data` keeps its fields with `userId` set to the caller |
| OnSummaryCreate.CreditsAfter | backend/src/api/summary/middlewares/on-summary-create.ts:8-41 | the store changes only on the full success path, where the caller's credits become the snapshot minus one |
| OnSummaryCreate.CreditsStayNonNegative | backend/src/api/summary/middlewares/on-summary-create.ts:12-36 | with a store that agrees with the snapshot, credits never go below zero |
| OnSummaryCreate.OthersUntouched | backend/src/api/summary/middlewares/on-summary-create.ts:32-38 | no other user's credits change |
| OnSummaryCreate.CreditGate.Handle | backend/src/api/summary/middlewares/on-summary-create.ts:8-44 | the unauthorized messages for no user and zero credits; body stamped; `next()` awaited once; errors from `next()` escape; a failed credit update is a bad request |
| SummarizeRoute.Post | front-end/src/app/api/summarize/route.ts:60-109 | failed auth echoes the auth result with its status or 401; no credits gives 402; a rejected `req.json()` escapes; a `null` body throws the TypeError of destructuring `fullTranscript` from `body`; no transcript gives 400; the generator's summary or its error message otherwise |
| SummarizeRoute.GeneratorGated | front-end/src/app/api/summarize/route.ts:63-99 | the generator runs iff auth succeeded, the user has a credit and the transcript is truthy; it receives that transcript |
| SummarizeRoute.NoCreditsRefused | front-end/src/app/api/summarize/route.ts:72-83 | absent, zero or negative credits get the 402 body and the request body is not read |
| RouteGuard.SomeRouteMatchesIff | front-end/src/middleware.ts:12-21 | `some` holds iff one route matches |
| RouteGuard.RouteMatches | front-end/src/middleware.ts:13-20 | none; body only: a star-free route matches only itself; a wildcard route matches its base and every path below `base/` |
| RouteGuard.IsProtectedRoute | front-end/src/middleware.ts:10-22 | none; body only: false on an empty path or an empty route list, else `some` over the routes; its meaning is stated by `RouteGuard.ProtectedIff` |
| RouteGuard.FirstWildcard | front-end/src/middleware.ts:19 | `replace("/*", "")` finds the trailing wildcard of a star-free base |
| RouteGuard.DashboardWildcardBase | front-end/src/middleware.ts:7-19 | the wildcard entry's base is `/dashboard` |
| RouteGuard.DashboardRouteHasStar | front-end/src/middleware.ts:7-17 | the wildcard entry contains `*` |
| RouteGuard.DashboardBase | front-end/src/middleware.ts:19 | removing the first slash-star of the wildcard entry leaves `/dashboard` |
| RouteGuard.ProtectedIff | front-end/src/middleware.ts:7-22 | a path is protected iff it is `/dashboard` or starts with `/dashboard/` |
| RouteGuard.NoBareSuffixMatch | front-end/src/middleware.ts:20 | `/dashboardX` without the slash is not protected |
| RouteGuard.Middleware | front-end/src/middleware.ts:24-51 | unprotected paths pass without a lookup; protected paths pass iff the lookup returned success with truthy data; every redirect goes to `/signin` |
| Utils.GetStrapiURL | front-end/src/lib/utils.ts:9-11 | the variable when set and non-empty, else `http://localhost:1337` |
| Utils.MatchAt | front-end/src/lib/utils.ts:20-22 | a match at an index yields an 11-character ID |
| Utils.FindMatch | front-end/src/lib/utils.ts:22 | the leftmost index where the link regex matches, or none when there is none |
| Utils.ExtractYouTubeID | front-end/src/lib/utils.ts:14-24 | a bare ID is returned as is; otherwise the capture of the leftmost match; null iff no match; any result is an ID |
| Utils.PrefixesDiffer | front-end/src/lib/utils.ts:20-21 | two prefixes differing at one index exclude each other |
| Utils.PrefixesExclusive | front-end/src/lib/utils.ts:20-21 | at most one of the three link alternatives can match at one index |
| Utils.ExtractIdempotent | front-end/src/lib/utils.ts:14-24 | extracting from an extracted ID gives the same ID |
| Utils.MatchNeedsSlash | front-end/src/lib/utils.ts:20-21 | a link match needs a character outside the ID class |
| Utils.IdCharsOnly | front-end/src/lib/utils.ts:16-23 | a string of ID characters is accepted iff it has exactly 11 |
| Utils.ExtractFromLink | front-end/src/lib/utils.ts:20-23 | each of the three link shapes yields exactly the embedded ID |
| Utils.MatchAtLink | front-end/src/lib/utils.ts:20-21 | a link shape followed by an ID matches right there and captures the ID |
| Utils.NoMatchInside | front-end/src/lib/utils.ts:20 | no match starts inside text without a `y` |
| Utils.LeftmostMatch | front-end/src/lib/utils.ts:22 | a match with none before it is the one the scan finds |
| StrapiImage.GetStrapiMedia | front-end/src/components/custom/strapi-image.tsx:17-23 | null stays null; `data:`, `http` and `//` URLs are kept; others get the base URL prefixed |
| StrapiImage.MediaIdempotent | front-end/src/components/custom/strapi-image.tsx:17-23 | resolving twice equals resolving once when the base URL is absolute |
| StrapiImage.StrapiImage | front-end/src/components/custom/strapi-image.tsx:27-42 | renders iff the URL resolves; alt text or the default |
| Transcript.ProcessTranscriptSegments | front-end/src/data/services/summary/generate-transcript.ts:13-22 | one output per segment with its text, both times, and duration end minus start |
| Transcript.ProcessSegment | front-end/src/data/services/summary/generate-transcript.ts:16-21 | none; body only: one segment's text, `Number` of both times and their `Sub` |
| Transcript.DurationOfDigitTimes | front-end/src/data/services/summary/generate-transcript.ts:18-20 | for digit strings the duration is the numeric difference |
| Transcript.CleanImageUrl | front-end/src/data/services/summary/generate-transcript.ts:29 | the prefix of the URL before its first `?` |
| Transcript.CleanImageUrlIdempotent | front-end/src/data/services/summary/generate-transcript.ts:29 | cleaning twice equals cleaning once |
| Transcript.ValidateIdentifier | front-end/src/data/services/summary/generate-transcript.ts:35-39 | throws the invalid-identifier message iff the identifier is empty |
| Transcript.ExtractBasicInfo | front-end/src/data/services/summary/generate-transcript.ts:46-55 | title or "Untitled Video"; the video id; the cleaned first thumbnail URL when truthy |
| Transcript.GetTranscriptSegments | front-end/src/data/services/summary/generate-transcript.ts:61-71 | the initial segments when present, else the no-transcript error |
| Transcript.RawTexts | front-end/src/data/services/summary/generate-transcript.ts:115 | `segments.map(s => s.snippet.text)` (also at line 132): the segment texts, in order |
| Transcript.FullTranscriptSplits | front-end/src/data/services/summary/generate-transcript.ts:115 | splitting the joined transcript at spaces gives back the segment texts when they contain no space |
| Transcript.LanguageTranscript | front-end/src/data/services/summary/generate-transcript.ts:111-120 | on success the processed segments, whose texts are the raw snippet texts, and those texts joined with spaces; `""` and `[]` on failure |
| Transcript.KoreanSegments | front-end/src/data/services/summary/generate-transcript.ts:128-130 | the Korean segments iff the lookup found the video and it has initial segments; a thrown lookup passes its error on; a null info throws a TypeError |
| Transcript.GenerateTranscript | front-end/src/data/services/summary/generate-transcript.ts:77-155 | succeeds iff the clients are created, the identifier is non-empty and the English video is found; a failed client creation or a throwing English lookup yields its Error's message or the generic failure message; the invalid-identifier and not-found messages otherwise; both languages' transcripts as `LanguageTranscript` states |
| SearchParams.FirstIndex | front-end/src/components/custom/pagination-component.tsx:58 | the index of the first pair with the name, none iff there is none |
| SearchParams.FirstIndexSnoc | front-end/src/components/custom/pagination-component.tsx:58 | appending a pair keeps an existing first index, else the new pair is first iff it has the name |
| SearchParams.SplitAtFirst | front-end/src/components/custom/search.tsx:22-25 | a list splits at its first pair with the name into a part without the name, that pair, and the rest |
| SearchParams.Get | front-end/src/components/custom/pagination-component.tsx:58 | the value of the first pair with the name, none iff absent |
| SearchParams.GetSnoc | front-end/src/components/custom/pagination-component.tsx:58 | appending a pair changes `get` only when the name was absent and the pair has it |
| SearchParams.Without | front-end/src/components/custom/search.tsx:27 | no pair with the name remains; a list without it is unchanged |
| SearchParams.SetPairs | front-end/src/components/custom/search.tsx:22-25 | none; body only: the WHATWG `set` on the pair list (first namesake takes the value, later ones go, appended when absent); its meaning is stated by `SetThenGet`, `OnlyMiddleNamed`, `SetThenWithout` and `SetCommutesWithOther` |
| SearchParams.WithoutAppend | front-end/src/components/custom/search.tsx:27 | removal distributes over concatenation |
| SearchParams.WithoutKeepsOthers | front-end/src/components/custom/search.tsx:27 | removal keeps every other name present |
| SearchParams.WithoutCommutes | front-end/src/components/custom/search.tsx:27 | removing two names in either order gives the same list |
| SearchParams.WithoutIdempotent | front-end/src/components/custom/search.tsx:27 | removing twice equals removing once |
| SearchParams.SetThenGet | front-end/src/components/custom/search.tsx:22-25 | after set, get returns the value and exactly one pair has the name |
| SearchParams.SetPairsSnoc | front-end/src/components/custom/search.tsx:22-25 | setting over a list with one more pair at the end: the pair is kept when it has another name and dropped when it has the name |
| SearchParams.SetPairsFirst | front-end/src/components/custom/search.tsx:22-25 | when the appended pair is the first with the name, set replaces its value |
| SearchParams.OnlyMiddleNamed | front-end/src/components/custom/search.tsx:22-25 | after set, the replaced pair is the only one with the name |
| SearchParams.SetThenWithout | front-end/src/components/custom/search.tsx:22-27 | set then delete of a name equals delete |
| SearchParams.SetCommutesWithOther | front-end/src/components/custom/search.tsx:22-27 | set of one name commutes with delete of another |
| SearchParams.DeleteThenGet | front-end/src/components/custom/search.tsx:27 | after delete, get returns null |
| SearchParams.DeleteKeepsGet | front-end/src/components/custom/search.tsx:27 | delete of one name keeps get of every other |
| SearchParams.Utf8 | front-end/src/components/custom/search.tsx:30 | one to four bytes; ASCII is one byte equal to the code; longer forms have a lead byte and continuation bytes |
| SearchParams.PercentBytes | front-end/src/components/custom/search.tsx:30 | three characters per byte, each `%` or an upper-case hex digit |
| SearchParams.EncodeChar | front-end/src/components/custom/search.tsx:30 | never yields `&` or `=`; unreserved characters are kept; space becomes `+` |
| SearchParams.Encode | front-end/src/components/custom/search.tsx:30 | the encoding is never shorter than the string |
| SearchParams.EncodeHasNoSeparators | front-end/src/components/custom/search.tsx:30 | an encoded string holds no `&` and no `=` |
| SearchParams.EncodeUnreserved | front-end/src/components/custom/search.tsx:30 | a string of unreserved characters encodes as itself |
| SearchParams.EncodePairSplits | front-end/src/components/custom/search.tsx:30 | an encoded pair has no `&` and splits at `=` into the encoded name and value |
| SearchParams.EncodePair | front-end/src/components/custom/search.tsx:30 | none; body only: name and value encoded and joined by `=`; stated by `EncodePairSplits` |
| SearchParams.EncodedPairs | front-end/src/components/custom/search.tsx:30 | one encoded pair per pair |
| SearchParams.EncodedPairsAt | front-end/src/components/custom/search.tsx:30 | the i-th encoded pair is the encoding of the i-th pair |
| SearchParams.SerializeIsJoin | front-end/src/components/custom/search.tsx:30 | the serialization is the encoded pairs joined with `&` |
| SearchParams.Serialize | front-end/src/components/custom/search.tsx:30 | none; body only: the urlencoded serializer over the pair list; stated by `SerializeIsJoin`, `SerializeStep` and `SerializeSplits` |
| SearchParams.SerializeStep | front-end/src/components/custom/search.tsx:30 | serializing one more pair appends `&` and that pair, or is that pair alone for the first |
| SearchParams.SerializeSplits | front-end/src/components/custom/search.tsx:30 | splitting the serialization at `&` and each part at `=` gives back the encoded pairs |
| SearchParams.URLSearchParams.Set | front-end/src/components/custom/search.tsx:22-25 | the first pair with the name takes the value and later ones go; appended when absent |
| SearchParams.URLSearchParams.Delete | front-end/src/components/custom/search.tsx:27 | every pair with the name is removed, others stay in order |
| SearchParams.URLSearchParams.ToString | front-end/src/components/custom/search.tsx:30 | the urlencoded serialization of the current list |
| Search.SetKeepsGet | front-end/src/components/custom/search.tsx:22-25 | setting one name keeps get of every other |
| Search.SearchPairs | front-end/src/components/custom/search.tsx:21-28 | none; body only: page set to "1", then query set to a non-empty term or deleted; stated by `SearchSetsPageAndQuery` and `SearchKeepsOthers` |
| Search.SearchSetsPageAndQuery | front-end/src/components/custom/search.tsx:21-28 | page is "1"; query is the term when non-empty and absent when empty |
| Search.SearchKeepsOthers | front-end/src/components/custom/search.tsx:21-28 | every parameter other than page and query is kept, in order |
| Search.HandleSearch | front-end/src/components/custom/search.tsx:19-31 | the target is the pathname, `?`, and the serialization of the updated parameters |
| Pagination.CurrentPage | front-end/src/components/custom/pagination-component.tsx:58 | `Number(page) || 1`: the number when non-zero and not NaN, else 1 |
| Pagination.ListedCount | front-end/src/components/custom/pagination-component.tsx:67 | `min(5, pageCount)`, never negative |
| Pagination.PageList | front-end/src/components/custom/pagination-component.tsx:67 | the pages 1, 2, ... up to that count, strictly increasing |
| Pagination.ActivePageUnique | front-end/src/components/custom/pagination-component.tsx:82-92 | at most one listed page is active, and one is iff the current page is between 1 and the count |
| Pagination.CreatePageURL | front-end/src/components/custom/pagination-component.tsx:60-64 | the pathname with the parameters whose page is set to the number |
| Pagination.PageURL | front-end/src/components/custom/pagination-component.tsx:60-64 | none; body only: the pathname, `?` and the serialization with `page` set to the number's decimal form; stated by `PageURLTargetsPage` |
| Pagination.PageURLTargetsPage | front-end/src/components/custom/pagination-component.tsx:60-64 | the URL's page parameter reads back as that page number, 0 falling back to 1; other parameters are kept |
| Pagination.Links | front-end/src/components/custom/pagination-component.tsx:82-97 | one link per listed page with its URL, active iff it is the current page |
| Pagination.Render | front-end/src/components/custom/pagination-component.tsx:69-116 | previous disabled iff current <= 1, next iff current >= count; arrow targets current -/+ 1; ellipsis iff count > 5 |
| Pagination.FirstPageArrows | front-end/src/components/custom/pagination-component.tsx:58-112 | with no page parameter, previous is disabled, and next too when there is at most one page |
| Js.Coalesce | front-end/src/data/data-api.ts:114-115 | `??`: the value unless absent or null |
| Js.Prop | front-end/src/data/data-api.ts:102 | reading a property throws iff the value is null; otherwise the field or undefined |
| Js.DestructureNullMessage | front-end/src/app/api/summarize/route.ts:89 | none; body only: the TypeError message of `const {key} = source` on a `null` source |
| Js.OptProp | front-end/src/data/data-api.ts:114-115 | optional chaining: the field only when the value is an object holding it |
| Js.Truthy | front-end/src/data/data-api.ts:125-126 | none; body only: `null`, `false`, `0` and `""` are falsy, every other value truthy |
| Js.TruthyOpt | front-end/src/data/data-api.ts:125-126 | none; body only: `undefined` is falsy, otherwise as `Truthy` |
| Js.Spread | backend/src/middlewares/is-owner.ts:54 | spreading an object gives its fields; an array its elements and a string its one-character strings under the index keys, and no other key; `null`, `undefined`, numbers and booleans give `{}` |
| Js.IndexedEntries | backend/src/middlewares/is-owner.ts:54 | the index keys of a list hold its elements, and there is no other key |
| Js.IndexKeys | backend/src/middlewares/is-owner.ts:54 | the set of keys `"0"` up to `n - 1` holds the key of every index below `n` |
| Js.IndexKeyInjective | backend/src/middlewares/is-owner.ts:54 | distinct indices have distinct property keys |
| Js.MessageOr | front-end/src/data/data-api.ts:154-155 | an Error's message, else the fallback |
| Js.ToJsString | front-end/src/data/actions/summary.ts:97 | none; body only: `String(e)` (also at line 164): `Error.prototype.toString` (`name: message`, either alone when the other is empty) for errors, the value's own text otherwise |
| Js.JsonToString | front-end/src/lib/error-handler.ts:27-29 | none; body only: `String(j)` as `new Error(j)` uses it, arrays joined with `,` and `null` elements printing empty |
| Js.Sub | front-end/src/data/services/summary/generate-transcript.ts:20 | finite iff both finite, and then the difference |
| Js.Number | front-end/src/components/custom/pagination-component.tsx:58 | "" is 0; digits give their value; NaN exactly for non-numeric text |
| Js.NumberOfIntToString | front-end/src/components/custom/pagination-component.tsx:62 | `Number(n.toString())` is n |
| Js.IntToString | front-end/src/components/custom/pagination-component.tsx:62 | none; body only: `-` before the decimal digits of a negative number; stated by `NumberOfIntToString` |
| Js.NatToDecimal | front-end/src/components/custom/pagination-component.tsx:62 | a non-empty string of decimal digits |
| Js.DigitsValueOfDecimal | front-end/src/components/custom/pagination-component.tsx:62 | the digits of a natural number read back as that number |
| Strings.ReplaceFirst | front-end/src/middleware.ts:19 | the first occurrence replaced, or the string unchanged |
| Strings.ContainsInfix | backend/src/middlewares/error-translate/index.ts:19-21 | `includes` survives surrounding text |
| Strings.Split | front-end/src/data/services/summary/generate-transcript.ts:29 | at least one part, none containing the separator |
| Strings.SplitJoin | front-end/src/data/services/summary/generate-transcript.ts:115 | split after join gives back separator-free parts |
| Strings.JoinSplit | front-end/src/data/services/summary/generate-transcript.ts:29 | join after split gives back the string |
| Strings.JoinSplitStep | front-end/src/data/services/summary/generate-transcript.ts:29 | one step of the round trip: the text before the first separator, then the rejoined rest |
| Strings.JoinCons | front-end/src/data/services/summary/generate-transcript.ts:115 | joining a part in front of a non-empty list puts the separator between them |
| Strings.SplitAtFirst | front-end/src/data/services/summary/generate-transcript.ts:29 | splitting gives the text before the first separator, then the split of the rest |
| Strings.SplitAround | front-end/src/data/services/summary/generate-transcript.ts:29 | a string is the text before an index, the character there and the text after |
| Strings.NotContainsChar | front-end/src/middleware.ts:17 | a string without a character does not include it |
| Zod.Failed | front-end/src/data/validation/summary.ts:4-6 | no message iff every check holds; every message is a failing check's, and every failing check's message is present; the order and count are stated by `FailedAppend` and `FailedSingle` |
| Zod.FailedAppend | front-end/src/data/validation/summary.ts:4-5 | the checks of a chain report in declaration order: the messages of the first part, then those of the rest |
| Zod.FailedAppendStep | front-end/src/data/validation/summary.ts:4-5 | the inductive step of `FailedAppend` |
| Zod.FailedUnfold | front-end/src/data/validation/summary.ts:4-5 | the first check's message, if it fails, comes before the others |
| Zod.FailedSingle | front-end/src/data/validation/summary.ts:4 | one check reports its message exactly once when it fails, and nothing when it holds |
| Zod.FailedTwo | front-end/src/data/validation/summary.ts:4-5 | two checks report their messages in declaration order, each at most once |
| Zod.FailedThree | front-end/src/data/validation/auth.ts:11-13 | three checks report their messages in declaration order, each at most once |
| Zod.LengthIssues | front-end/src/data/validation/summary.ts:4-5 | no issue iff a string within bounds; the type message for a non-string; for a string exactly the minimum message if too short followed by the maximum message if too long |
| Zod.MinIssues | front-end/src/data/validation/summary.ts:6 | no issue iff a string long enough; the type or the minimum message otherwise |
| Zod.FieldErrors | front-end/src/data/actions/summary.ts:40-46 | `fieldErrors` has exactly the fields with issues, each with its list |
| Zod.FieldErrorsEmpty | front-end/src/data/actions/summary.ts:38-46 | the error map is empty iff no field has an issue |
| Zod.FieldErrorsSingle | front-end/src/data/actions/summary.ts:40-46 | when exactly one field has issues, the errors hold that field alone |
| Zod.FieldErrorsOfTwo | front-end/src/data/actions/summary.ts:40-46 | for two distinct fields: a field is reported iff it has issues, with its messages, and no other key appears |
| Zod.FieldErrorsOfThree | front-end/src/data/actions/summary.ts:40-46 | the same for three distinct fields |
| Zod.FieldErrorsOfFour | front-end/src/data/actions/summary.ts:40-46 | the same for four distinct fields |
| Zod.FieldErrorsAllThree | front-end/src/data/actions/summary.ts:40-46 | when each of three fields has issues, all three are reported with their messages |
| FormData.ToValue | front-end/src/data/actions/summary.ts:33 | a submitted value is a string or a file |
| FormData.LastIndex | front-end/src/data/actions/summary.ts:33 | the index of the last entry with the name, none iff there is none |
| FormData.FromEntries | front-end/src/data/actions/summary.ts:33 | the keys are exactly the submitted names, each holding the value of its last entry |
| FormData.FromEntriesLastWins | front-end/src/data/actions/profile.ts:13 | a key is present iff some entry has the name, and then holds the value of an entry with no later namesake |
| FormData.Get | front-end/src/data/actions/auth.ts:12-17 | the first entry's value, null iff the name is absent |
| FormData.Field | front-end/src/data/actions/summary.ts:36 | a missing key reads as undefined |
| FormData.Merge | front-end/src/data/actions/summary.ts:47-50 | the keys of both; the fields win over the previous data |
| SummaryValidation.ParseSummaryUpdate | front-end/src/data/validation/summary.ts:3-7 | valid iff title 1..200, content 10..50000 and a non-empty id; the data are those strings; each field's messages |
| SummaryValidation.ParseSummaryDelete | front-end/src/data/validation/summary.ts:33-35 | valid iff the id is a non-empty string; otherwise its one message |
| SummaryValidation.EmptyUpdateForm | front-end/src/data/validation/summary.ts:3-7 | an empty form reports the type message for all three fields |
| SummaryValidation.DeleteIgnoresOtherFields | front-end/src/data/validation/summary.ts:33-35 | fields other than the id do not affect delete validation |
| ProfileValidation.ParseProfile | front-end/src/data/validation/profile.ts:3-16 | valid iff both names 1..50 and bio 10..500; data and per-field messages |
| ProfileValidation.ImageIssues | front-end/src/data/validation/profile.ts:42-49 | no issue iff a non-empty file of at most 5000000 bytes and an allowed type; the not-a-file message alone for a non-file; for a file exactly the failed refinements' messages, in declaration order |
| ProfileValidation.ParseProfileImage | front-end/src/data/validation/profile.ts:41-50 | valid iff the image has no issue; its messages otherwise |
| ProfileValidation.LargestImageAccepted | front-end/src/data/validation/profile.ts:45 | exactly 5000000 bytes is accepted |
| ProfileValidation.EmptyGifReportsBoth | front-end/src/data/validation/profile.ts:44-48 | an empty GIF reports the missing-file and the type message, in that order |
| AuthValidation.ParseSignin | front-end/src/data/validation/auth.ts:4-7 | valid iff identifier of at least 3 and password of 6..100 characters; when invalid, the errors are exactly the flattened identifier issues (type or min-3 message) and password issues (type, or the min-6 and max-100 messages that fail) |
| AuthValidation.FiveCharacterPasswordRefused | front-end/src/data/validation/auth.ts:6 | a five-character password fails with the message that speaks of four |
| AuthValidation.UsernameIssues | front-end/src/data/validation/auth.ts:10-13 | no issue iff 3..30 characters matching `^[a-zA-Z][a-zA-Z0-9_]*$`; the type message for a non-string; for a string exactly the too-short, too-long and pattern messages of the failing checks, in that order |
| AuthValidation.EmailIssues | front-end/src/data/validation/auth.ts:15 | no issue iff a string passing the format check; otherwise only the custom message |
| AuthValidation.ConfirmIssues | front-end/src/data/validation/auth.ts:18-22 | the type message alone for a non-string; for a string exactly its too-short and too-long messages, then the mismatch message iff the refinement runs and fails |
| AuthValidation.SignupIssues | front-end/src/data/validation/auth.ts:9-22 | the four fields in schema order with their issues |
| AuthValidation.SignupIssuesEmpty | front-end/src/data/validation/auth.ts:9-22 | no issue iff every field is valid and the passwords agree |
| AuthValidation.ParseSignup | front-end/src/data/validation/auth.ts:9-22 | valid iff all fields valid and the passwords equal; errors only on the four keys; the mismatch on `confirmPassword` |
| AuthValidation.MismatchOnConfirmPath | front-end/src/data/validation/auth.ts:19-22 | otherwise valid fields with different passwords give only the mismatch on `confirmPassword` |
| SummaryActions.UpdateSummaryAction | front-end/src/data/actions/summary.ts:28-106 | data is always previous merged with fields; validation, service-error, thrown and success states with their messages; the service gets the id and title/content; two revalidations only on success |
| SummaryActions.UpdateCallIsValidated | front-end/src/data/actions/summary.ts:36-62 | the service is called only with fields that passed the schema, and with those values |
| SummaryActions.DeleteSummaryAction | front-end/src/data/actions/summary.ts:112-176 | validation, service-error and thrown states with their messages; redirect to the list iff the deletion succeeded, after revalidating it |
| AuthActions.SignupFields | front-end/src/data/actions/auth.ts:12-17 | exactly the four keys, each read with `formData.get` |
| AuthActions.RegisterUserAction | front-end/src/data/actions/auth.ts:9-56 | success iff the sign-up schema passes; the validation-failure state with field errors, or the success state |
| AuthActions.RegisterKeepsFields | front-end/src/data/actions/auth.ts:30-51 | in both cases the data is the previous data merged with the submitted fields |
| ProfileActions.UpdateProfileAction | front-end/src/data/actions/profile.ts:9-73 | never `success: true`; validation failure without a call; a service throw escapes; service error and success states with their messages |
| ProfileActions.ServiceGetsValidProfile | front-end/src/data/actions/profile.ts:16-43 | the service only receives names of 1..50 and a bio of 10..500 characters |

## Left out

- Network and platform I/O are parameters of the model: `fetch`, Strapi's document service,
  `safeRequireAuthUser`, `getUserMeAction`, the Innertube client, the summary generator, and the
  profile and summary services.
- The `apiWithTimeout` timer, `AbortController` and `clearTimeout` are out. An abort is one
  outcome of `fetch`.
- Logging (`console.*`, `strapi.log`) has no effect on the results and is not modelled.
- The debounce around `handleSearch` is not modelled. The model is one call of the callback.
- Rendering (JSX, class names, `cn`, `twMerge`) is not modelled. The view models only what is
  rendered and where it links.
- Concurrency is not modelled. `on-summary-create` reads credits from a snapshot and writes them
  back later, so two concurrent requests can both pass. `OnSummaryCreate.CreditsStayNonNegative`
  assumes the store agrees with the snapshot.
- Zod's e-mail format check is a parameter `isEmail`, because Zod's own pattern is not part of
  this model.
- Zod's `fieldErrors` is modelled only for the fields the schemas declare. Unknown keys are
  stripped from the validated data.
- `Js.Number`: parses optional-sign decimal integers only. Fractions, exponents, hexadecimal,
  `Infinity` and surrounding whitespace are not modelled and give NaN. So `?page=Infinity`
  reads as page 1 in `Pagination.CurrentPage`, where the source's current page is Infinity.
- The model has no numeric width. JavaScript numbers are unbounded integers here, so credits,
  sizes and page numbers never round.
- A Dafny `char` is one Unicode scalar value, the unit `SearchParams.Utf8` encodes. JavaScript
  strings count UTF-16 code units. For a character above U+FFFF, Zod's `.min`/`.max` and
  `.length` count two units where the model counts one `char`, and spreading a string splits
  it into two surrogate halves where `Js.Spread` keeps one character.
- `DataApi.CaughtEnvelope`: the thrown values are Errors or values with a string form. A
  thrown `null` or `undefined`, on which `(error as Error).name` itself throws out of the
  catch block, is not among the modelled `fetch` outcomes, because `fetch` and
  `response.json()` reject with Error objects.
- `ErrorTranslate.TranslateContext.Handle`: Koa's `ctx.status` setter asserts a known HTTP
  status code and throws otherwise. The model assigns any `err.status`, because Koa is not
  part of this model.
- `is-owner` compares the entry's `userId` with the caller's id by structural equality. That
  is `!==` for the string ids Strapi uses.
- `generateTranscript`: the dynamic import of `youtubei.js` and the two `Innertube.create` calls
  are one `createFailure` parameter.
- The generator of `/api/summarize` gets the transcript and the fixed English template. The
  unused Korean template and `maxDuration` are not modelled.
- `cn` in `front-end/src/lib/utils.ts` only merges class names and is not modelled.

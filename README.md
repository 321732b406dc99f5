# UID2 operator verticle — request decision layer

This project models the decision and collection logic of the UID2 operator's
HTTP verticle (`UIDOperatorVerticle`). That logic sits between the HTTP
plumbing and the identity services, and it covers:

- **key listing**: a client with a valid site id gets the active encryption keys that its key ACL admits, in key-store order. Each key is emitted as a JSON object carrying its fields. Any other client gets 401 `invalid_client`.
- **identifier selection**: a non-empty `email` query parameter takes precedence over `email_hash`. A batch body's `email` array takes precedence over its `email_hash` array. Each element is normalised with the matching normaliser.
- **identity mapping**: one identifier is mapped, or a batch is mapped as an order-preserving filter. The filter keeps valid inputs, drops null and invalid ones, and echoes each caller's original string. The versioned endpoints add `bucket_id` and the deprecated one does not.
- **token refresh**: the identity service's refresh result (refreshed, invalid token, opt-out or deprecated) is turned into a response. Two variants are modelled: the synchronous `/v1/token/refresh-back` and the callback-based `/v1/token/refresh`.
- **token validation**: `/v1/token/validate` answers `true` only for the fixed validation identity with a matching token.

The collaborators whose code is not part of this model are parameters of the functions and methods:

| collaborator | parameter |
|---|---|
| `ClientKey.hasValidSiteId` | `SiteIdCheck` |
| the key ACL snapshot's `canClientAccessKey` | `Acl` |
| `InputUtil.NormalizeEmail` / `NormalizeHash` | `Normalizer` |
| `idService.map` | `MapService` |
| `idService.refreshIdentity` / `refreshIdentityAsync` | `SyncRefresh` / `AsyncRefresh` |
| `idService.doesMatch` | `MatchCheck` |

For the normalisers, `None` is a null result, which the handlers treat as a missing input. For `MapService`, `SyncRefresh` and `MatchCheck`, `None` is an exception thrown by the service; there the handlers' catch branches decide the response, and the model gives them. The asynchronous refresh distinguishes a failed future (`Failed`) from an exception thrown before the callback is registered (`Threw`).

Modules, one per concern: `Wrappers` (Option), `Seqs` (order-preserving filter, the positions it keeps, map), `Json` (JSON values and the response envelopes), `Types` (keys, clients, inputs, tokens, refresh results), `KeyListing`, `TokenInput`, `IdentityMapping`, `TokenRefresh`, `TokenValidate`.

Responses: `Success` is `ResponseUtil.Success` (200, status `success`); `SuccessNoBody(s)` is 200 with status `s` (the 200 is assumed); `Error(s, c)` is `ResponseUtil.Error`; `ClientError(m)` is `ResponseUtil.ClientError` (status `client_error`, 400); `RawJson` is `sendJsonResponse` (no envelope); `Fail(c)` is `rc.fail(c)`. `ResponseUtil` is not part of this model: the 200 of a success is the one the tests observe, and the 400 of a client error is assumed for the `client_error` status.

The two refresh handlers differ in two ways. On a deprecated result, `/v1/token/refresh-back` answers 500 `unknown` (UIDOperatorVerticle.java:258-261) and `/v1/token/refresh` answers `optout` (UIDOperatorVerticle.java:224-225). On a service failure, the first answers a bare 500 (UIDOperatorVerticle.java:266-268) and the second the 500 `unknown` envelope (UIDOperatorVerticle.java:232-233). `TokenRefresh.SyncAsyncDifferOnlyOnDeprecated` states that the two decision tables differ only on a deprecated result. `TokenRefresh.RefreshHandlersDiffer` states that the two handlers differ only in these two ways.

## Model

| member | source | states |
|---|---|---|
| `Types.EpochSecond` | src/main/java/com/uid2/operator/vertx/UIDOperatorVerticle.java:612-614 | the epoch second of an instant is the whole second at or before it: `s*10^9 <= nanos < (s+1)*10^9` |
| `Types.TruncatedToSeconds` | src/test/java/com/uid2/operator/UIDOperatorVerticleTest.java:139-141 | truncation to seconds gives a whole-second instant not after the original and less than one second before it |
| `KeyListing.KeyJsonRoundTrip` | src/main/java/com/uid2/operator/vertx/UIDOperatorVerticle.java:610-617 | reading an emitted key object back gives the key's id, secret and site_id unchanged and its created/activates/expires truncated to whole seconds |
| `KeyListing.KeysToJson` | src/main/java/com/uid2/operator/vertx/UIDOperatorVerticle.java:602-620 | the loop emits exactly the key objects of the ACL-admitted keys, in snapshot order |
| `KeyListing.HandleKeysRequestCommon` | src/main/java/com/uid2/operator/vertx/UIDOperatorVerticle.java:165-176 | an invalid site id gives 401 `invalid_client`; otherwise the success handler receives the key list |
| `KeyListing.HandleKeysRequestV1` | src/main/java/com/uid2/operator/vertx/UIDOperatorVerticle.java:178-185 | `/v1/key/latest`: 401 `invalid_client` for an invalid site id, else the key list in a success envelope |
| `KeyListing.HandleKeysRequest` | src/main/java/com/uid2/operator/vertx/UIDOperatorVerticle.java:187-194 | `/key/latest`: 401 `invalid_client` for an invalid site id, else the key list as a bare JSON array |
| `KeyListing.KeyListIsAdmittedSubsequence` | src/main/java/com/uid2/operator/vertx/UIDOperatorVerticle.java:602-618 | entry j of the key list is key `pos[j]`; the positions strictly increase; a key is listed if and only if the ACL admits it, so nothing is reordered, duplicated, invented or dropped |
| `KeyListing.PermissiveAclListsEveryKey` | src/test/java/com/uid2/operator/UIDOperatorVerticleTest.java:165-180 | an ACL admitting every key lists every active key, in order |
| `KeyListing.InvalidSiteIsRejected` | src/main/java/com/uid2/operator/vertx/UIDOperatorVerticle.java:166-171 | for an invalid site id the response does not depend on the key snapshot or the ACL, is 401 with status `invalid_client`, and is never an empty success list |
| `TokenInput.GetTokenInput` | src/main/java/com/uid2/operator/vertx/UIDOperatorVerticle.java:482-496 | with neither `email` nor `email_hash` present, the input is null |
| `TokenInput.EmailTakesPrecedence` | src/main/java/com/uid2/operator/vertx/UIDOperatorVerticle.java:484-487 | a non-empty `email` is normalised as an email, and `email_hash` has no influence whatever it holds |
| `TokenInput.HashWithoutEmail` | src/main/java/com/uid2/operator/vertx/UIDOperatorVerticle.java:488-490 | without `email`, a non-empty `email_hash` is normalised as a hash |
| `TokenInput.InputList` | src/main/java/com/uid2/operator/vertx/UIDOperatorVerticle.java:576-591 | a missing array gives an empty list; otherwise the list has the array's length, and element i is the hash or email normalisation of element i, chosen by the flag |
| `TokenInput.CreateInputList` | src/main/java/com/uid2/operator/vertx/UIDOperatorVerticle.java:576-591 | fills a fresh array whose contents are `InputList` |
| `TokenInput.BatchInputsFollowSource` | src/main/java/com/uid2/operator/vertx/UIDOperatorVerticle.java:503-513 | a non-empty `email` array is normalised element-wise as emails; otherwise `email_hash` is normalised element-wise as hashes; with neither, the batch is empty |
| `IdentityMapping.EntryJson` | src/main/java/com/uid2/operator/vertx/UIDOperatorVerticle.java:521-524 | a mapped entry echoes the provided identifier and the advertising id; it has `bucket_id` if and only if the versioned form is asked for |
| `IdentityMapping.MapInputs` | src/main/java/com/uid2/operator/vertx/UIDOperatorVerticle.java:515-527 | the batch loop computes `Mapped` of the input array |
| `IdentityMapping.MappedAbsorbsFailure` | src/main/java/com/uid2/operator/vertx/UIDOperatorVerticle.java:517-533 | once a prefix of the batch has failed, the whole batch fails |
| `IdentityMapping.MappedFailsIffServiceFails` | src/main/java/com/uid2/operator/vertx/UIDOperatorVerticle.java:517-534 | a batch fails exactly when the mapping service throws on one of its valid inputs; null or invalid inputs never abort it |
| `IdentityMapping.MappedIsValidInputsInOrder` | src/main/java/com/uid2/operator/vertx/UIDOperatorVerticle.java:515-527 | a successful batch has one entry per valid input, in input order; an input is kept if and only if it is non-null and valid; each entry echoes that input's provided string and its mapped ids |
| `IdentityMapping.MappedIsFilter` | src/main/java/com/uid2/operator/vertx/UIDOperatorVerticle.java:515-527 | a successful batch is the entry of each element of the filtered valid inputs, in order |
| `IdentityMapping.LegacyBatchOmitsBucket` | src/main/java/com/uid2/operator/vertx/UIDOperatorVerticle.java:554-565 | the deprecated batch fails on the same batches as the versioned one; otherwise it has the same entries minus `bucket_id` |
| `IdentityMapping.HandleIdentityMapBatchV1` | src/main/java/com/uid2/operator/vertx/UIDOperatorVerticle.java:499-536 | POST `/v1/identity/map`: a missing body or a mapping failure gives 500 `unknown`; otherwise success with `mapped` |
| `IdentityMapping.HandleIdentityMapBatch` | src/main/java/com/uid2/operator/vertx/UIDOperatorVerticle.java:538-574 | POST `/identity/map`: a missing body or a mapping failure gives a bare 500; otherwise a bare `mapped` object without bucket ids |
| `IdentityMapping.MapV1` | src/main/java/com/uid2/operator/vertx/UIDOperatorVerticle.java:451-468 | a client error exactly when the identifier is missing, null or invalid; 500 `unknown` exactly when it is valid and the service throws; success exactly when it is valid and the service maps it, with the provided identifier, the advertising id and the bucket id |
| `IdentityMapping.SingleAgreesWithBatch` | src/main/java/com/uid2/operator/vertx/UIDOperatorVerticle.java:459-464 | a successfully mapped email gives the same entry through the single endpoint and through a one-element batch |
| `IdentityMapping.EmptyBodyMapsNothing` | src/main/java/com/uid2/operator/vertx/UIDOperatorVerticle.java:576-579 | a body with neither array is mapped successfully to an empty `mapped` array |
| `TokenRefresh.TokensJson` | src/main/java/com/uid2/operator/vertx/UIDOperatorVerticle.java:594-600 | reading the JSON token triple back gives the same three tokens |
| `TokenRefresh.SyncDecision` | src/main/java/com/uid2/operator/vertx/UIDOperatorVerticle.java:255-265 | each response of the synchronous table is given if and only if its flag condition holds: tokens if unauthorized or refreshed; `invalid_token` 400; `optout`; otherwise 500 `unknown` |
| `TokenRefresh.AsyncDecision` | src/main/java/com/uid2/operator/vertx/UIDOperatorVerticle.java:219-231 | as the synchronous table, except that opt-out or deprecated gives `optout`, and 500 `unknown` only when no flag is set |
| `TokenRefresh.RefreshV1` | src/main/java/com/uid2/operator/vertx/UIDOperatorVerticle.java:244-270 | a client error exactly when `refresh_token` is missing; otherwise a returned result goes through the synchronous decision, and a service exception gives a bare 500 |
| `TokenRefresh.RefreshV1Async` | src/main/java/com/uid2/operator/vertx/UIDOperatorVerticle.java:209-242 | a client error exactly when `refresh_token` is missing; otherwise a succeeded callback goes through the asynchronous decision, a failed future gives 500 `unknown`, and an exception thrown by the call gives a bare 500 |
| `TokenRefresh.DecisionTable` | src/main/java/com/uid2/operator/vertx/UIDOperatorVerticle.java:221-228 | per outcome for an authorized caller: refreshed gives the tokens; invalid gives 400 `invalid_token`; opt-out gives `optout`; deprecated gives 500 `unknown` in the sync handler and `optout` in the async one |
| `TokenRefresh.SyncAsyncDifferOnlyOnDeprecated` | src/main/java/com/uid2/operator/vertx/UIDOperatorVerticle.java:258-261 | on a well-formed result, the two decision tables disagree if and only if the caller is authorized and the result is deprecated; the asynchronous table never answers "unknown state" |
| `TokenRefresh.RefreshHandlersDiffer` | src/main/java/com/uid2/operator/vertx/UIDOperatorVerticle.java:209-270 | given the same token and service behaviour, the sync and async handlers differ if and only if the service fails or an authorized caller's result is deprecated; a failure is a bare 500 in the first and 500 `unknown` in the second |
| `TokenRefresh.UnauthorizedAlwaysGetsTokens` | src/main/java/com/uid2/operator/vertx/UIDOperatorVerticle.java:255-265 | an unauthorized caller receives the result's tokens as a success, whatever the flags |
| `TokenValidate.ValidateV1` | src/main/java/com/uid2/operator/vertx/UIDOperatorVerticle.java:272-297 | a client error exactly when the identifier is missing, null or invalid; `true` if and only if the input is valid, equals the validation identity, a token is given and `doesMatch` returns true; every other answer is `false` |
| `TokenValidate.OtherIdentitiesNeverConsultService` | src/main/java/com/uid2/operator/vertx/UIDOperatorVerticle.java:279-291 | for any valid identity other than the validation identity, the answer is `false` whatever `doesMatch` would say |

## Left out

- Routing, CORS, body handling, request capture, static files, the health check, server start and port binding: HTTP plumbing.
- Token generation (`handleTokenGenerateV1`, `handleTokenGenerate`): not part of this model.
- The deprecated `handleTokenRefresh`, `handleValidate` and `handleIdentityMap`: not part of this model.
- Logout, opt-out lookup and modified buckets (`handleLogoutAsync`, `handleOptOutGet`, `handleBucketsV1`): store I/O, ISO-8601 parsing and date formatting.
- The identity service, the token encoder, the normalisers, `hasValidSiteId` and the key/ACL/salt/opt-out stores are not part of this model. Their results are parameters, and nothing is assumed about them, including what the reserved advertising-token site id is.
- `ValidationInput`: a SHA-256 of a fixed email, which is a parameter here. SHA-256 and Base64 are not computed. A key's secret is carried as its bytes, which the wire writes as Base64.
- The free-text message of `ResponseUtil.Error` responses is not modelled; the messages of client errors are.
- The order of fields in JSON objects is not modelled: objects are maps.
- Exceptions thrown by `InputUtil.NormalizeEmail` / `NormalizeHash` are not modelled; a normaliser result is a value or null. Inside `createInputList` such an exception would abort a batch (500 `unknown` in the versioned handler, a bare 500 in the deprecated one). In `handleIdentityMapV1` it would escape the handler, because `getTokenInput` runs before the `try`. In `handleTokenValidateV1` it would give a bare 500.
- Exceptions from a handler's own JSON handling are not modelled. Examples: a batch array element that is not a string, or an `email` field that is not an array. Their effect on the keys and validate handlers (`rc.fail(500)`) is not modelled either. A body that is not a JSON object is modelled.
- Asynchronous callback scheduling: the callback's result is an input value.
- Java's 32-bit and 64-bit integer widths: key ids, site ids and epoch seconds are unbounded integers.

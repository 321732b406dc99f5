/**
 * The token refresh endpoints: `/v1/token/refresh-back`, which waits for
 * the identity service, and `/v1/token/refresh`, which receives its result
 * in a callback. Both turn the service's refresh result into a response.
 */
module TokenRefresh {
  import opened Wrappers
  import opened Types
  import opened Json
  import opened TokenInput

  /** `toJsonV1(IdentityTokens)`: the token triple as a JSON object. */
  function TokensJson(t: IdentityTokens): (o: Json)
    ensures ReadTokens(o) == Some(t)
  {
    JObject(map[
      "advertising_token" := JStr(t.advertisingToken),
      "user_token" := JStr(t.userToken),
      "refresh_token" := JStr(t.refreshToken)])
  }

  /** Reads a token triple back from its JSON object. */
  function ReadTokens(o: Json): Option<IdentityTokens>
  {
    match (GetString(o, "advertising_token"), GetString(o, "user_token"), GetString(o, "refresh_token"))
    case (Some(a), Some(u), Some(r)) => Some(IdentityTokens(a, u, r))
    case _ => None
  }

  /**
   * The outcome of an asynchronous service call as its callback sees it:
   * a result, a failed future, or an exception thrown before the call
   * could register the callback.
   */
  datatype AsyncCall<T> = Succeeded(result: T) | Failed | Threw

  /** `idService.refreshIdentity`; `None` stands for an exception. */
  type SyncRefresh = string -> Option<RefreshResponse>

  /** `idService.refreshIdentityAsync`, observed through its callback. */
  type AsyncRefresh = string -> AsyncCall<RefreshResponse>

  /** The decision of `handleTokenRefreshV1` for a refresh result. */
  function SyncDecision(r: RefreshResponse, isAuthorized: bool): (resp: Response)
    ensures resp == Success(TokensJson(r.tokens)) <==> !isAuthorized || r.isRefreshed
    ensures resp == Error("invalid_token", 400) <==> isAuthorized && !r.isRefreshed && r.isInvalidToken
    ensures resp == SuccessNoBody("optout") <==> isAuthorized && !r.isRefreshed && !r.isInvalidToken && r.isOptOut
    ensures resp == Error("unknown", 500) <==> isAuthorized && !r.isRefreshed && !r.isInvalidToken && !r.isOptOut
  {
    if isAuthorized && !r.isRefreshed then
      if r.isInvalidToken then Error("invalid_token", 400)
      else if r.isOptOut then SuccessNoBody("optout")
      else Error("unknown", 500)
    else Success(TokensJson(r.tokens))
  }

  /** The decision of `handleTokenRefreshV1Async` for a refresh result. */
  function AsyncDecision(r: RefreshResponse, isAuthorized: bool): (resp: Response)
    ensures resp == Success(TokensJson(r.tokens)) <==> !isAuthorized || r.isRefreshed
    ensures resp == Error("invalid_token", 400) <==> isAuthorized && !r.isRefreshed && r.isInvalidToken
    ensures resp == SuccessNoBody("optout") <==>
      isAuthorized && !r.isRefreshed && !r.isInvalidToken && (r.isOptOut || r.isDeprecated)
    ensures resp == Error("unknown", 500) <==>
      isAuthorized && !r.isRefreshed && !r.isInvalidToken && !r.isOptOut && !r.isDeprecated
  {
    if isAuthorized && !r.isRefreshed then
      if r.isInvalidToken then Error("invalid_token", 400)
      else if r.isOptOut || r.isDeprecated then SuccessNoBody("optout")
      else Error("unknown", 500)
    else Success(TokensJson(r.tokens))
  }

  /**
   * `/v1/token/refresh-back`: a missing `refresh_token` is a client error;
   * otherwise the first value goes to the service, an exception gives a
   * bare 500, and a result is decided by `SyncDecision`.
   */
  function RefreshV1(q: Query, isAuthorized: bool, refresh: SyncRefresh): (resp: Response)
    ensures !HasParam(q, "refresh_token") <==> resp == ClientError("Required Parameter Missing: refresh_token")
    ensures HasParam(q, "refresh_token") && refresh(Param(q, "refresh_token")[0]).Some? ==>
      resp == SyncDecision(refresh(Param(q, "refresh_token")[0]).value, isAuthorized)
    ensures HasParam(q, "refresh_token") && refresh(Param(q, "refresh_token")[0]).None? ==> resp == Fail(500)
  {
    if !HasParam(q, "refresh_token") then ClientError("Required Parameter Missing: refresh_token")
    else
      match refresh(Param(q, "refresh_token")[0])
      case None => Fail(500)
      case Some(r) => SyncDecision(r, isAuthorized)
  }

  /**
   * `/v1/token/refresh`: as the synchronous handler, except that a failed
   * future gives 500 `unknown` and the result is decided by `AsyncDecision`.
   */
  function RefreshV1Async(q: Query, isAuthorized: bool, refresh: AsyncRefresh): (resp: Response)
    ensures !HasParam(q, "refresh_token") <==> resp == ClientError("Required Parameter Missing: refresh_token")
    ensures HasParam(q, "refresh_token") && refresh(Param(q, "refresh_token")[0]).Succeeded? ==>
      resp == AsyncDecision(refresh(Param(q, "refresh_token")[0]).result, isAuthorized)
    ensures HasParam(q, "refresh_token") && refresh(Param(q, "refresh_token")[0]).Failed? ==>
      resp == Error("unknown", 500)
    ensures HasParam(q, "refresh_token") && refresh(Param(q, "refresh_token")[0]).Threw? ==> resp == Fail(500)
  {
    if !HasParam(q, "refresh_token") then ClientError("Required Parameter Missing: refresh_token")
    else
      match refresh(Param(q, "refresh_token")[0])
      case Threw => Fail(500)
      case Failed => Error("unknown", 500)
      case Succeeded(r) => AsyncDecision(r, isAuthorized)
  }

  /** The four refresh outcomes of the identity service, as a closed variant. */
  datatype RefreshOutcome = Refreshed(tokens: IdentityTokens) | InvalidToken | OptedOut | Deprecated

  /** A refresh result whose flags name exactly one outcome. */
  predicate WellFormed(r: RefreshResponse)
  {
    (if r.isRefreshed then 1 else 0) + (if r.isInvalidToken then 1 else 0)
      + (if r.isOptOut then 1 else 0) + (if r.isDeprecated then 1 else 0) == 1
  }

  function Outcome(r: RefreshResponse): RefreshOutcome
    requires WellFormed(r)
  {
    if r.isRefreshed then Refreshed(r.tokens)
    else if r.isInvalidToken then InvalidToken
    else if r.isOptOut then OptedOut
    else Deprecated
  }

  /**
   * For an authorized caller and a well-formed result, the decision table
   * by outcome: refreshed gives the tokens, an invalid token 400
   * `invalid_token`, opt-out `optout` in both handlers, and deprecated
   * `optout` in the asynchronous handler but 500 `unknown` in the
   * synchronous one.
   */
  lemma DecisionTable(r: RefreshResponse)
    requires WellFormed(r)
    ensures Outcome(r).Refreshed? ==>
      SyncDecision(r, true) == AsyncDecision(r, true) == Success(TokensJson(Outcome(r).tokens))
    ensures Outcome(r) == InvalidToken ==>
      SyncDecision(r, true) == AsyncDecision(r, true) == Error("invalid_token", 400)
    ensures Outcome(r) == OptedOut ==>
      SyncDecision(r, true) == AsyncDecision(r, true) == SuccessNoBody("optout")
    ensures Outcome(r) == Deprecated ==>
      SyncDecision(r, true) == Error("unknown", 500) && AsyncDecision(r, true) == SuccessNoBody("optout")
  {
  }

  /**
   * The two handlers disagree on a well-formed result only when it is
   * deprecated, and the asynchronous one never answers "unknown state".
   */
  lemma SyncAsyncDifferOnlyOnDeprecated(r: RefreshResponse, isAuthorized: bool)
    requires WellFormed(r)
    ensures SyncDecision(r, isAuthorized) != AsyncDecision(r, isAuthorized) <==>
      isAuthorized && Outcome(r) == Deprecated
    ensures AsyncDecision(r, isAuthorized) != Error("unknown", 500)
  {
  }

  /**
   * The two handlers, given the same refresh token and service behaviour
   * (a result, or a failure), differ in exactly two ways: on an authorized
   * caller's deprecated result, and on a service failure, which the
   * synchronous handler answers with a bare 500 and the asynchronous one
   * with the 500 `unknown` envelope.
   */
  lemma RefreshHandlersDiffer(q: Query, isAuthorized: bool, refresh: SyncRefresh, asyncRefresh: AsyncRefresh)
    requires HasParam(q, "refresh_token")
    requires var t := Param(q, "refresh_token")[0];
      (refresh(t).Some? && asyncRefresh(t) == Succeeded(refresh(t).value))
      || (refresh(t).None? && asyncRefresh(t) == Failed)
    requires var t := Param(q, "refresh_token")[0]; refresh(t).Some? ==> WellFormed(refresh(t).value)
    ensures var t := Param(q, "refresh_token")[0];
      RefreshV1(q, isAuthorized, refresh) != RefreshV1Async(q, isAuthorized, asyncRefresh) <==>
        refresh(t).None? || (isAuthorized && Outcome(refresh(t).value) == Deprecated)
    ensures var t := Param(q, "refresh_token")[0];
      refresh(t).None? ==>
        RefreshV1(q, isAuthorized, refresh) == Fail(500) &&
        RefreshV1Async(q, isAuthorized, asyncRefresh) == Error("unknown", 500)
  {
    var t := Param(q, "refresh_token")[0];
    if refresh(t).Some? {
      SyncAsyncDifferOnlyOnDeprecated(refresh(t).value, isAuthorized);
    }
  }

  /**
   * A caller that is not authorized receives whatever tokens the result
   * carries, as a success, whatever its flags say.
   */
  lemma UnauthorizedAlwaysGetsTokens(q: Query, refresh: SyncRefresh, asyncRefresh: AsyncRefresh)
    requires HasParam(q, "refresh_token")
    ensures refresh(Param(q, "refresh_token")[0]).Some? ==>
      RefreshV1(q, false, refresh) == Success(TokensJson(refresh(Param(q, "refresh_token")[0]).value.tokens))
    ensures asyncRefresh(Param(q, "refresh_token")[0]).Succeeded? ==>
      RefreshV1Async(q, false, asyncRefresh) == Success(TokensJson(asyncRefresh(Param(q, "refresh_token")[0]).result.tokens))
  {
  }
}

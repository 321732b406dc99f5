/**
 * The debugging endpoint `/v1/token/validate`: it answers `true` only for
 * the fixed validation identity and a token that matches it.
 */
module TokenValidate {
  import opened Wrappers
  import opened Types
  import opened Json
  import opened TokenInput

  /**
   * `idService.doesMatch(token, identityInput)`, which the model leaves
   * uninterpreted; `None` stands for an exception.
   */
  type MatchCheck = (string, string) -> Option<bool>

  /** `true` exactly when the token parameter is present and the check says it matches. */
  predicate TokenMatches(q: Query, identity: string, doesMatch: MatchCheck)
  {
    HasParam(q, "token") && doesMatch(Param(q, "token")[0], identity) == Some(true)
  }

  /**
   * `handleTokenValidateV1`. `validationInput` is the hash of the fixed
   * validation email (`ValidationInput`, a SHA-256 this model does not
   * compute). A missing, null or invalid identifier is a client error.
   * For the validation identity, a missing `token` parameter or an
   * exception from `doesMatch` is answered `false`, as is any other
   * identity.
   */
  function ValidateV1(q: Query, n: Normalizer, validationInput: string, doesMatch: MatchCheck): (r: Response)
    ensures r == ClientError("Required Parameter Missing: email or email_hash") <==>
      GetTokenInput(q, n).None? || !GetTokenInput(q, n).value.valid
    ensures r == Success(JBool(true)) <==>
      GetTokenInput(q, n).Some? && GetTokenInput(q, n).value.valid &&
      GetTokenInput(q, n).value.identityInput == validationInput &&
      TokenMatches(q, validationInput, doesMatch)
    ensures r.ClientError? || r == Success(JBool(true)) || r == Success(JBool(false))
  {
    var input := GetTokenInput(q, n);
    if input.None? || !input.value.valid then ClientError("Required Parameter Missing: email or email_hash")
    else if validationInput == input.value.identityInput then
      if !HasParam(q, "token") then Success(JBool(false))
      else
        match doesMatch(Param(q, "token")[0], input.value.identityInput)
        case None => Success(JBool(false))
        case Some(b) => Success(JBool(b))
    else Success(JBool(false))
  }

  /**
   * Any identity other than the validation identity is answered `false`
   * without asking the identity service: the result is the same for
   * every `doesMatch`.
   */
  lemma OtherIdentitiesNeverConsultService(q: Query, n: Normalizer, validationInput: string,
                                           check1: MatchCheck, check2: MatchCheck)
    requires GetTokenInput(q, n).Some? && GetTokenInput(q, n).value.valid
    requires GetTokenInput(q, n).value.identityInput != validationInput
    ensures ValidateV1(q, n, validationInput, check1) == ValidateV1(q, n, validationInput, check2) == Success(JBool(false))
  {
  }
}

/**
 * The values the verticle reads from its collaborators: keys and client
 * identities from the stores, normalised identifier inputs, mapped
 * identities and refresh results from the identity service.
 */
module Types {

  const NanosPerSecond: int := 1_000_000_000

  /** A point on the UTC time line, as nanoseconds since the epoch. */
  datatype Instant = Instant(epochNanos: int)

  /**
   * `Instant.getEpochSecond`: the whole seconds since the epoch, rounded
   * toward negative infinity (the nanosecond adjustment is never negative).
   */
  function EpochSecond(t: Instant): (s: int)
    ensures s * NanosPerSecond <= t.epochNanos < (s + 1) * NanosPerSecond
  {
    t.epochNanos / NanosPerSecond
  }

  /** `Instant.ofEpochSecond`. */
  function OfEpochSecond(s: int): Instant
  {
    Instant(s * NanosPerSecond)
  }

  /** `Instant.truncatedTo(ChronoUnit.SECONDS)`: the latest whole second not after `t`. */
  function TruncatedToSeconds(t: Instant): (r: Instant)
    ensures r.epochNanos <= t.epochNanos < r.epochNanos + NanosPerSecond
    ensures r.epochNanos % NanosPerSecond == 0
  {
    OfEpochSecond(EpochSecond(t))
  }

  /** An encryption key from the key store's active key set. */
  datatype EncryptionKey = EncryptionKey(
    id: int,
    keyBytes: seq<bv8>,
    created: Instant,
    activates: Instant,
    expires: Instant,
    siteId: int)

  /** The authenticated caller, bound to one site. */
  datatype ClientKey = ClientKey(key: string, siteId: int)

  /**
   * `InputUtil.InputVal`: the normalised identity input, the string the
   * caller provided, and whether normalisation accepted it.
   */
  datatype InputVal = InputVal(identityInput: string, provided: string, valid: bool)

  /** `MappedIdentity`: the advertising id and the salt bucket it was derived in. */
  datatype MappedIdentity = MappedIdentity(advertisingId: string, bucketId: string)

  /** `IdentityTokens`: the advertising, user and refresh token triple. */
  datatype IdentityTokens = IdentityTokens(advertisingToken: string, userToken: string, refreshToken: string)

  /**
   * `RefreshResponse` as the verticle sees it: four status flags and the
   * token triple it carries.
   */
  datatype RefreshResponse = RefreshResponse(
    isRefreshed: bool,
    isInvalidToken: bool,
    isOptOut: bool,
    isDeprecated: bool,
    tokens: IdentityTokens)
}

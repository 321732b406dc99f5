/**
 * The key-listing endpoints `/v1/key/latest` and `/key/latest`: a client with
 * a valid site id receives the active keys its access-control list admits,
 * in key-store order, each as a JSON object carrying the key's fields.
 */
module KeyListing {
  import opened Wrappers
  import opened Types
  import opened Json
  import Seqs

  /** The key ACL snapshot's `canClientAccessKey`. */
  type Acl = (ClientKey, EncryptionKey) -> bool

  /** `ClientKey.hasValidSiteId`, which the model leaves uninterpreted. */
  type SiteIdCheck = ClientKey -> bool

  function Admits(acl: Acl, client: ClientKey): EncryptionKey -> bool
  {
    k => acl(client, k)
  }

  /** The fields of a key as a reader of a listed key object recovers them. */
  datatype KeyView = KeyView(
    id: int,
    secret: seq<bv8>,
    created: Instant,
    activates: Instant,
    expires: Instant,
    siteId: int)

  /**
   * Reads one listed key object back: the integer and binary fields, and the
   * three time fields interpreted as epoch seconds.
   */
  function ReadKey(o: Json): Option<KeyView>
  {
    match (GetInt(o, "id"), GetBinary(o, "secret"), GetInt(o, "created"),
           GetInt(o, "activates"), GetInt(o, "expires"), GetInt(o, "site_id"))
    case (Some(id), Some(secret), Some(c), Some(a), Some(e), Some(site)) =>
      Some(KeyView(id, secret, OfEpochSecond(c), OfEpochSecond(a), OfEpochSecond(e), site))
    case _ => None
  }

  /** The JSON object emitted for one key. */
  function KeyJson(k: EncryptionKey): Json
  {
    JObject(map[
      "id" := JInt(k.id),
      "created" := JInt(EpochSecond(k.created)),
      "activates" := JInt(EpochSecond(k.activates)),
      "expires" := JInt(EpochSecond(k.expires)),
      "secret" := JBinary(k.keyBytes),
      "site_id" := JInt(k.siteId)])
  }

  /**
   * Reading an emitted key object back gives the key's id, secret and site
   * id unchanged and its three instants truncated to whole seconds.
   */
  lemma KeyJsonRoundTrip(k: EncryptionKey)
    ensures ReadKey(KeyJson(k)) == Some(KeyView(k.id, k.keyBytes, TruncatedToSeconds(k.created),
                                                TruncatedToSeconds(k.activates), TruncatedToSeconds(k.expires), k.siteId))
  {
  }

  /** The key objects listed for `client`: the admitted keys, in snapshot order. */
  function KeyList(keys: seq<EncryptionKey>, client: ClientKey, acl: Acl): seq<Json>
  {
    Seqs.MapSeq(Seqs.Filter(keys, Admits(acl, client)), KeyJson)
  }

  /** `toJson(List<EncryptionKey>, ClientKey, IKeysAclSnapshot)`. */
  method KeysToJson(keys: seq<EncryptionKey>, client: ClientKey, acl: Acl) returns (a: seq<Json>)
    ensures a == KeyList(keys, client, acl)
  {
    a := [];
    var i := 0;
    while i < |keys|
      invariant 0 <= i <= |keys|
      invariant a == KeyList(keys[..i], client, acl)
    {
      KeyListStep(keys, i, client, acl);
      if acl(client, keys[i]) {
        a := a + [KeyJson(keys[i])];
      }
      i := i + 1;
    }
    assert keys[..|keys|] == keys;
  }

  /** Listing one more key extends the list by that key's object exactly when the ACL admits it. */
  lemma KeyListSnoc(keys: seq<EncryptionKey>, k: EncryptionKey, client: ClientKey, acl: Acl)
    ensures KeyList(keys + [k], client, acl)
         == if acl(client, k) then KeyList(keys, client, acl) + [KeyJson(k)] else KeyList(keys, client, acl)
  {
    var kept := Seqs.Filter(keys, Admits(acl, client));
    Seqs.FilterSnoc(keys, k, Admits(acl, client));
    if acl(client, k) {
      Seqs.MapSeqSnoc(kept, k, KeyJson);
    }
  }

  lemma KeyListStep(keys: seq<EncryptionKey>, i: nat, client: ClientKey, acl: Acl)
    requires i < |keys|
    ensures KeyList(keys[..i + 1], client, acl)
         == if acl(client, keys[i]) then KeyList(keys[..i], client, acl) + [KeyJson(keys[i])] else KeyList(keys[..i], client, acl)
  {
    assert keys[..i + 1] == keys[..i] + [keys[i]];
    KeyListSnoc(keys[..i], keys[i], client, acl);
  }

  /**
   * `handleKeysRequestCommon`, as the function the handler is proved
   * against: an invalid site id is answered with 401 `invalid_client`;
   * otherwise `onSuccess` receives the listed keys.
   */
  function KeysResponse(client: ClientKey, validSite: SiteIdCheck, keys: seq<EncryptionKey>, acl: Acl,
                        onSuccess: seq<Json> -> Response): Response
  {
    if !validSite(client) then Error("invalid_client", 401)
    else onSuccess(KeyList(keys, client, acl))
  }

  method HandleKeysRequestCommon(client: ClientKey, validSite: SiteIdCheck, keys: seq<EncryptionKey>, acl: Acl,
                                 onSuccess: seq<Json> -> Response) returns (r: Response)
    ensures r == KeysResponse(client, validSite, keys, acl, onSuccess)
  {
    if !validSite(client) {
      return Error("invalid_client", 401);
    }
    var a := KeysToJson(keys, client, acl);
    r := onSuccess(a);
  }

  /** `/v1/key/latest`: the listed keys inside a success envelope. */
  method HandleKeysRequestV1(client: ClientKey, validSite: SiteIdCheck, keys: seq<EncryptionKey>, acl: Acl)
    returns (r: Response)
    ensures !validSite(client) ==> r == Error("invalid_client", 401)
    ensures validSite(client) ==> r == Success(JArray(KeyList(keys, client, acl)))
  {
    r := HandleKeysRequestCommon(client, validSite, keys, acl, a => Success(JArray(a)));
  }

  /** `/key/latest`: the listed keys as a bare JSON array. */
  method HandleKeysRequest(client: ClientKey, validSite: SiteIdCheck, keys: seq<EncryptionKey>, acl: Acl)
    returns (r: Response)
    ensures !validSite(client) ==> r == Error("invalid_client", 401)
    ensures validSite(client) ==> r == RawJson(JArray(KeyList(keys, client, acl)))
  {
    r := HandleKeysRequestCommon(client, validSite, keys, acl, a => RawJson(JArray(a)));
  }

  /**
   * The key list is exactly the in-order subsequence of the snapshot that
   * the ACL admits: entry j is key `pos[j]`, the positions strictly
   * increase, and a key's position is listed if and only if the ACL admits it.
   */
  lemma KeyListIsAdmittedSubsequence(keys: seq<EncryptionKey>, client: ClientKey, acl: Acl)
    ensures var pos := Seqs.Positions(keys, Admits(acl, client));
      && |KeyList(keys, client, acl)| == |pos|
      && Seqs.StrictlyIncreasing(pos)
      && (forall j :: 0 <= j < |pos| ==> pos[j] < |keys| && KeyList(keys, client, acl)[j] == KeyJson(keys[pos[j]]))
      && (forall i :: 0 <= i < |keys| ==> (i in pos <==> acl(client, keys[i])))
  {
    Seqs.FilterPositions(keys, Admits(acl, client));
  }

  /** With an ACL that admits every key, every active key is listed, in order. */
  lemma {:induction false} PermissiveAclListsEveryKey(keys: seq<EncryptionKey>, client: ClientKey, acl: Acl)
    requires forall k :: acl(client, k)
    ensures KeyList(keys, client, acl) == Seqs.MapSeq(keys, KeyJson)
  {
    Seqs.FilterAll(keys, Admits(acl, client));
  }

  /**
   * A client whose site id is not valid gets 401 `invalid_client` whatever
   * the key snapshot and the ACL hold (they are not consulted): even an ACL
   * admitting every key yields the error and never an empty success list.
   */
  lemma InvalidSiteIsRejected(client: ClientKey, validSite: SiteIdCheck,
                              keys1: seq<EncryptionKey>, acl1: Acl, keys2: seq<EncryptionKey>, acl2: Acl,
                              onSuccess: seq<Json> -> Response)
    requires !validSite(client)
    ensures KeysResponse(client, validSite, keys1, acl1, onSuccess) == KeysResponse(client, validSite, keys2, acl2, onSuccess)
    ensures KeysResponse(client, validSite, keys1, acl1, onSuccess).StatusCode() == 401
    ensures KeysResponse(client, validSite, keys1, acl1, onSuccess).Status() == Some("invalid_client")
    ensures KeysResponse(client, validSite, keys1, acl1, onSuccess) != Success(JArray([]))
  {
  }
}

/**
 * Choosing and normalising the identifier a request carries: the `email`
 * or `email_hash` query parameter of the single-identifier endpoints
 * (`getTokenInput`) and the `email` or `email_hash` array of the batch
 * mapping body (`createInputList`).
 */
module TokenInput {
  import opened Wrappers
  import opened Types
  import Seqs

  /** Query parameters: every value given for each name, in order. */
  type Query = map<string, seq<string>>

  /** `rc.queryParam(name)`: the values given for `name`, none when absent. */
  function Param(q: Query, name: string): seq<string>
  {
    if name in q then q[name] else []
  }

  predicate HasParam(q: Query, name: string)
  {
    |Param(q, name)| > 0
  }

  /**
   * `InputUtil.NormalizeEmail` and `InputUtil.NormalizeHash`, which the
   * model leaves uninterpreted; `None` stands for a null result.
   */
  datatype Normalizer = Normalizer(email: string -> Option<InputVal>, hash: string -> Option<InputVal>)

  /**
   * `getTokenInput`: the first `email` value normalised as an email;
   * failing that, the first `email_hash` value normalised as a hash;
   * failing that, null.
   */
  function GetTokenInput(q: Query, n: Normalizer): (r: Option<InputVal>)
    ensures !HasParam(q, "email") && !HasParam(q, "email_hash") ==> r == None
  {
    if HasParam(q, "email") then n.email(Param(q, "email")[0])
    else if HasParam(q, "email_hash") then n.hash(Param(q, "email_hash")[0])
    else None
  }

  /** A non-empty `email` wins: whatever `email_hash` holds is ignored. */
  lemma EmailTakesPrecedence(q: Query, n: Normalizer, hashes: seq<string>)
    requires HasParam(q, "email")
    ensures GetTokenInput(q["email_hash" := hashes], n) == GetTokenInput(q, n)
    ensures GetTokenInput(q, n) == n.email(Param(q, "email")[0])
  {
    assert Param(q["email_hash" := hashes], "email") == Param(q, "email");
  }

  /** Without `email`, the first `email_hash` value is normalised as a hash. */
  lemma HashWithoutEmail(q: Query, n: Normalizer)
    requires !HasParam(q, "email") && HasParam(q, "email_hash")
    ensures GetTokenInput(q, n) == n.hash(Param(q, "email_hash")[0])
  {
  }

  /** The normaliser `createInputList` applies, chosen by its flag. */
  function NormalizerFor(n: Normalizer, inputAsHash: bool): string -> Option<InputVal>
  {
    if inputAsHash then n.hash else n.email
  }

  /**
   * The array `createInputList` returns: empty for a missing or empty JSON
   * array, otherwise element i normalised as a hash or as an email.
   */
  function InputList(a: Option<seq<string>>, inputAsHash: bool, n: Normalizer): (r: seq<Option<InputVal>>)
    ensures a.None? ==> r == []
    ensures a.Some? ==> |r| == |a.value|
    ensures a.Some? ==> forall i :: 0 <= i < |r| ==>
      r[i] == (if inputAsHash then n.hash(a.value[i]) else n.email(a.value[i]))
  {
    if a.None? || |a.value| == 0 then []
    else Seqs.MapSeq(a.value, NormalizerFor(n, inputAsHash))
  }

  /** `createInputList`: fills a fresh array, element by element. */
  method CreateInputList(a: Option<seq<string>>, inputAsHash: bool, n: Normalizer)
    returns (resp: array<Option<InputVal>>)
    ensures fresh(resp)
    ensures resp[..] == InputList(a, inputAsHash, n)
  {
    if a.None? || |a.value| == 0 {
      resp := new Option<InputVal>[0];
      return;
    }
    var size := |a.value|;
    resp := new Option<InputVal>[size];
    for i := 0 to size
      invariant forall j :: 0 <= j < i ==> resp[j] == NormalizerFor(n, inputAsHash)(a.value[j])
    {
      if inputAsHash {
        resp[i] := n.hash(a.value[i]);
      } else {
        resp[i] := n.email(a.value[i]);
      }
    }
  }

  /** The JSON body of a batch mapping request: its `email` and `email_hash` arrays, when present. */
  datatype BatchBody = BatchBody(email: Option<seq<string>>, emailHash: Option<seq<string>>)

  /**
   * The batch's source array and whether it holds hashes: the `email` array
   * when it is non-empty, otherwise the `email_hash` array.
   */
  function BatchSource(body: BatchBody): (Option<seq<string>>, bool)
  {
    if body.email.Some? && |body.email.value| > 0 then (body.email, false)
    else (body.emailHash, true)
  }

  /** The normalised batch: one entry per element of the source array. */
  function BatchInputs(body: BatchBody, n: Normalizer): seq<Option<InputVal>>
  {
    var (arr, asHash) := BatchSource(body);
    InputList(arr, asHash, n)
  }

  /**
   * A non-empty `email` array is normalised element by element as emails
   * (`email_hash` is then ignored); otherwise the `email_hash` array, if
   * any, is normalised as hashes; with neither the batch is empty.
   */
  lemma BatchInputsFollowSource(body: BatchBody, n: Normalizer)
    ensures body.email.Some? && |body.email.value| > 0 ==>
      |BatchInputs(body, n)| == |body.email.value| &&
      forall i :: 0 <= i < |body.email.value| ==> BatchInputs(body, n)[i] == n.email(body.email.value[i])
    ensures !(body.email.Some? && |body.email.value| > 0) && body.emailHash.Some? ==>
      |BatchInputs(body, n)| == |body.emailHash.value| &&
      forall i :: 0 <= i < |body.emailHash.value| ==> BatchInputs(body, n)[i] == n.hash(body.emailHash.value[i])
    ensures !(body.email.Some? && |body.email.value| > 0) && body.emailHash.None? ==> BatchInputs(body, n) == []
  {
  }
}

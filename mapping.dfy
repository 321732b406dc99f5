/**
 * Identity mapping: `/v1/identity/map` for one identifier, and the batch
 * endpoints POST `/v1/identity/map` and POST `/identity/map`, which keep
 * the valid inputs of a batch, in order, and drop the rest.
 */
module IdentityMapping {
  import opened Wrappers
  import opened Types
  import opened Json
  import opened TokenInput
  import Seqs

  /** `idService.map`, which the model leaves uninterpreted; `None` stands for an exception. */
  type MapService = string -> Option<MappedIdentity>

  /** The null and validity test of the batch loop. */
  predicate Mappable(x: Option<InputVal>)
  {
    x.Some? && x.value.valid
  }

  /**
   * One mapped entry: the caller's original identifier, the advertising id
   * and, in the versioned endpoints only, the bucket id.
   */
  function EntryJson(input: InputVal, m: MappedIdentity, withBucket: bool): (o: Json)
    ensures GetString(o, "identifier") == Some(input.provided)
    ensures GetString(o, "advertising_id") == Some(m.advertisingId)
    ensures GetString(o, "bucket_id") == if withBucket then Some(m.bucketId) else None
  {
    var o := map["identifier" := JStr(input.provided), "advertising_id" := JStr(m.advertisingId)];
    if withBucket then JObject(o["bucket_id" := JStr(m.bucketId)]) else JObject(o)
  }

  /**
   * The `mapped` array of a batch: each valid input mapped, in input order,
   * null or invalid inputs skipped; `None` when the mapping service fails
   * on a valid input, which abandons the whole batch.
   */
  function Mapped(inputs: seq<Option<InputVal>>, svc: MapService, withBucket: bool): Option<seq<Json>>
  {
    if |inputs| == 0 then Some([])
    else
      match Mapped(inputs[..|inputs| - 1], svc, withBucket)
      case None => None
      case Some(es) =>
        var x := inputs[|inputs| - 1];
        if !Mappable(x) then Some(es)
        else match svc(x.value.identityInput)
          case None => None
          case Some(m) => Some(es + [EntryJson(x.value, m, withBucket)])
  }

  /** The loop of `handleIdentityMapBatchV1` and `handleIdentityMapBatch` over the input array. */
  method MapInputs(inputList: array<Option<InputVal>>, svc: MapService, withBucket: bool)
    returns (mapped: Option<seq<Json>>)
    ensures mapped == Mapped(inputList[..], svc, withBucket)
  {
    var es: seq<Json> := [];
    var count := inputList.Length;
    for i := 0 to count
      invariant Mapped(inputList[..i], svc, withBucket) == Some(es)
    {
      assert inputList[..i + 1][..i] == inputList[..i];
      var input := inputList[i];
      if input.Some? && input.value.valid {
        var m := svc(input.value.identityInput);
        if m.None? {
          MappedAbsorbsFailure(inputList[..], i + 1, svc, withBucket);
          return None;
        }
        es := es + [EntryJson(input.value, m.value, withBucket)];
      }
    }
    assert inputList[..count] == inputList[..];
    mapped := Some(es);
  }

  /** Once a prefix of the batch fails, the whole batch fails. */
  lemma {:induction false} MappedAbsorbsFailure(inputs: seq<Option<InputVal>>, k: nat, svc: MapService, withBucket: bool)
    requires k <= |inputs|
    requires Mapped(inputs[..k], svc, withBucket) == None
    ensures Mapped(inputs, svc, withBucket) == None
    decreases |inputs| - k
  {
    if k < |inputs| {
      assert inputs[..k + 1][..k] == inputs[..k];
      MappedAbsorbsFailure(inputs, k + 1, svc, withBucket);
    } else {
      assert inputs[..k] == inputs;
    }
  }

  /**
   * A batch fails exactly when the mapping service fails on one of its
   * valid inputs; null and invalid inputs never abort it.
   */
  lemma {:induction false} MappedFailsIffServiceFails(inputs: seq<Option<InputVal>>, svc: MapService, withBucket: bool)
    ensures Mapped(inputs, svc, withBucket).None? <==>
      exists i :: 0 <= i < |inputs| && Mappable(inputs[i]) && svc(inputs[i].value.identityInput).None?
  {
    if |inputs| > 0 {
      var init := inputs[..|inputs| - 1];
      MappedFailsIffServiceFails(init, svc, withBucket);
      if exists i :: 0 <= i < |init| && Mappable(init[i]) && svc(init[i].value.identityInput).None? {
        var i :| 0 <= i < |init| && Mappable(init[i]) && svc(init[i].value.identityInput).None?;
        assert inputs[i] == init[i];
      }
      if exists i :: 0 <= i < |inputs| && Mappable(inputs[i]) && svc(inputs[i].value.identityInput).None? {
        var i :| 0 <= i < |inputs| && Mappable(inputs[i]) && svc(inputs[i].value.identityInput).None?;
        if i < |init| {
          assert init[i] == inputs[i];
        }
      }
    }
  }

  /**
   * A successful batch is the in-order filter of its valid inputs: entry j
   * belongs to input `pos[j]`, positions strictly increase, an input is
   * kept if and only if it is valid, and each entry echoes that input's
   * provided string and its advertising id.
   */
  lemma {:induction false} MappedIsValidInputsInOrder(inputs: seq<Option<InputVal>>, svc: MapService, withBucket: bool)
    requires Mapped(inputs, svc, withBucket).Some?
    ensures var es := Mapped(inputs, svc, withBucket).value;
      var pos := Seqs.Positions(inputs, Mappable);
      && |es| == |pos|
      && Seqs.StrictlyIncreasing(pos)
      && (forall i :: 0 <= i < |inputs| ==> (i in pos <==> Mappable(inputs[i])))
      && (forall j :: 0 <= j < |pos| ==>
            pos[j] < |inputs| && Mappable(inputs[pos[j]]) &&
            svc(inputs[pos[j]].value.identityInput).Some? &&
            es[j] == EntryJson(inputs[pos[j]].value, svc(inputs[pos[j]].value.identityInput).value, withBucket))
  {
    Seqs.FilterPositions(inputs, Mappable);
    MappedIsFilter(inputs, svc, withBucket);
  }

  lemma {:induction false} MappedIsFilter(inputs: seq<Option<InputVal>>, svc: MapService, withBucket: bool)
    requires Mapped(inputs, svc, withBucket).Some?
    ensures var es := Mapped(inputs, svc, withBucket).value;
      var kept := Seqs.Filter(inputs, Mappable);
      && |es| == |kept|
      && (forall j :: 0 <= j < |kept| ==>
            kept[j].Some? && svc(kept[j].value.identityInput).Some? &&
            es[j] == EntryJson(kept[j].value, svc(kept[j].value.identityInput).value, withBucket))
  {
    if |inputs| > 0 {
      var init := inputs[..|inputs| - 1];
      MappedIsFilter(init, svc, withBucket);
      Seqs.FilterSnoc(init, inputs[|inputs| - 1], Mappable);
      assert init + [inputs[|inputs| - 1]] == inputs;
    }
  }

  /**
   * The deprecated batch endpoint returns the same entries as the versioned
   * one, in the same order and failing on the same batches, minus `bucket_id`.
   */
  lemma {:induction false} LegacyBatchOmitsBucket(inputs: seq<Option<InputVal>>, svc: MapService)
    ensures Mapped(inputs, svc, false).Some? <==> Mapped(inputs, svc, true).Some?
    ensures Mapped(inputs, svc, true).Some? ==>
      Mapped(inputs, svc, false).value == Seqs.MapSeq(Mapped(inputs, svc, true).value, WithoutBucket)
  {
    if |inputs| > 0 {
      var init := inputs[..|inputs| - 1];
      LegacyBatchOmitsBucket(init, svc);
      var x := inputs[|inputs| - 1];
      if Mapped(init, svc, true).Some? && Mappable(x) && svc(x.value.identityInput).Some? {
        var m := svc(x.value.identityInput).value;
        Seqs.MapSeqSnoc(Mapped(init, svc, true).value, EntryJson(x.value, m, true), WithoutBucket);
        assert WithoutBucket(EntryJson(x.value, m, true)) == EntryJson(x.value, m, false);
      }
    }
  }

  /** An object with its `bucket_id` field removed. */
  function WithoutBucket(o: Json): Json
  {
    if o.JObject? then JObject(o.fields - {"bucket_id"}) else o
  }

  /** `handleIdentityMapBatchV1`, as the function its handler is proved against. */
  function BatchResponseV1(body: Option<BatchBody>, n: Normalizer, svc: MapService): Response
  {
    match body
    case None => Error("unknown", 500)
    case Some(b) =>
      match Mapped(BatchInputs(b, n), svc, true)
      case None => Error("unknown", 500)
      case Some(es) => Success(JObject(map["mapped" := JArray(es)]))
  }

  /** `handleIdentityMapBatch` (deprecated), as the function its handler is proved against. */
  function BatchResponse(body: Option<BatchBody>, n: Normalizer, svc: MapService): Response
  {
    match body
    case None => Fail(500)
    case Some(b) =>
      match Mapped(BatchInputs(b, n), svc, false)
      case None => Fail(500)
      case Some(es) => RawJson(JObject(map["mapped" := JArray(es)]))
  }

  /**
   * POST `/v1/identity/map`. A body that is not a JSON object (`None`) or
   * a mapping failure gives 500 `unknown`; otherwise success with `mapped`.
   */
  method HandleIdentityMapBatchV1(body: Option<BatchBody>, n: Normalizer, svc: MapService) returns (r: Response)
    ensures r == BatchResponseV1(body, n, svc)
  {
    if body.None? {
      return Error("unknown", 500);
    }
    var (inputArray, asHash) := BatchSource(body.value);
    var inputList := CreateInputList(inputArray, asHash, n);
    var mapped := MapInputs(inputList, svc, true);
    if mapped.None? {
      return Error("unknown", 500);
    }
    r := Success(JObject(map["mapped" := JArray(mapped.value)]));
  }

  /** POST `/identity/map` (deprecated): the same batch without bucket ids, as a bare JSON object. */
  method HandleIdentityMapBatch(body: Option<BatchBody>, n: Normalizer, svc: MapService) returns (r: Response)
    ensures r == BatchResponse(body, n, svc)
  {
    if body.None? {
      return Fail(500);
    }
    var (inputArray, asHash) := BatchSource(body.value);
    var inputList := CreateInputList(inputArray, asHash, n);
    var mapped := MapInputs(inputList, svc, false);
    if mapped.None? {
      return Fail(500);
    }
    r := RawJson(JObject(map["mapped" := JArray(mapped.value)]));
  }

  /**
   * `handleIdentityMapV1`: a missing, null or invalid identifier is a client
   * error; a mapping failure is 500 `unknown`; otherwise the entry for the
   * identifier, with its bucket id.
   */
  function MapV1(q: Query, n: Normalizer, svc: MapService): (r: Response)
    ensures r.ClientError? <==> !Mappable(GetTokenInput(q, n))
    ensures r.Success? <==> Mappable(GetTokenInput(q, n)) && svc(GetTokenInput(q, n).value.identityInput).Some?
    ensures r == Error("unknown", 500) <==>
      Mappable(GetTokenInput(q, n)) && svc(GetTokenInput(q, n).value.identityInput).None?
    ensures r.Success? ==>
      GetString(r.body, "identifier") == Some(GetTokenInput(q, n).value.provided) &&
      GetString(r.body, "advertising_id") == Some(svc(GetTokenInput(q, n).value.identityInput).value.advertisingId) &&
      GetString(r.body, "bucket_id") == Some(svc(GetTokenInput(q, n).value.identityInput).value.bucketId)
  {
    var input := GetTokenInput(q, n);
    if input.None? || !input.value.valid then ClientError("invalid identifier")
    else
      match svc(input.value.identityInput)
      case None => Error("unknown", 500)
      case Some(m) => Success(EntryJson(input.value, m, true))
  }

  /**
   * Mapping one email through the single endpoint and through a one-element
   * batch gives the same entry.
   */
  lemma SingleAgreesWithBatch(q: Query, n: Normalizer, svc: MapService)
    requires HasParam(q, "email")
    requires MapV1(q, n, svc).Success?
    ensures BatchResponseV1(Some(BatchBody(Some([Param(q, "email")[0]]), None)), n, svc)
         == Success(JObject(map["mapped" := JArray([MapV1(q, n, svc).body])]))
  {
    var e := Param(q, "email")[0];
    var x := n.email(e);
    assert BatchInputs(BatchBody(Some([e]), None), n) == [x];
    assert GetTokenInput(q, n) == x;
    var m := svc(x.value.identityInput).value;
    assert [x][..0] == [];
    assert Mapped([x][..0], svc, true) == Some([]);
    assert [] + [EntryJson(x.value, m, true)] == [EntryJson(x.value, m, true)];
    assert Mapped([x], svc, true) == Some([EntryJson(x.value, m, true)]);
    assert MapV1(q, n, svc) == Success(EntryJson(x.value, m, true));
    var b := BatchBody(Some([e]), None);
    assert Mapped(BatchInputs(b, n), svc, true) == Some([EntryJson(x.value, m, true)]);
    assert BatchResponseV1(Some(b), n, svc) == Success(JObject(map["mapped" := JArray([EntryJson(x.value, m, true)])]));
  }

  /** A body with neither array maps nothing, successfully. */
  lemma EmptyBodyMapsNothing(n: Normalizer, svc: MapService)
    ensures BatchResponseV1(Some(BatchBody(None, None)), n, svc) == Success(JObject(map["mapped" := JArray([])]))
  {
  }
}

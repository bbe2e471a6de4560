/**
  `AbstractClient`: the part every transport client shares. It holds a baseline policy, a base
  request composed once at construction, and three per-call slots (settings override, expected
  result, validator) that the retry aspect reads and then clears. Requests are the JSON objects
  the client's typed request class serialises to.
 */
module AbstractClient {
  import opened Wrappers
  import opened Json
  import opened DataUtil
  import opened ExecutionSettings

  /** `Validator`: the actual response and the expected result handed to a validator. */
  datatype Validator = Validator(actual: Obj, expected: Option<Obj>)

  /** `Consumer<Validator>`: accepts its input, or throws the returned exception. */
  type ValidatorFn = Validator -> Option<Exception>

  /** The concrete client classes `ClientFactory` can build. */
  datatype ClientKind = RestAssuredRest | Unirest | RestAssuredSoap | Oracle | Kafka

  const HeadersKey: string := "headers"
  const IgnoreBaseHeadersKey: string := "ignoreBaseHeaders"

  /** `DataUtil.toJsonObject(null)` reads `JsonNull` as an object. */
  const NullRequest := Exception(IllegalState, "Not a JSON Object: null")

  /** `Request.builder().build()` of each client's request class, as Gson writes it (null fields left out). */
  function DefaultRequest(kind: ClientKind): Obj {
    match kind
    case RestAssuredRest | Unirest =>
      [Member("headers", JObj([])), Member("ignoreBaseHeaders", JBool(false)), Member("verifySsl", JBool(false))]
    case RestAssuredSoap =>
      [Member("headers", JObj([])), Member("ignoreBaseHeaders", JBool(false))]
    case Oracle =>
      [Member("params", JObj([])), Member("datacenter", JStr("datacenter1")), Member("ssl", JBool(false)),
       Member("executeIfPresent", JBool(true))]
    case Kafka =>
      [Member("headers", JObj([])), Member("params", JObj([])), Member("connAttemptCount", JNum(10)),
       Member("connAttemptDelay", JNum(2000)), Member("connAttemptTimeout", JNum(10000)),
       Member("partitionIdList", JArr([])), Member("pollTime", JNum(10000))]
  }

  /** `source.has("ignoreBaseHeaders") && source.get("ignoreBaseHeaders").getAsBoolean()`. */
  function IgnoresBaseHeaders(source: Obj): (r: Result<bool>)
    ensures !Has(source, IgnoreBaseHeadersKey) ==> r == Ok(false)
    ensures Get(source, IgnoreBaseHeadersKey) == Some(JBool(true)) ==> r == Ok(true)
  {
    if Has(source, IgnoreBaseHeadersKey) then AsBoolean(Get(source, IgnoreBaseHeadersKey).value) else Ok(false)
  }

  /** The object the source request is merged into: a copy of the base request when there is one,
      otherwise the target; without its headers when the source asks to ignore them. */
  function MergeLayer(base: Option<Obj>, source: Obj, target: Obj): Result<Obj> {
    var layer := if base.Some? then base.value else target;
    var ignore :- IgnoresBaseHeaders(source);
    Ok(if ignore then Remove(layer, HeadersKey) else layer)
  }

  /** `mergeRequest(sourceRequest, targetRequest)` of a client whose base request is `base`. */
  function RequestMerge(base: Option<Obj>, source: Option<Obj>, target: Option<Obj>): Result<Obj> {
    if source.None? || target.None? then Err(NullRequest)
    else
      var layer :- MergeLayer(base, source.value, target.value);
      Ok(Merge(source.value, layer))
  }

  class Client {
    const kind: ClientKind
    /** The baseline policy (`settings`). */
    const settings: Option<Settings>
    /** `Request.builder().build()` of this client's request type. */
    const defaultRequest: Obj
    const baseRequest: Option<Obj>
    var updatedSettings: Option<Settings>
    var expectedResult: Option<Obj>
    var validator: Option<ValidatorFn>

    constructor (kind: ClientKind, settings: Option<Settings>, defaultRequest: Obj, baseRequest: Option<Obj>)
      ensures this.kind == kind && this.settings == settings
      ensures this.defaultRequest == defaultRequest && this.baseRequest == baseRequest
      ensures updatedSettings.None? && expectedResult.None? && validator.None?
    {
      this.kind := kind;
      this.settings := settings;
      this.defaultRequest := defaultRequest;
      this.baseRequest := baseRequest;
      updatedSettings := None;
      expectedResult := None;
      validator := None;
    }

    /** The constructor `AbstractClient(settings, request)`: the base request is `mergeRequest(request)`
        computed while there is no base request yet, so it is the request merged over the default
        request; a null request makes construction fail. */
    static method Create(kind: ClientKind, settings: Option<Settings>, defaultRequest: Obj, request: Option<Obj>)
      returns (r: Result<Client>)
      ensures r.Err? <==> RequestMerge(None, request, Some(defaultRequest)).Err?
      ensures r.Err? ==> r.error == RequestMerge(None, request, Some(defaultRequest)).error
      ensures r.Ok? ==> fresh(r.value)
      ensures r.Ok? ==> r.value.kind == kind && r.value.settings == settings && r.value.defaultRequest == defaultRequest
      ensures r.Ok? ==> r.value.baseRequest == Some(RequestMerge(None, request, Some(defaultRequest)).value)
      ensures r.Ok? ==> r.value.updatedSettings.None? && r.value.expectedResult.None? && r.value.validator.None?
    {
      var base := RequestMerge(None, request, Some(defaultRequest));
      if base.Err? {
        return Err(base.error);
      }
      var client := new Client(kind, settings, defaultRequest, Some(base.value));
      return Ok(client);
    }

    /** `mergeRequest(sourceRequest, targetRequest)`. */
    method MergeRequestWith(source: Option<Obj>, target: Option<Obj>) returns (r: Result<Obj>)
      ensures r == RequestMerge(baseRequest, source, target)
    {
      if source.None? || target.None? {
        return Err(NullRequest);
      }
      var layer := target.value;
      if baseRequest.Some? {
        layer := baseRequest.value;
      }
      var ignore := IgnoresBaseHeaders(source.value);
      if ignore.Err? {
        return Err(ignore.error);
      }
      if ignore.value {
        layer := Remove(layer, HeadersKey);
      }
      var merged := DeepMerge(source, Some(layer));
      return Ok(merged.value);
    }

    /** `mergeRequest(request)`: the request merged over the base request, or over the default request
        while there is no base request. */
    method MergeRequest(request: Option<Obj>) returns (r: Result<Obj>)
      ensures r == RequestMerge(baseRequest, request, Some(defaultRequest))
    {
      r := MergeRequestWith(request, Some(defaultRequest));
    }

    /** `reset`: clears the three per-call slots. */
    method Reset()
      modifies this
      ensures updatedSettings.None? && expectedResult.None? && validator.None?
    {
      updatedSettings := None;
      expectedResult := None;
      validator := None;
    }

    method WithSettings(s: Option<Settings>) returns (r: Client)
      modifies this
      ensures r == this && updatedSettings == s
      ensures expectedResult == old(expectedResult) && validator == old(validator)
    {
      updatedSettings := s;
      r := this;
    }

    method WithValidator(v: Option<ValidatorFn>) returns (r: Client)
      modifies this
      ensures r == this && validator == v
      ensures updatedSettings == old(updatedSettings) && expectedResult == old(expectedResult)
    {
      validator := v;
      r := this;
    }

    method WithExpectedResult(e: Option<Obj>) returns (r: Client)
      modifies this
      ensures r == this && expectedResult == e
      ensures updatedSettings == old(updatedSettings) && validator == old(validator)
    {
      expectedResult := e;
      r := this;
    }
  }

  // ---------------------------------------------------------------------------------------------
  // Properties of the request composition

  /** A null source or target request makes `mergeRequest` throw, even when a base request exists. */
  lemma RequestMergeNull(base: Option<Obj>, source: Option<Obj>, target: Option<Obj>)
    requires source.None? || target.None?
    ensures RequestMerge(base, source, target) == Err(NullRequest)
  {
  }

  /** Once a base request exists, the target request's content plays no part. */
  lemma RequestMergeIgnoresTarget(base: Obj, source: Obj, t1: Obj, t2: Obj)
    ensures RequestMerge(Some(base), Some(source), Some(t1)) == RequestMerge(Some(base), Some(source), Some(t2))
  {
  }

  /** Key by key, the composed request: a key the source does not set comes from the layer (base or
      target); a scalar the source sets wins; `headers` comes from the source alone when the source
      asks to ignore the base headers. */
  lemma RequestMergeKeys(base: Option<Obj>, source: Obj, target: Obj, k: string)
    requires UniqueKeys(source) && IgnoresBaseHeaders(source).Ok?
    ensures var r := RequestMerge(base, Some(source), Some(target));
      var layer := if base.Some? then base.value else target;
      r.Ok? &&
      (k !in Keys(source) && k != HeadersKey ==> Get(r.value, k) == Get(layer, k)) &&
      (k in Keys(source) && !Get(source, k).value.JArr? && !Get(source, k).value.JObj? ==>
        Get(r.value, k) == Get(source, k)) &&
      (IgnoresBaseHeaders(source).value ==> Get(r.value, HeadersKey) == Get(source, HeadersKey)) &&
      (!IgnoresBaseHeaders(source).value ==>
        Get(r.value, HeadersKey) ==
          if HeadersKey in Keys(source) then Some(MergeValue(Get(source, HeadersKey).value, Get(layer, HeadersKey)))
          else Get(layer, HeadersKey))
  {
    var layer := if base.Some? then base.value else target;
    var ignore := IgnoresBaseHeaders(source).value;
    var l := if ignore then Remove(layer, HeadersKey) else layer;
    assert MergeLayer(base, source, target) == Ok(l);
    var m := Merge(source, l);
    assert RequestMerge(base, Some(source), Some(target)) == Ok(m);
    assert Get(m, k) == if k in Keys(source) then Some(MergeValue(Get(source, k).value, Get(l, k))) else Get(l, k) by {
      MergeGet(source, l, k);
    }
    assert Get(m, HeadersKey) ==
      if HeadersKey in Keys(source) then Some(MergeValue(Get(source, HeadersKey).value, Get(l, HeadersKey)))
      else Get(l, HeadersKey) by {
      MergeGet(source, l, HeadersKey);
    }
    assert k != HeadersKey ==> Get(l, k) == Get(layer, k) by {
      RemoveGet(layer, HeadersKey, k);
    }
    assert ignore ==> Get(l, HeadersKey) == None by {
      RemoveGet(layer, HeadersKey, HeadersKey);
    }
    if k in Keys(source) && !Get(source, k).value.JArr? && !Get(source, k).value.JObj? {
      assert MergeValue(Get(source, k).value, Get(l, k)) == Get(source, k).value;
    }
    if ignore {
      if HeadersKey in Keys(source) {
        assert MergeValue(Get(source, HeadersKey).value, None) == Get(source, HeadersKey).value;
      } else {
        assert Get(source, HeadersKey) == None;
      }
    }
  }
}

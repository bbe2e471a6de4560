/**
  `builder/Service`: a service description (a YAML document read as JSON) gives a client, named by
  its `client` member and built over the whole description, and a map from api name to request
  template. `run` merges a caller's request into the stored template — changing the stored
  template — and resolves the result on the client.
 */
module BuilderService {
  import opened Wrappers
  import opened Json
  import opened DataUtil
  import opened ExecutionSettings
  import opened AbstractClient
  import ClientFactory
  import opened RunnableAspect
  import ClientCall

  /** The loop of `initializeServiceMap` from api `i` on: each api is stored under its name, a later api
      replacing an earlier one of the same name. */
  function ApisFrom(apis: seq<Json>, i: nat, acc: map<string, Obj>): Result<map<string, Obj>>
    requires i <= |apis|
    decreases |apis| - i
  {
    if i == |apis| then Ok(acc)
    else
      var api :- AsObject(apis[i]);
      var n :- Field(api, "name");
      var name :- AsString(n);
      ApisFrom(apis, i + 1, acc[name := api])
  }

  /** `serviceInfo.get("apis").getAsJsonArray()` and the loop over it, starting from `acc`. */
  function RequestMapOf(info: Obj, acc: map<string, Obj>): Result<map<string, Obj>> {
    var a :- Field(info, "apis");
    var apis :- AsArray(a);
    ApisFrom(apis, 0, acc)
  }

  /** What a successful construction yields. */
  datatype Blueprint = Blueprint(client: (ClientKind, Obj), requestMap: map<string, Obj>)

  /** The constructor's steps in order: the client (named by `client`, with default settings and the
      description itself as request), then the request map. */
  function BlueprintOf(info: Obj): Result<Blueprint> {
    var c :- Field(info, "client");
    var name :- AsString(c);
    var client :- ClientFactory.ClientSpecByName(Some(name), Some(info));
    var apis :- RequestMapOf(info, map[]);
    Ok(Blueprint(client, apis))
  }

  /** The api stored under a name is the last api carrying that name, and every stored name is an api's. */
  lemma {:induction false} ApisLastWins(apis: seq<Json>, i: nat, acc: map<string, Obj>, j: nat, k: string)
    requires i <= j < |apis| && ApisFrom(apis, i, acc).Ok?
    requires AsObject(apis[j]).Ok? && Field(apis[j].members, "name").Ok?
    requires AsString(Field(apis[j].members, "name").value) == Ok(k)
    requires forall t :: j < t < |apis| ==>
      AsObject(apis[t]).Ok? && Field(apis[t].members, "name").Ok? && AsString(Field(apis[t].members, "name").value) != Ok(k)
    ensures k in ApisFrom(apis, i, acc).value && ApisFrom(apis, i, acc).value[k] == apis[j].members
    decreases |apis| - i
  {
    var api := AsObject(apis[i]).value;
    var name := AsString(Field(api, "name").value).value;
    if i == j {
      ApisKeep(apis, i + 1, acc[name := api], k);
    } else {
      ApisLastWins(apis, i + 1, acc[name := api], j, k);
    }
  }

  /** Apis whose names differ from `k` leave `k` as it was. */
  lemma {:induction false} ApisKeep(apis: seq<Json>, i: nat, acc: map<string, Obj>, k: string)
    requires i <= |apis| && ApisFrom(apis, i, acc).Ok?
    requires forall t :: i <= t < |apis| ==>
      AsObject(apis[t]).Ok? && Field(apis[t].members, "name").Ok? && AsString(Field(apis[t].members, "name").value) != Ok(k)
    ensures (k in ApisFrom(apis, i, acc).value <==> k in acc)
    ensures k in acc ==> ApisFrom(apis, i, acc).value[k] == acc[k]
    decreases |apis| - i
  {
    if i < |apis| {
      var api := AsObject(apis[i]).value;
      var name := AsString(Field(api, "name").value).value;
      ApisKeep(apis, i + 1, acc[name := api], k);
    }
  }

  /** What of a service the test runners can observe: its client's fixed configuration, the client's
      policy override, and the stored request templates. */
  datatype ServiceView = ServiceView(
    kind: ClientKind,
    settings: Option<Settings>,
    overrides: Option<Settings>,
    baseRequest: Option<Obj>,
    defaultRequest: Obj,
    templates: map<string, Obj>)

  class Service {
    const client: Client
    var requestMap: map<string, Obj>
    /** The service description this service was built from. */
    ghost const source: Obj

    constructor (client: Client, ghost source: Obj)
      ensures this.client == client && this.source == source && requestMap == map[]
    {
      this.client := client;
      this.source := source;
      requestMap := map[];
    }

    /** The service is what its description specifies. */
    ghost predicate Built()
      reads this, client
    {
      BlueprintOf(source).Ok? &&
      ClientFactory.BuiltAs(client, BlueprintOf(source).value.client, Some(Default())) &&
      requestMap == BlueprintOf(source).value.requestMap
    }

    /** `new Service(serviceInfo)`: fails with the first failing step of its blueprint. */
    static method Create(info: Obj) returns (r: Result<Service>)
      ensures r.Err? <==> BlueprintOf(info).Err?
      ensures r.Err? ==> r.error == BlueprintOf(info).error
      ensures r.Ok? ==> fresh(r.value) && fresh(r.value.client) && r.value.source == info && r.value.Built()
    {
      var c := Field(info, "client");
      if c.Err? {
        return Err(c.error);
      }
      var name := AsString(c.value);
      if name.Err? {
        return Err(name.error);
      }
      var client := ClientFactory.GetClientByName(Some(name.value), Some(Default()), Some(info));
      if client.Err? {
        return Err(client.error);
      }
      var service := new Service(client.value, info);
      var failure := service.InitializeServiceMap(info);
      if failure.Some? {
        return Err(failure.value);
      }
      return Ok(service);
    }

    /** `initializeServiceMap`: each api stored under its `name`, in order, the last one winning. */
    method InitializeServiceMap(info: Obj) returns (failure: Option<Exception>)
      modifies this
      ensures failure.None? <==> RequestMapOf(info, old(requestMap)).Ok?
      ensures failure.Some? ==> failure.value == RequestMapOf(info, old(requestMap)).error
      ensures failure.None? ==> requestMap == RequestMapOf(info, old(requestMap)).value
    {
      var a := Field(info, "apis");
      if a.Err? {
        return Some(a.error);
      }
      var apis := AsArray(a.value);
      if apis.Err? {
        return Some(apis.error);
      }
      var list := apis.value;
      var i := 0;
      while i < |list|
        invariant i <= |list|
        invariant ApisFrom(list, i, requestMap) == RequestMapOf(info, old(requestMap))
      {
        var api := AsObject(list[i]);
        if api.Err? {
          return Some(api.error);
        }
        var n := Field(api.value, "name");
        if n.Err? {
          return Some(n.error);
        }
        var name := AsString(n.value);
        if name.Err? {
          return Some(name.error);
        }
        requestMap := requestMap[name.value := api.value];
        i := i + 1;
      }
      return None;
    }

    function View(): ServiceView
      reads this, client
    {
      ServiceView(client.kind, client.settings, client.updatedSettings, client.baseRequest, client.defaultRequest, requestMap)
    }

    /** `getRequest(methodName)`: the stored template, or null for an unknown name. */
    function GetRequest(name: string): (r: Option<Obj>)
      reads this
      ensures r.Some? <==> name in requestMap
      ensures r.Some? ==> r.value == requestMap[name]
    {
      if name in requestMap then Some(requestMap[name]) else None
    }

    /** `DataUtil.deepMerge(request, getRequest(name))` as `run` and the test runners call it: the
        stored template is the merge target, so the merged request is what the template becomes. */
    method MergeTemplate(name: string, request: Option<Obj>) returns (merged: Option<Obj>)
      modifies this
      ensures merged == DeepMerged(request, old(GetRequest(name)))
      ensures requestMap == if merged.Some? then old(requestMap)[name := merged.value] else old(requestMap)
    {
      var template := GetRequest(name);
      merged := DeepMerge(request, template);
      if merged.Some? {
        requestMap := requestMap[name := merged.value];
      }
    }

    /** `run(methodName, request)`: the caller's request merged over the template (which keeps the
        result), composed by the client, resolved, and read back as a JSON object. */
    method Run(name: string, request: Option<Obj>, env: Environment) returns (r: Result<Obj>)
      modifies this, client
      ensures requestMap ==
        if DeepMerged(request, old(GetRequest(name))).Some?
        then old(requestMap)[name := DeepMerged(request, old(GetRequest(name))).value]
        else old(requestMap)
      ensures DeepMerged(request, old(GetRequest(name))).None? ==> r == Err(NullRequest)
      ensures var sent := RequestMerge(client.baseRequest, DeepMerged(request, old(GetRequest(name))), Some(client.defaultRequest));
        (sent.Err? ==> r == Err(sent.error)) &&
        (sent.Ok? && ClientCall.Advised(client.kind) ==> r == ResponseObject(OutcomeOf(old(CapturedPolicy(client)), env))) &&
        (sent.Ok? && !ClientCall.Advised(client.kind) ==>
          r == ResponseObject(ClientCall.DirectOutcome(client.kind, sent.value, env)))
      ensures var sent := RequestMerge(client.baseRequest, DeepMerged(request, old(GetRequest(name))), Some(client.defaultRequest));
        (sent.Ok? && ClientCall.Advised(client.kind) ==>
          client.updatedSettings.None? && client.expectedResult.None? && client.validator.None?) &&
        (sent.Err? || !ClientCall.Advised(client.kind) ==> unchanged(client))
    {
      var merged := MergeTemplate(name, request);
      var sent := client.MergeRequest(merged);
      if sent.Err? {
        return Err(sent.error);
      }
      var outcome := ClientCall.Resolve(client, sent.value, env);
      r := ResponseObject(outcome);
    }
  }

  /** `DataUtil.toJsonObject` of what `resolve` returned, or the exception it threw. */
  function ResponseObject(outcome: Outcome): (r: Result<Obj>)
    ensures r.Ok? <==> outcome.Returned? && outcome.value.Some? && outcome.value.value.JObj?
    ensures outcome.Raised? ==> r == Err(outcome.error)
  {
    match outcome
    case Raised(e) => Err(e)
    case Returned(None) => Err(NullRequest)
    case Returned(Some(JObj(members))) => Ok(members)
    case Returned(Some(_)) => Err(Exception(IllegalState, "Not a JSON Object"))
  }
}

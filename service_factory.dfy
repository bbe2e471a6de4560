/**
  `builder/ServiceFactory`: the registry of services named by a suite's `$import` list, the
  validator the test runners hand to clients, and the capture of response values into a
  test case's variable cache.
 */
module ServiceFactory {
  import opened Wrappers
  import opened Json
  import opened AbstractClient
  import opened ServiceValidator
  import opened BuilderService

  // ---------------------------------------------------------------------------------------------
  // Validation

  /** `formatResponse`: the body normalisation of the validator, applied to the response in place. */
  method FormatResponse(f: Formats, response: Obj) returns (r: Result<Obj>)
    ensures r == NormalizeBody(f, response)
  {
    if !Has(response, BodyKey) {
      return Ok(response);
    }
    var text := AsString(Get(response, BodyKey).value);
    if text.Err? {
      return Err(text.error);
    }
    var format := f.sniff(text.value);
    if format == JsonText {
      var parsed := AsObject(f.parse(text.value));
      if parsed.Err? {
        return Err(parsed.error);
      }
      return Ok(Put(response, BodyKey, JObj(parsed.value)));
    } else if format == XmlText {
      return Ok(Put(response, BodyKey, JObj(f.xmlToJson(text.value))));
    }
    return Ok(response);
  }

  /** `validate(Validator)`: `formatResponse`, then the same ordered checks as `ServiceValidator.validate`,
      so the two validators throw exactly the same exceptions. */
  method Validate(f: Formats, read: PathReader, v: Validator) returns (r: Option<Exception>)
    ensures r == ValidationError(f, read, v)
  {
    var actual := FormatResponse(f, v.actual);
    if actual.Err? {
      return Some(actual.error);
    }
    var steps := StepsOf(v.expected);
    if steps.Err? {
      return Some(steps.error);
    }
    r := CheckExpressions(actual.value, read, steps.value);
  }

  /** `ServiceFactory::validate` as the `Consumer<Validator>` the test runners install. */
  function ValidatorOf(f: Formats, read: PathReader): ValidatorFn {
    (v: Validator) => ValidationError(f, read, v)
  }

  // ---------------------------------------------------------------------------------------------
  // Variable capture

  /** The per-test-case variable cache (a `HashMap` the runner creates and `setVars` fills). */
  class VarCache {
    var entries: map<string, Json>

    constructor ()
      ensures entries == map[]
    {
      entries := map[];
    }
  }

  /** The values written by `setVars` and what it threw, if anything. */
  datatype Capture = Capture(writes: map<string, Json>, failure: Option<Exception>)

  /** A variable's path as the raw `Map` Gson builds gives it: a string, else the cast to String fails
      (null reaches JsonPath, which rejects it). */
  function PathOf(v: Json): Result<string> {
    match v
    case JStr(p) => Ok(p)
    case JNull => Err(Exception(IllegalArgument, "path can not be null or empty"))
    case _ => Err(Exception(ClassCast, ClassName(v) + " cannot be cast to String"))
  }

  /** `DataUtil.toJsonElement(result)`: a string selection is parsed again as a JSON text (Gson's
      `fromJson`), so `"123"` is cached as a number and a text that is no JSON document throws; any other
      selection is converted as it is. */
  function ToJsonElement(f: Formats, selected: Json): Result<Json> {
    if selected.JStr? then f.fromJson(selected.s) else Ok(selected)
  }

  /** One variable of `setVars`: the path from the `variables` map, the value JsonPath reads with it,
      and that value's `toJsonElement`. */
  function VarValue(f: Formats, doc: Obj, read: PathReader, v: Json): Result<Json> {
    var path :- PathOf(v);
    var selected :- read(doc, path);
    ToJsonElement(f, selected)
  }

  /** The loop of `setVars` from variable `i` on: each variable's value is put under its name; the first
      failure stops the loop. */
  function CaptureFrom(f: Formats, doc: Obj, read: PathReader, vars: Obj, i: nat, acc: map<string, Json>): Capture
    requires i <= |vars|
    decreases |vars| - i
  {
    if i == |vars| then Capture(acc, None)
    else
      match VarValue(f, doc, read, vars[i].value)
      case Err(e) => Capture(acc, Some(e))
      case Ok(value) => CaptureFrom(f, doc, read, vars, i + 1, acc[vars[i].key := value])
  }

  /** `toJsonObject(response)` followed by `formatResponse`. */
  function ResponseDocument(f: Formats, response: Option<Json>): Result<Obj> {
    match response
    case None => Err(NullRequest)
    case Some(JObj(members)) => NormalizeBody(f, members)
    case Some(_) => Err(Exception(IllegalState, "Not a JSON Object"))
  }

  /** `step.get("variables").getAsJsonObject()`. */
  function VariablesOf(step: Obj): Result<Obj> {
    var v :- Field(step, "variables");
    AsObject(v)
  }

  function CaptureOf(f: Formats, read: PathReader, response: Option<Json>, step: Obj): Capture {
    match ResponseDocument(f, response)
    case Err(e) => Capture(map[], Some(e))
    case Ok(doc) =>
      match VariablesOf(step)
      case Err(e) => Capture(map[], Some(e))
      case Ok(vars) => CaptureFrom(f, doc, read, vars, 0, map[])
  }

  /** `setVars(response, step, cache)`: the captured values overwrite whatever the cache held under the
      same names; a step without a `variables` object throws. */
  method SetVars(f: Formats, read: PathReader, response: Option<Json>, step: Obj, cache: VarCache)
    returns (failure: Option<Exception>)
    modifies cache
    ensures cache.entries == old(cache.entries) + CaptureOf(f, read, response, step).writes
    ensures failure == CaptureOf(f, read, response, step).failure
  {
    var doc := ResponseDocument(f, response);
    if doc.Err? {
      return Some(doc.error);
    }
    var vars := VariablesOf(step);
    if vars.Err? {
      return Some(vars.error);
    }
    var list := vars.value;
    ghost var start := cache.entries;
    ghost var written: map<string, Json> := map[];
    var i := 0;
    while i < |list|
      invariant i <= |list|
      invariant cache.entries == start + written
      invariant CaptureFrom(f, doc.value, read, list, i, written) == CaptureOf(f, read, response, step)
    {
      var value := VarValue(f, doc.value, read, list[i].value);
      if value.Err? {
        return Some(value.error);
      }
      cache.entries := cache.entries[list[i].key := value.value];
      written := written[list[i].key := value.value];
      i := i + 1;
    }
    return None;
  }

  /** Each variable of the step ends up holding the `toJsonElement` of its path's value in the response. */
  lemma {:induction false} CaptureFromGet(f: Formats, doc: Obj, read: PathReader, vars: Obj, i: nat,
                                          acc: map<string, Json>, j: nat)
    requires UniqueKeys(vars) && i <= j < |vars| && CaptureFrom(f, doc, read, vars, i, acc).failure.None?
    ensures PathOf(vars[j].value).Ok? && read(doc, PathOf(vars[j].value).value).Ok?
    ensures var w := CaptureFrom(f, doc, read, vars, i, acc).writes;
      var selected := read(doc, PathOf(vars[j].value).value).value;
      ToJsonElement(f, selected).Ok? && vars[j].key in w && w[vars[j].key] == ToJsonElement(f, selected).value
    decreases |vars| - i
  {
    var value := VarValue(f, doc, read, vars[i].value).value;
    if j == i {
      CaptureFromKeep(f, doc, read, vars, i + 1, acc[vars[i].key := value], vars[i].key);
    } else {
      CaptureFromGet(f, doc, read, vars, i + 1, acc[vars[i].key := value], j);
    }
  }

  /** A name that no variable from `i` on carries keeps the value it had. */
  lemma {:induction false} CaptureFromKeep(f: Formats, doc: Obj, read: PathReader, vars: Obj, i: nat,
                                           acc: map<string, Json>, k: string)
    requires i <= |vars|
    requires forall t :: i <= t < |vars| ==> vars[t].key != k
    ensures var w := CaptureFrom(f, doc, read, vars, i, acc).writes;
      (k in w <==> k in acc) && (k in acc ==> w[k] == acc[k])
    decreases |vars| - i
  {
    if i < |vars| && VarValue(f, doc, read, vars[i].value).Ok? {
      var value := VarValue(f, doc, read, vars[i].value).value;
      CaptureFromKeep(f, doc, read, vars, i + 1, acc[vars[i].key := value], k);
    }
  }

  /** The loop fails exactly when some variable's path, read or re-parse fails, and then with the first
      such failure; the variables before it were all captured. */
  lemma {:induction false} CaptureFromFirst(f: Formats, doc: Obj, read: PathReader, vars: Obj, i: nat,
                                            acc: map<string, Json>)
    requires i <= |vars|
    ensures var c := CaptureFrom(f, doc, read, vars, i, acc);
      (c.failure.None? <==> forall t :: i <= t < |vars| ==> VarValue(f, doc, read, vars[t].value).Ok?) &&
      (c.failure.Some? ==>
         exists j :: i <= j < |vars| &&
           VarValue(f, doc, read, vars[j].value) == Err(c.failure.value) &&
           forall t :: i <= t < j ==> VarValue(f, doc, read, vars[t].value).Ok?)
    decreases |vars| - i
  {
    if i < |vars| && VarValue(f, doc, read, vars[i].value).Ok? {
      var value := VarValue(f, doc, read, vars[i].value).value;
      CaptureFromFirst(f, doc, read, vars, i + 1, acc[vars[i].key := value]);
    }
  }

  /** `setVars` writes exactly the step's variable names, each with the `toJsonElement` of its path's
      value, whenever it does not throw; names that are not variables of the step keep their cached
      values. It throws exactly when some variable fails, with the first variable's failure: a path that
      is not a string, a read JsonPath rejects, or a selected string that is no JSON text. */
  lemma CaptureRules(f: Formats, read: PathReader, response: Option<Json>, step: Obj, k: string)
    requires ResponseDocument(f, response).Ok? && VariablesOf(step).Ok?
    ensures var vars := VariablesOf(step).value; var doc := ResponseDocument(f, response).value;
      var c := CaptureOf(f, read, response, step);
      (c.failure.None? <==> forall t :: 0 <= t < |vars| ==> VarValue(f, doc, read, vars[t].value).Ok?) &&
      (c.failure.Some? ==>
         exists j :: 0 <= j < |vars| &&
           VarValue(f, doc, read, vars[j].value) == Err(c.failure.value) &&
           forall t :: 0 <= t < j ==> VarValue(f, doc, read, vars[t].value).Ok?)
    ensures var vars := VariablesOf(step).value; var doc := ResponseDocument(f, response).value;
      var c := CaptureOf(f, read, response, step);
      c.failure.None? ==>
        (k !in Keys(vars) ==> k !in c.writes) &&
        (forall j :: 0 <= j < |vars| && UniqueKeys(vars) ==>
          vars[j].key in c.writes && PathOf(vars[j].value).Ok? &&
          read(doc, PathOf(vars[j].value).value).Ok? &&
          ToJsonElement(f, read(doc, PathOf(vars[j].value).value).value) == Ok(c.writes[vars[j].key]))
  {
    var vars := VariablesOf(step).value;
    var doc := ResponseDocument(f, response).value;
    CaptureFromFirst(f, doc, read, vars, 0, map[]);
    if CaptureOf(f, read, response, step).failure.None? {
      if k !in Keys(vars) {
        CaptureFromKeep(f, doc, read, vars, 0, map[], k);
      }
      forall j | 0 <= j < |vars| && UniqueKeys(vars)
        ensures vars[j].key in CaptureOf(f, read, response, step).writes
        ensures PathOf(vars[j].value).Ok? && read(doc, PathOf(vars[j].value).value).Ok?
        ensures ToJsonElement(f, read(doc, PathOf(vars[j].value).value).value) ==
          Ok(CaptureOf(f, read, response, step).writes[vars[j].key])
      {
        CaptureFromGet(f, doc, read, vars, 0, map[], j);
      }
    }
  }

  /** A selected string that Gson cannot read as a JSON document ends the capture with Gson's exception,
      even though JsonPath found it: `{"token": "Bearer abc"}` with `{"t": "$.token"}`. */
  lemma StringSelectionIsReparsed(f: Formats, read: PathReader, doc: Obj, path: string, text: string, e: Exception)
    requires read(doc, path) == Ok(JStr(text)) && f.fromJson(text) == Err(e)
    ensures CaptureFrom(f, doc, read, [Member("t", JStr(path))], 0, map[]) == Capture(map[], Some(e))
  {
  }

  // ---------------------------------------------------------------------------------------------
  // The service registry

  /** An entry of `$import`: its name and the service description read from its path. */
  datatype Import = Import(name: string, description: Obj)

  /** One iteration of `initialize`: the path is read and the service built before the name is looked at. */
  function ImportOf(load: string -> Result<Obj>, entry: Json): Result<Import> {
    var info :- AsObject(entry);
    var p :- Field(info, "path");
    var path :- AsString(p);
    var description :- load(path);
    var blueprint :- BlueprintOf(description);
    var n :- Field(info, "name");
    var name :- AsString(n);
    Ok(Import(name, description))
  }

  /** The descriptions registered under each name and what was thrown, if anything. */
  datatype Registration = Registration(descriptions: map<string, Obj>, failure: Option<Exception>)

  function RegisterFrom(load: string -> Result<Obj>, imports: seq<Json>, i: nat, acc: map<string, Obj>): Registration
    requires i <= |imports|
    decreases |imports| - i
  {
    if i == |imports| then Registration(acc, None)
    else
      match ImportOf(load, imports[i])
      case Err(e) => Registration(acc, Some(e))
      case Ok(im) => RegisterFrom(load, imports, i + 1, acc[im.name := im.description])
  }

  /** `suite.get("$import").getAsJsonArray()`. */
  function ImportsOf(suite: Obj): Result<seq<Json>> {
    var i :- Field(suite, "$import");
    AsArray(i)
  }

  /** A name is registered with the description of the last import carrying it. */
  lemma {:induction false} RegisterLastWins(load: string -> Result<Obj>, imports: seq<Json>, i: nat,
                                            acc: map<string, Obj>, j: nat)
    requires i <= j < |imports| && RegisterFrom(load, imports, i, acc).failure.None?
    requires ImportOf(load, imports[j]).Ok?
    requires forall t :: j < t < |imports| ==>
      ImportOf(load, imports[t]).Ok? && ImportOf(load, imports[t]).value.name != ImportOf(load, imports[j]).value.name
    ensures var im := ImportOf(load, imports[j]).value; var d := RegisterFrom(load, imports, i, acc).descriptions;
      im.name in d && d[im.name] == im.description
    decreases |imports| - i
  {
    var im := ImportOf(load, imports[i]).value;
    if i == j {
      RegisterKeep(load, imports, i + 1, acc[im.name := im.description], im.name);
    } else {
      RegisterLastWins(load, imports, i + 1, acc[im.name := im.description], j);
    }
  }

  /** Imports named otherwise leave a name as it was. */
  lemma {:induction false} RegisterKeep(load: string -> Result<Obj>, imports: seq<Json>, i: nat,
                                        acc: map<string, Obj>, k: string)
    requires i <= |imports|
    requires forall t :: i <= t < |imports| ==> ImportOf(load, imports[t]).Ok? ==> ImportOf(load, imports[t]).value.name != k
    ensures var d := RegisterFrom(load, imports, i, acc).descriptions;
      (k in d <==> k in acc) && (k in acc ==> d[k] == acc[k])
    decreases |imports| - i
  {
    if i < |imports| && ImportOf(load, imports[i]).Ok? {
      var im := ImportOf(load, imports[i]).value;
      RegisterKeep(load, imports, i + 1, acc[im.name := im.description], k);
    }
  }

  /** One iteration of `initialize`: the service built from the imported description, and its name. */
  method LoadImport(load: string -> Result<Obj>, entry: Json) returns (r: Result<(string, Service)>)
    ensures r.Err? <==> ImportOf(load, entry).Err?
    ensures r.Err? ==> r.error == ImportOf(load, entry).error
    ensures r.Ok? ==> r.value.0 == ImportOf(load, entry).value.name
    ensures r.Ok? ==> var service := r.value.1;
      fresh(service) && fresh(service.client) && service.source == ImportOf(load, entry).value.description &&
      service.Built()
  {
    var info := AsObject(entry);
    if info.Err? {
      return Err(info.error);
    }
    var p := Field(info.value, "path");
    if p.Err? {
      return Err(p.error);
    }
    var path := AsString(p.value);
    if path.Err? {
      return Err(path.error);
    }
    var description := load(path.value);
    if description.Err? {
      return Err(description.error);
    }
    var service := Service.Create(description.value);
    if service.Err? {
      return Err(service.error);
    }
    var n := Field(info.value, "name");
    if n.Err? {
      return Err(n.error);
    }
    var name := AsString(n.value);
    if name.Err? {
      return Err(name.error);
    }
    return Ok((name.value, service.value));
  }

  /** No two names share a service or a client. */
  predicate DistinctServices(services: map<string, Service>) {
    forall a, b :: a in services && b in services && a != b ==>
      services[a] != services[b] && services[a].client != services[b].client
  }

  /** Each name holds a distinct service built from the description registered under it. */
  ghost predicate RegisteredAs(services: map<string, Service>, descriptions: map<string, Obj>)
    reads set k | k in services :: services[k], set k | k in services :: services[k].client
  {
    services.Keys == descriptions.Keys && DistinctServices(services) &&
    forall k :: k in services ==> services[k].source == descriptions[k] && services[k].Built()
  }

  /** Registering a new service keeps every name holding what was registered under it. */
  lemma RegisterKeepsServices(services: map<string, Service>, descriptions: map<string, Obj>, name: string, service: Service)
    requires RegisteredAs(services, descriptions) && service.Built()
    requires forall k :: k in services ==> services[k] != service && services[k].client != service.client
    ensures RegisteredAs(services[name := service], descriptions[name := service.source])
  {
  }

  /** The static `serviceMap`. */
  class Registry {
    var services: map<string, Service>
    /** Whether `serviceMap` has been assigned: it is null until an `initialize` gets past `$import`. */
    var initialized: bool

    constructor ()
      ensures services == map[] && !initialized
    {
      services := map[];
      initialized := false;
    }

    /** The registered services and their clients. */
    function Footprint(): set<object>
      reads this`services
    {
      (set k | k in services :: services[k] as object) + (set k | k in services :: services[k].client as object)
    }

    /** No two names share a service or a client. */
    predicate Distinct()
      reads this`services
    {
      DistinctServices(services)
    }

    /** The registry as a value. */
    function View(): map<string, ServiceView>
      reads this`services, Footprint()
    {
      map k | k in services :: services[k].View()
    }

    /** `get(name)`: the service registered under the name, or null; before any `initialize` has assigned
        the map, `serviceMap.get` throws NullPointerException. */
    function Get(name: string): (r: Result<Option<Service>>)
      reads this
      ensures r.Err? <==> !initialized
      ensures r.Err? ==> r.error.kind == NullPointer
      ensures r.Ok? ==> (r.value.Some? <==> name in services)
      ensures r.Ok? && r.value.Some? ==> r.value.value == services[name]
    {
      if !initialized then Err(Exception(NullPointer, "serviceMap is null"))
      else if name in services then Ok(Some(services[name])) else Ok(None)
    }

    /** Each name holds a service built from the description registered under it, and no two names share
        a service or a client. */
    ghost predicate Holds(descriptions: map<string, Obj>)
      reads this`services, Footprint()
    {
      RegisteredAs(services, descriptions)
    }

    /** `initialize(suite)`: a missing or malformed `$import` throws before the map is replaced; otherwise
        the map starts empty and each import registers a newly built service, the last of a name winning;
        a failing import stops the loop with the earlier ones registered. */
    method Initialize(suite: Obj, load: string -> Result<Obj>) returns (failure: Option<Exception>)
      modifies this
      ensures ImportsOf(suite).Err? ==>
        failure == Some(ImportsOf(suite).error) && services == old(services) && initialized == old(initialized)
      ensures ImportsOf(suite).Ok? ==> initialized
      ensures ImportsOf(suite).Ok? ==>
        var reg := RegisterFrom(load, ImportsOf(suite).value, 0, map[]);
        failure == reg.failure && Holds(reg.descriptions)
      ensures ImportsOf(suite).Ok? ==> forall k :: k in services ==> fresh(services[k]) && fresh(services[k].client)
    {
      var imports := ImportsOf(suite);
      if imports.Err? {
        return Some(imports.error);
      }
      var list := imports.value;
      services := map[];
      initialized := true;
      ghost var registered: map<string, Obj> := map[];
      var i := 0;
      while i < |list|
        invariant i <= |list| && initialized
        invariant RegisterFrom(load, list, i, registered) == RegisterFrom(load, list, 0, map[])
        invariant Holds(registered)
        invariant forall k :: k in services ==> fresh(services[k]) && fresh(services[k].client)
      {
        var im := LoadImport(load, list[i]);
        if im.Err? {
          return Some(im.error);
        }
        var (name, service) := im.value;
        RegisterKeepsServices(services, registered, name, service);
        services := services[name := service];
        registered := registered[name := service.source];
        i := i + 1;
      }
      return None;
    }
  }
}

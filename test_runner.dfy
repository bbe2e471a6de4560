/**
  `test/TestRunner`: a test case is a list of steps; each step names a registered service and one of
  its apis, merges its own `request` into the stored template (which keeps the result), installs the
  service validator with the step's `validation` on the service's client, and resolves the composed
  request. The first step that throws ends the test case.

  The registry is specified as a value (`Registry.View`): `StepSpec` is one step on that value, and
  `RunFrom` the whole test case.
 */
module TestRunner {
  import opened Wrappers
  import opened Json
  import opened Text
  import opened DataUtil
  import opened ExecutionSettings
  import opened AbstractClient
  import opened RunnableAspect
  import opened ServiceValidator
  import opened BuilderService
  import opened ServiceFactory
  import ClientCall

  // ---------------------------------------------------------------------------------------------
  // The test name

  /** `testcaseBeforeMethod` on a test case object: `testcaseId` and `testcaseName`, each with its runs of
      whitespace replaced by `_`, joined by `__`. */
  function CaseName(testCase: Obj): (r: Result<string>)
    ensures r.Ok? ==> HasNoWhitespace(r.value)
    ensures r.Ok? <==>
      Has(testCase, "testcaseId") && AsString(Get(testCase, "testcaseId").value).Ok? &&
      Has(testCase, "testcaseName") && AsString(Get(testCase, "testcaseName").value).Ok?
  {
    var i :- Field(testCase, "testcaseId");
    var id :- AsString(i);
    var n :- Field(testCase, "testcaseName");
    var name :- AsString(n);
    TestNameSound(id, name);
    Ok(TestName(id, name))
  }

  /** The name a test case shows is its id and name joined by `__`, apart from the whitespace, which
      `_` replaces; an id and a name without whitespace are kept as they are. */
  lemma CaseNameRules(testCase: Obj, id: string, name: string)
    requires Get(testCase, "testcaseId") == Some(JStr(id)) && Get(testCase, "testcaseName") == Some(JStr(name))
    ensures CaseName(testCase).Ok?
    ensures DropChar(CaseName(testCase).value, '_') ==
      DropChar(DropWhitespace(id), '_') + DropChar(DropWhitespace(name), '_')
    ensures HasNoWhitespace(id) && HasNoWhitespace(name) ==> CaseName(testCase).value == id + "__" + name
  {
    TestNameSound(id, name);
  }

  // ---------------------------------------------------------------------------------------------
  // One step, as a value

  /** What a step names, read in the order Java evaluates `deepMerge(step.getAsJsonObject("request"),
      ServiceFactory.get(service).getRequest(method))`. */
  datatype Target = Target(step: Obj, request: Option<Obj>, service: string, api: string)

  /** `step.getAsJsonObject("request")`: absent is null, anything but an object fails the cast. */
  function RequestOf(step: Obj): (r: Result<Option<Obj>>)
    ensures r.Ok? <==> !Has(step, "request") || Get(step, "request").value.JObj?
    ensures r.Ok? && Has(step, "request") ==> r.value == Some(Get(step, "request").value.members)
    ensures r.Ok? && !Has(step, "request") ==> r.value.None?
  {
    match Get(step, "request")
    case None => Ok(None)
    case Some(JObj(members)) => Ok(Some(members))
    case Some(j) => Err(Exception(ClassCast, ClassName(j) + " cannot be cast to JsonObject"))
  }

  /** `step.get(key).getAsString()`. */
  function StringMember(step: Obj, key: string): Result<string> {
    var v :- Field(step, key);
    AsString(v)
  }

  /** `ServiceFactory.get(name)` returned null, and `getRequest` was invoked on it. */
  const NullService := Exception(NullPointer, "service is null")

  /** The step object, its request, the service name and the api name. The argument of `getRequest` is
      read before the call dereferences the service, so a bad `method` is reported even for a service
      nobody registered; only then does an unknown service throw. */
  function TargetOf(registered: set<string>, step: Json): (r: Result<Target>)
    ensures r.Ok? ==> step.JObj? && r.value.step == step.members && r.value.service in registered
  {
    var s :- AsObject(step);
    var request :- RequestOf(s);
    var service :- StringMember(s, "service");
    var api :- StringMember(s, "method");
    var _ :- if service in registered then Ok(()) else Err(NullService);
    Ok(Target(s, request, service, api))
  }

  /** A step reads exactly when it is an object whose request, `service` and `method` read and whose
      service is registered. A `method` that does not read is reported whether or not the service is
      registered; an unregistered service throws only once `method` has read. */
  lemma TargetOfRules(registered: set<string>, step: Json)
    ensures var r := TargetOf(registered, step);
      r.Ok? <==>
        (step.JObj? && RequestOf(step.members).Ok? && StringMember(step.members, "service").Ok? &&
         StringMember(step.members, "method").Ok? && StringMember(step.members, "service").value in registered)
    ensures var r := TargetOf(registered, step);
      r.Ok? ==> r.value == Target(step.members, RequestOf(step.members).value,
        StringMember(step.members, "service").value, StringMember(step.members, "method").value)
    ensures (step.JObj? && RequestOf(step.members).Ok? && StringMember(step.members, "service").Ok? &&
             StringMember(step.members, "method").Err?) ==>
      TargetOf(registered, step) == Err(StringMember(step.members, "method").error)
    ensures (step.JObj? && RequestOf(step.members).Ok? && StringMember(step.members, "service").Ok? &&
             StringMember(step.members, "method").Ok? && StringMember(step.members, "service").value !in registered) ==>
      TargetOf(registered, step) == Err(NullService)
  {
  }

  /** `step.get("validation").getAsJsonObject()`. */
  function ValidationOf(step: Obj): Result<Obj> {
    var v :- Field(step, "validation");
    AsObject(v)
  }

  /** What `resolve` hands back to the runner. */
  function Resolved(outcome: Outcome): (r: Result<Option<Json>>)
    ensures r.Ok? <==> outcome.Returned?
    ensures r.Ok? ==> r.value == outcome.value
    ensures r.Err? ==> r.error == outcome.error
  {
    match outcome
    case Raised(e) => Err(e)
    case Returned(v) => Ok(v)
  }

  /** The policy an advised client runs a step under. */
  function StepPolicy(v: ServiceView, f: Formats, read: PathReader, validation: Obj): Policy {
    Policy(if v.overrides.Some? then v.overrides else v.settings, Some(ValidatorOf(f, read)), Some(validation))
  }

  /** The call once the request is merged: the validation is read, the request composed, and the call
      made (an advised client's override is cleared). */
  function CallOn(v: ServiceView, step: Obj, merged: Option<Obj>, f: Formats, read: PathReader, env: Environment)
    : (r: (Result<Option<Json>>, ServiceView))
    ensures r.1 == v.(overrides := r.1.overrides)
    ensures r.1.overrides != v.overrides ==> ClientCall.Advised(v.kind) && r.1.overrides.None?
    ensures merged.None? ==> r.0.Err?
  {
    match ValidationOf(step)
    case Err(e) => (Err(e), v)
    case Ok(validation) =>
      match RequestMerge(v.baseRequest, merged, Some(v.defaultRequest))
      case Err(e) => (Err(e), v)
      case Ok(sent) =>
        if ClientCall.Advised(v.kind)
        then (Resolved(OutcomeOf(StepPolicy(v, f, read, validation), env)), v.(overrides := None))
        else (Resolved(ClientCall.DirectOutcome(v.kind, sent, env)), v)
  }

  /** The template the step's request is merged into: the stored one, or null for an unknown api. */
  function Template(v: ServiceView, api: string): Option<Obj> {
    if api in v.templates then Some(v.templates[api]) else None
  }

  /** A step on its service: the template absorbs the merge whatever follows. */
  function StepOn(v: ServiceView, t: Target, f: Formats, read: PathReader, env: Environment): (Result<Option<Json>>, ServiceView) {
    var merged := DeepMerged(t.request, Template(v, t.api));
    var kept := v.(templates := if merged.Some? then v.templates[t.api := merged.value] else v.templates);
    CallOn(kept, t.step, merged, f, read, env)
  }

  /** One iteration of `run` on the registry as a value. */
  function StepSpec(reg: map<string, ServiceView>, step: Json, f: Formats, read: PathReader, env: Environment)
    : (Result<Option<Json>>, map<string, ServiceView>)
  {
    match TargetOf(reg.Keys, step)
    case Err(e) => (Err(e), reg)
    case Ok(t) =>
      var (r, v) := StepOn(reg[t.service], t, f, read, env);
      (r, reg[t.service := v])
  }

  // ---------------------------------------------------------------------------------------------
  // One step on the registry

  /** The objects a step may change: the service it names and that service's client. */
  function Touched(registry: Registry, step: Json): set<object>
    reads registry
  {
    match TargetOf(registry.services.Keys, step)
    case Err(_) => {}
    case Ok(t) => {registry.services[t.service], registry.services[t.service].client}
  }

  /** A step touches registered objects only. */
  lemma TouchedInFootprint(registry: Registry, step: Json)
    ensures Touched(registry, step) <= registry.Footprint()
  {
    var target := TargetOf(registry.services.Keys, step);
    if target.Ok? {
      var k := target.value.service;
      assert registry.services[k] in registry.Footprint();
      assert registry.services[k].client in registry.Footprint();
    }
  }

  /** The call on the service's client, after the merge: `withValidator(ServiceFactory::validate)`, then
      `withExpectedResult(validation)`, then `resolve(client.mergeRequest(request))`. The validator is
      installed before the validation is read; an advised client that gets as far as `resolve` leaves
      with all three per-call slots cleared, any other client keeps what was installed. The kind, the
      baseline settings and the requests are constants of the client. */
  method CallOnClient(client: Client, step: Obj, merged: Option<Obj>, f: Formats, read: PathReader, env: Environment)
    returns (r: Result<Option<Json>>)
    modifies client
    ensures var v := old(ServiceView(client.kind, client.settings, client.updatedSettings, client.baseRequest,
                                     client.defaultRequest, map[]));
      var (expected, after) := CallOn(v, step, merged, f, read, env);
      r == expected && client.updatedSettings == after.overrides
    ensures var resolved := ValidationOf(step).Ok? &&
                            RequestMerge(client.baseRequest, merged, Some(client.defaultRequest)).Ok?;
      client.validator == (if resolved && ClientCall.Advised(client.kind) then None else Some(ValidatorOf(f, read))) &&
      client.expectedResult ==
        (if ValidationOf(step).Err? then old(client.expectedResult)
         else if resolved && ClientCall.Advised(client.kind) then None
         else Some(ValidationOf(step).value))
  {
    var _ := client.WithValidator(Some(ValidatorOf(f, read)));
    var validation := ValidationOf(step);
    if validation.Err? {
      return Err(validation.error);
    }
    var _ := client.WithExpectedResult(Some(validation.value));
    var sent := client.MergeRequest(merged);
    if sent.Err? {
      return Err(sent.error);
    }
    var outcome := ClientCall.Resolve(client, sent.value, env);
    r := Resolved(outcome);
  }

  /** A step on the service it names. */
  method StepOnService(service: Service, t: Target, f: Formats, read: PathReader, env: Environment)
    returns (r: Result<Option<Json>>)
    modifies service, service.client
    ensures (r, service.View()) == StepOn(old(service.View()), t, f, read, env)
  {
    var merged := service.MergeTemplate(t.api, t.request);
    r := CallOnClient(service.client, t.step, merged, f, read, env);
    CallOnTemplates(old(service.View()).(templates := service.requestMap), t.step, merged, f, read, env);
  }

  /** The call does not touch the templates, and the client's fixed configuration plays no other part. */
  lemma CallOnTemplates(v: ServiceView, step: Obj, merged: Option<Obj>, f: Formats, read: PathReader, env: Environment)
    ensures var (r, after) := CallOn(v, step, merged, f, read, env);
      var (r2, after2) := CallOn(v.(templates := map[]), step, merged, f, read, env);
      r == r2 && after == v.(overrides := after2.overrides)
  {
  }

  /** A step whose target reads is the step on the service it names. */
  lemma StepSpecOn(reg: map<string, ServiceView>, step: Json, f: Formats, read: PathReader, env: Environment)
    ensures TargetOf(reg.Keys, step).Err? ==> StepSpec(reg, step, f, read, env) == (Err(TargetOf(reg.Keys, step).error), reg)
    ensures TargetOf(reg.Keys, step).Ok? ==>
      var t := TargetOf(reg.Keys, step).value;
      t.service in reg &&
      StepSpec(reg, step, f, read, env) ==
        (StepOn(reg[t.service], t, f, read, env).0, reg[t.service := StepOn(reg[t.service], t, f, read, env).1])
  {
  }

  /** The body of the loop of `run`: what the step returned (or threw), and the registry after it. */
  method RunStep(registry: Registry, step: Json, f: Formats, read: PathReader, env: Environment)
    returns (r: Result<Option<Json>>)
    requires registry.Distinct()
    modifies Touched(registry, step)
    ensures (r, registry.View()) == StepSpec(old(registry.View()), step, f, read, env)
  {
    ghost var before := registry.View();
    assert before.Keys == registry.services.Keys;
    var target := TargetOf(registry.services.Keys, step);
    if target.Err? {
      StepSpecOn(before, step, f, read, env);
      return Err(target.error);
    }
    var t := target.value;
    var service := registry.services[t.service];
    ghost var v := service.View();
    r := StepOnService(service, t, f, read, env);
    ghost var after := service.View();
    assert registry.View() == before[t.service := after] by {
      forall k | k in registry.services
        ensures registry.services[k].View() == before[t.service := after][k]
      {
        if k != t.service {
          assert registry.services[k] != service && registry.services[k].client != service.client;
        }
      }
    }
    StepSpecOn(before, step, f, read, env);
  }

  // ---------------------------------------------------------------------------------------------
  // A whole test case

  /** The steps that ran (what each returned), what ended the test case, and the state after it. */
  datatype RunResult<S> = RunResult(responses: seq<Option<Json>>, failure: Option<Exception>, state: S)

  /** One step on a state, given the step's position. */
  type Stepper<!S> = (S, Json, nat) -> (Result<Option<Json>>, S)

  /** The loop over the steps from step `i` on, stopping at the first step that throws. */
  function RunFrom<S>(step: Stepper<S>, state: S, steps: seq<Json>, i: nat, responses: seq<Option<Json>>): RunResult<S>
    requires i <= |steps|
    decreases |steps| - i
  {
    if i == |steps| then RunResult(responses, None, state)
    else
      var (r, next) := step(state, steps[i], i);
      match r
      case Err(e) => RunResult(responses, Some(e), next)
      case Ok(response) => RunFrom(step, next, steps, i + 1, responses + [response])
  }

  /** The step of `run` on the registry as a value; `network(i)` is what the transport answers at step `i`. */
  function RegistryStep(f: Formats, read: PathReader, network: nat -> Environment): Stepper<map<string, ServiceView>> {
    (reg: map<string, ServiceView>, step: Json, i: nat) => StepSpec(reg, step, f, read, network(i))
  }

  /** `run(data)`: the steps of the test case in order (`data.getAsJsonArray("steps")`, which must be an
      array), stopping at the first step that throws. */
  function RunSpec(reg: map<string, ServiceView>, data: Obj, f: Formats, read: PathReader, network: nat -> Environment)
    : RunResult<map<string, ServiceView>>
  {
    match StepsOf(Some(data))
    case Err(e) => RunResult([], Some(e), reg)
    case Ok(steps) => RunFrom(RegistryStep(f, read, network), reg, steps, 0, [])
  }

  class Runner {
    /** The name the current test shows (`getTestName`), null until a test case has named it. */
    var testcaseName: Option<string>

    constructor ()
      ensures testcaseName.None?
    {
      testcaseName := None;
    }

    /** `testcaseBeforeMethod`: when the first parameter is a test case object, the test takes its name;
        any other parameter list leaves the name as it was. */
    method BeforeMethod(parameters: Option<seq<Json>>) returns (failure: Option<Exception>)
      modifies this
      ensures parameters.None? || |parameters.value| == 0 || !parameters.value[0].JObj? ==>
        failure.None? && testcaseName == old(testcaseName)
      ensures parameters.Some? && |parameters.value| > 0 && parameters.value[0].JObj? ==>
        var name := CaseName(parameters.value[0].members);
        (name.Err? ==> failure == Some(name.error) && testcaseName == old(testcaseName)) &&
        (name.Ok? ==> failure.None? && testcaseName == Some(name.value))
    {
      failure := None;
      if parameters.Some? && |parameters.value| > 0 && parameters.value[0].JObj? {
        var name := CaseName(parameters.value[0].members);
        if name.Err? {
          failure := Some(name.error);
        } else {
          testcaseName := Some(name.value);
        }
      }
    }

    /** `run(data)` on the registry `initialize` built. */
    method Run(registry: Registry, data: Obj, f: Formats, read: PathReader, network: nat -> Environment)
      returns (result: RunResult<map<string, ServiceView>>)
      requires registry.Distinct()
      modifies registry.Footprint()
      ensures result == RunSpec(old(registry.View()), data, f, read, network)
      ensures registry.View() == result.state
    {
      var steps := StepsOf(Some(data));
      if steps.Err? {
        return RunResult([], Some(steps.error), registry.View());
      }
      var list := steps.value;
      var responses := [];
      var i := 0;
      while i < |list|
        invariant i <= |list|
        invariant RunFrom(RegistryStep(f, read, network), registry.View(), list, i, responses) ==
          RunSpec(old(registry.View()), data, f, read, network)
      {
        ghost var before := registry.View();
        TouchedInFootprint(registry, list[i]);
        var r := RunStep(registry, list[i], f, read, network(i));
        assert (r, registry.View()) == RegistryStep(f, read, network)(before, list[i], i);
        if r.Err? {
          return RunResult(responses, Some(r.error), registry.View());
        }
        responses := responses + [r.value];
        i := i + 1;
      }
      return RunResult(responses, None, registry.View());
    }
  }

  // ---------------------------------------------------------------------------------------------
  // Properties

  /** On an advised client whose policy enables the validator and rethrows failures, a step that returns
      a response object returns one that passed every JsonPath expression of its `validation` once its
      body was normalised. */
  lemma AdvisedStepIsValidated(v: ServiceView, f: Formats, read: PathReader, validation: Obj, env: Environment, response: Obj)
    requires var p := StepPolicy(v, f, read, validation);
      p.settings.Some? && p.settings.value.enableValidator && p.settings.value.throwOnError
    requires OutcomeOf(StepPolicy(v, f, read, validation), env) == Returned(Some(JObj(response)))
    ensures ValidationError(f, read, Validator(response, Some(validation))).None?
    ensures NormalizeBody(f, response).Ok? && StepsOf(Some(validation)).Ok?
    ensures forall t :: 0 <= t < |StepsOf(Some(validation)).value| ==>
      CheckOne(NormalizeBody(f, response).value, read, StepsOf(Some(validation)).value[t]).None?
  {
    var p := StepPolicy(v, f, read, validation);
    OutcomeRules(p, env);
    var last := RunPass(p, env, Passes(p, env) - 1);
    assert FinalFailure(p, env).None?;
    ValidationPasses(f, read, Validator(response, Some(validation)));
  }

  /** A step leaves every other service as it was, and the service it names keeps its client's
      configuration. */
  lemma StepFrame(reg: map<string, ServiceView>, step: Json, f: Formats, read: PathReader, env: Environment, k: string)
    ensures var next := StepSpec(reg, step, f, read, env).1;
      next.Keys == reg.Keys &&
      (k in reg ==>
        next[k].kind == reg[k].kind && next[k].settings == reg[k].settings &&
        next[k].baseRequest == reg[k].baseRequest && next[k].defaultRequest == reg[k].defaultRequest) &&
      (k in reg && (TargetOf(reg.Keys, step).Err? || TargetOf(reg.Keys, step).value.service != k) ==> next[k] == reg[k])
  {
  }

  /** A step that returns has merged its request into the stored template: the template the api holds
      afterwards is the merge of the step's request over the template it held before. */
  lemma StepKeepsMerge(reg: map<string, ServiceView>, step: Json, f: Formats, read: PathReader, env: Environment)
    requires TargetOf(reg.Keys, step).Ok?
    ensures var t := TargetOf(reg.Keys, step).value; var v := reg[t.service];
      var merged := DeepMerged(t.request, Template(v, t.api));
      var next := StepSpec(reg, step, f, read, env).1[t.service];
      (merged.Some? ==> next.templates == v.templates[t.api := merged.value]) &&
      (merged.None? ==> next.templates == v.templates && StepSpec(reg, step, f, read, env).0.Err?)
  {
    StepSpecOn(reg, step, f, read, env);
  }

  /** The test case stops at the first step that throws: every step before it returned, and nothing after
      it ran. */
  lemma {:induction false} RunStopsAtFailure<S>(step: Stepper<S>, state: S, steps: seq<Json>, i: nat, responses: seq<Option<Json>>)
    requires i <= |steps|
    ensures var r := RunFrom(step, state, steps, i, responses);
      |responses| <= |r.responses| && r.responses[..|responses|] == responses &&
      (r.failure.None? ==> |r.responses| == |responses| + |steps| - i) &&
      (r.failure.Some? ==> |r.responses| < |responses| + |steps| - i)
    decreases |steps| - i
  {
    if i < |steps| {
      var (r, next) := step(state, steps[i], i);
      if r.Ok? {
        RunStopsAtFailure(step, next, steps, i + 1, responses + [r.value]);
        var full := RunFrom(step, next, steps, i + 1, responses + [r.value]).responses;
        assert full[..|responses|] == (full[..|responses| + 1])[..|responses|];
      }
    }
  }
}

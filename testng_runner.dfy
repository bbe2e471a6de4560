/**
  `test/testng/TestRunner`: the same steps as `test/TestRunner`, each followed by `setVars`, which
  reads the step's `variables` (name to JsonPath) from the response into a cache the test case
  creates. The cache is local to `run` and nothing reads it back, so the capture can only add a way
  for a step to fail: a step without `variables`, a path that is not a string, a path the
  response does not hold, or a selected string that Gson cannot parse again as a JSON document
  (`toJsonElement`) ends the test case.
 */
module TestngRunner {
  import opened Wrappers
  import opened Json
  import opened RunnableAspect
  import opened ServiceValidator
  import opened BuilderService
  import opened ServiceFactory
  import opened TestRunner

  /** The registry as a value and the variable cache. */
  type RunState = (map<string, ServiceView>, map<string, Json>)

  /** `setVars` after a step: when the step returned, its variables are captured into the cache. */
  function Captured(stepped: Result<Option<Json>>, cache: map<string, Json>, step: Json, f: Formats, read: PathReader)
    : (Result<Option<Json>>, map<string, Json>)
  {
    match stepped
    case Err(e) => (Err(e), cache)
    case Ok(response) =>
      var c := CaptureOf(f, read, response, if step.JObj? then step.members else []);
      (if c.failure.Some? then Err(c.failure.value) else Ok(response), cache + c.writes)
  }

  /** One iteration of `run`: the step, then the capture of its variables. */
  function CapturingStep(f: Formats, read: PathReader, network: nat -> Environment): Stepper<RunState> {
    (state: RunState, step: Json, i: nat) =>
      var (r, reg) := StepSpec(state.0, step, f, read, network(i));
      var (r2, cache) := Captured(r, state.1, step, f, read);
      (r2, (reg, cache))
  }

  /** `run(data)` with a new, empty cache. */
  function RunSpec(reg: map<string, ServiceView>, data: Obj, f: Formats, read: PathReader, network: nat -> Environment)
    : RunResult<RunState>
  {
    match StepsOf(Some(data))
    case Err(e) => RunResult([], Some(e), (reg, map[]))
    case Ok(steps) => RunFrom(CapturingStep(f, read, network), (reg, map[]), steps, 0, [])
  }

  /** `run(data)` on the registry `initialize` built; the result's state holds the cache as `run` left it. */
  method Run(registry: Registry, data: Obj, f: Formats, read: PathReader, network: nat -> Environment)
    returns (result: RunResult<RunState>)
    requires registry.Distinct()
    modifies registry.Footprint()
    ensures result == RunSpec(old(registry.View()), data, f, read, network)
    ensures registry.View() == result.state.0
  {
    var cache := new VarCache();
    var steps := StepsOf(Some(data));
    if steps.Err? {
      return RunResult([], Some(steps.error), (registry.View(), cache.entries));
    }
    var list := steps.value;
    var responses := [];
    var i := 0;
    while i < |list|
      invariant i <= |list|
      invariant RunFrom(CapturingStep(f, read, network), (registry.View(), cache.entries), list, i, responses) ==
        RunSpec(old(registry.View()), data, f, read, network)
    {
      TouchedInFootprint(registry, list[i]);
      ghost var before := (registry.View(), cache.entries);
      var r, stepped := StepAndCapture(registry, cache, list[i], f, read, network(i));
      assert (r, (registry.View(), cache.entries)) == CapturingStep(f, read, network)(before, list[i], i);
      if r.Err? {
        return RunResult(responses, Some(r.error), (registry.View(), cache.entries));
      }
      responses := responses + [r.value];
      i := i + 1;
    }
    return RunResult(responses, None, (registry.View(), cache.entries));
  }

  /** The body of the loop of `run`: `stepped` is what the step itself returned, `r` the verdict after the
      capture. */
  method StepAndCapture(registry: Registry, cache: VarCache, step: Json, f: Formats, read: PathReader, env: Environment)
    returns (r: Result<Option<Json>>, ghost stepped: Result<Option<Json>>)
    requires registry.Distinct()
    modifies Touched(registry, step), cache
    ensures (stepped, registry.View()) == StepSpec(old(registry.View()), step, f, read, env)
    ensures (r, cache.entries) == Captured(stepped, old(cache.entries), step, f, read)
  {
    ghost var before := registry.View();
    ghost var target := TargetOf(registry.services.Keys, step);
    assert cache !in Touched(registry, step) by {
      if target.Ok? {
        var service := registry.services[target.value.service];
        assert Touched(registry, step) == {service, service.client};
      }
    }
    assert cache !in registry.Footprint();
    var result := RunStep(registry, step, f, read, env);
    stepped := result;
    StepReadsObject(before, step, f, read, env);
    ghost var mid := registry.View();
    assert forall k :: k in registry.services ==>
      registry.services[k] as object != cache && registry.services[k].client as object != cache;
    r := CaptureAfter(cache, result, step, f, read);
    assert registry.View() == mid;
  }

  /** `setVars(response, step, cache)` once the step returned. */
  method CaptureAfter(cache: VarCache, stepped: Result<Option<Json>>, step: Json, f: Formats, read: PathReader)
    returns (r: Result<Option<Json>>)
    requires stepped.Ok? ==> step.JObj?
    modifies cache
    ensures (r, cache.entries) == Captured(stepped, old(cache.entries), step, f, read)
  {
    if stepped.Err? {
      return stepped;
    }
    var failure := SetVars(f, read, stepped.value, step.members, cache);
    r := if failure.Some? then Err(failure.value) else stepped;
  }

  /** A step that returned was a JSON object. */
  lemma StepReadsObject(reg: map<string, ServiceView>, step: Json, f: Formats, read: PathReader, env: Environment)
    ensures StepSpec(reg, step, f, read, env).0.Ok? ==> step.JObj?
  {
    StepSpecOn(reg, step, f, read, env);
  }

  /** The capture changes nothing but the cache and the verdict: a test case the TestNG runner passes, the
      plain runner passes with the same responses and the same registry afterwards; one the plain runner
      fails, the TestNG runner fails too. */
  lemma {:induction false} CaptureOnlyAddsFailures(f: Formats, read: PathReader, network: nat -> Environment,
                                                   reg: map<string, ServiceView>, cache: map<string, Json>,
                                                   steps: seq<Json>, i: nat, responses: seq<Option<Json>>)
    requires i <= |steps|
    ensures var a := RunFrom(CapturingStep(f, read, network), (reg, cache), steps, i, responses);
      var b := RunFrom(RegistryStep(f, read, network), reg, steps, i, responses);
      (a.failure.None? ==> b.failure.None? && a.responses == b.responses && a.state.0 == b.state) &&
      (b.failure.Some? ==> a.failure.Some?)
    decreases |steps| - i
  {
    if i < |steps| {
      var (r, next) := StepSpec(reg, steps[i], f, read, network(i));
      if r.Ok? {
        var c := CaptureOf(f, read, r.value, if steps[i].JObj? then steps[i].members else []);
        if c.failure.None? {
          CaptureOnlyAddsFailures(f, read, network, next, cache + c.writes, steps, i + 1, responses + [r.value]);
        }
      }
    }
  }
}

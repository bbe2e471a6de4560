/**
  `RunnableAspect.aroundMethodAop`: the retry and validation loop woven around a client call.

  Before the loop the aspect captures the effective settings (the per-call override, else the
  client's baseline), the validator and the expected result, and clears the client's per-call
  slots. Each pass sleeps (the initial delay on the first pass, the retry delay on every later
  pass), runs the work, and validates the result; anything thrown in the pass, an interrupted
  sleep included, is a failed pass. The loop runs again while settings exist, retry is on, the
  pass count is within `maxRetries` and the pass failed. A final failure is rethrown when there
  are no settings or `throwOnError` is set; otherwise the last value the work produced comes back.

  What the work and the sleeps do on each pass is supplied as an environment; sleeps and calls
  are recorded as events.
 */
module RunnableAspect {
  import opened Wrappers
  import opened Json
  import opened ExecutionSettings
  import opened AbstractClient

  /** What `proceed` does on one pass: return a value (its JSON tree; None for null), or throw. */
  datatype WorkResult = Produced(value: Option<Json>) | Threw(error: Exception)

  /** One pass of the environment: whether a sleep on this pass is interrupted, and what the work does. */
  datatype Attempt = Attempt(sleepInterrupted: bool, work: WorkResult)

  type Environment = nat -> Attempt

  /** What the aspect does that can be observed: a sleep, a call of the work, a call of the validator. */
  datatype Event = Wait(ms: int) | Proceed | Validate(input: Validator)

  /** What the aspect captured before the loop. */
  datatype Policy = Policy(settings: Option<Settings>, validator: Option<ValidatorFn>, expected: Option<Obj>)

  /** One pass: its events, the value the work returned if it returned, and the failure if any. */
  datatype PassResult = PassResult(events: seq<Event>, produced: Option<Option<Json>>, failure: Option<Exception>)

  /** How the advised call ends. */
  datatype Outcome = Raised(error: Exception) | Returned(value: Option<Json>)

  /** The `CoreException` wrapping an `InterruptedException` thrown by a sleep. */
  const Interrupted := Exception(Core, "java.lang.InterruptedException: sleep interrupted")

  // ---------------------------------------------------------------------------------------------
  // One pass

  /** `wait`: `waitIfInitialDelay` then `waitIfRetry`. */
  function WaitEvents(settings: Option<Settings>, isRetry: bool): (r: seq<Event>)
    ensures |r| <= 1
    ensures settings.None? ==> r == []
    ensures settings.Some? && isRetry ==> r == [Wait(settings.value.retryDelay)]
    ensures settings.Some? && !isRetry ==> r == if settings.value.initialDelay > 0 then [Wait(settings.value.initialDelay)] else []
  {
    (if settings.Some? && !isRetry && settings.value.initialDelay > 0 then [Wait(settings.value.initialDelay)] else [])
    + (if settings.Some? && isRetry then [Wait(settings.value.retryDelay)] else [])
  }

  /** Whether the wait of a pass actually sleeps (`TimeUnit.sleep` returns at once for a delay <= 0), so
      that an interruption can surface: the initial delay on the first pass, the retry delay on later
      ones. */
  predicate Sleeps(settings: Option<Settings>, isRetry: bool) {
    settings.Some? && (if isRetry then settings.value.retryDelay > 0 else settings.value.initialDelay > 0)
  }

  /** `runValidation`: when settings exist, `enableValidator` is set and a validator is present, the
      result (`{}` for null) is handed to the validator with the expected result; a result that is not
      a JSON object fails before the validator is called. */
  function Validation(p: Policy, v: Option<Json>): (seq<Event>, Option<Exception>) {
    if p.settings.Some? && p.settings.value.enableValidator && p.validator.Some? then
      var actual := if v.None? then Ok([]) else AsObject(v.value);
      if actual.Err? then ([], Some(actual.error))
      else
        var input := Validator(actual.value, p.expected);
        ([Validate(input)], p.validator.value(input))
    else ([], None)
  }

  /** The body of the `try` in one pass of the loop. */
  function Pass(p: Policy, isRetry: bool, a: Attempt): PassResult {
    var waits := WaitEvents(p.settings, isRetry);
    if a.sleepInterrupted && Sleeps(p.settings, isRetry) then PassResult(waits, None, Some(Interrupted))
    else
      match a.work
      case Threw(e) => PassResult(waits + [Proceed], None, Some(e))
      case Produced(v) =>
        var (events, failure) := Validation(p, v);
        PassResult(waits + [Proceed] + events, Some(v), failure)
  }

  /** Pass `i` of the loop: `isRetry` is false on the first pass and true on every later one. */
  function RunPass(p: Policy, env: Environment, i: nat): PassResult {
    Pass(p, i > 0, env(i))
  }

  // ---------------------------------------------------------------------------------------------
  // The whole loop

  /** The most passes the loop can make: `maxRetries + 1` with settings and retry on, else one. */
  function MaxPasses(p: Policy): (r: nat)
    ensures r >= 1
  {
    if p.settings.Some? && p.settings.value.retry && p.settings.value.maxRetries >= 0
    then p.settings.value.maxRetries + 1 else 1
  }

  /** The number of passes made, counting from pass `i` on: stop after a successful pass or after the last pass
      the budget allows. */
  function PassesFrom(p: Policy, env: Environment, i: nat): (r: nat)
    requires i < MaxPasses(p)
    ensures i < r <= MaxPasses(p)
    ensures RunPass(p, env, r - 1).failure.None? || r == MaxPasses(p)
    decreases MaxPasses(p) - i
  {
    if RunPass(p, env, i).failure.None? || i + 1 == MaxPasses(p) then i + 1
    else PassesFrom(p, env, i + 1)
  }

  function Passes(p: Policy, env: Environment): nat
    ensures 1 <= Passes(p, env) <= MaxPasses(p)
  {
    PassesFrom(p, env, 0)
  }

  /** The events of the first `n` passes. */
  function TraceOf(p: Policy, env: Environment, n: nat): seq<Event> {
    if n == 0 then [] else TraceOf(p, env, n - 1) + RunPass(p, env, n - 1).events
  }

  /** `object` after `n` passes: the value of the latest pass whose work returned, or null. */
  function LastProduced(p: Policy, env: Environment, n: nat): Option<Json> {
    if n == 0 then None
    else if RunPass(p, env, n - 1).produced.Some? then RunPass(p, env, n - 1).produced.value
    else LastProduced(p, env, n - 1)
  }

  function FinalFailure(p: Policy, env: Environment): Option<Exception> {
    RunPass(p, env, Passes(p, env) - 1).failure
  }

  /** Whether a final failure is rethrown. */
  predicate Throws(p: Policy) {
    p.settings.None? || p.settings.value.throwOnError
  }

  function OutcomeOf(p: Policy, env: Environment): Outcome {
    var f := FinalFailure(p, env);
    if f.Some? && Throws(p) then Raised(f.value) else Returned(LastProduced(p, env, Passes(p, env)))
  }

  /** The do/while loop of `aroundMethodAop` over the captured policy. */
  method RunLoop(p: Policy, env: Environment) returns (outcome: Outcome, trace: seq<Event>, passes: nat)
    ensures passes == Passes(p, env)
    ensures trace == TraceOf(p, env, passes)
    ensures outcome == OutcomeOf(p, env)
  {
    var result: Option<Json> := None;
    var retryCount: nat := 0;
    var isRetry := false;
    var exception: Option<Exception> := None;
    trace := [];
    var again := true;
    while again
      invariant retryCount <= MaxPasses(p)
      invariant again ==> retryCount < MaxPasses(p) && isRetry == (retryCount > 0)
      invariant again ==> PassesFrom(p, env, retryCount) == Passes(p, env)
      invariant !again ==> 0 < retryCount == Passes(p, env)
      invariant !again ==> exception == RunPass(p, env, retryCount - 1).failure
      invariant trace == TraceOf(p, env, retryCount)
      invariant result == LastProduced(p, env, retryCount)
      decreases MaxPasses(p) - retryCount, again
    {
      var pass := Pass(p, isRetry, env(retryCount));
      assert pass == RunPass(p, env, retryCount);
      PassUnfolds(p, env, retryCount);
      trace := trace + pass.events;
      if pass.produced.Some? {
        result := pass.produced.value;
      }
      exception := pass.failure;
      if exception.Some? {
        isRetry := true;
      }
      retryCount := retryCount + 1;
      again := p.settings.Some? && p.settings.value.retry && retryCount <= p.settings.value.maxRetries
        && exception.Some?;
    }
    passes := retryCount;
    OutcomeAfter(p, env, exception, result);
    outcome := if exception.Some? && (p.settings.None? || p.settings.value.throwOnError) then Raised(exception.value)
               else Returned(result);
  }

  /** How the call ends, given the last pass's failure and the latest value the work returned. */
  lemma OutcomeAfter(p: Policy, env: Environment, exception: Option<Exception>, result: Option<Json>)
    requires exception == RunPass(p, env, Passes(p, env) - 1).failure
    requires result == LastProduced(p, env, Passes(p, env))
    ensures OutcomeOf(p, env) == if exception.Some? && Throws(p) then Raised(exception.value) else Returned(result)
  {
  }

  /** What pass `i` adds to the trace and to the latest value, and whether the loop goes on after it. */
  lemma PassUnfolds(p: Policy, env: Environment, i: nat)
    requires i < MaxPasses(p)
    ensures TraceOf(p, env, i + 1) == TraceOf(p, env, i) + RunPass(p, env, i).events
    ensures LastProduced(p, env, i + 1) ==
      if RunPass(p, env, i).produced.Some? then RunPass(p, env, i).produced.value else LastProduced(p, env, i)
    ensures RunPass(p, env, i).failure.None? || i + 1 == MaxPasses(p) ==> PassesFrom(p, env, i) == i + 1
    ensures RunPass(p, env, i).failure.Some? && i + 1 < MaxPasses(p) ==> PassesFrom(p, env, i) == PassesFrom(p, env, i + 1)
  {
  }

  // ---------------------------------------------------------------------------------------------
  // The advice

  /** `getSettings`: for a client, the per-call override when set, else its baseline; nothing otherwise. */
  function EffectiveSettings(target: Client?): (r: Option<Settings>)
    reads target
    ensures target == null ==> r.None?
    ensures target != null && target.updatedSettings.Some? ==> r == target.updatedSettings
    ensures target != null && target.updatedSettings.None? ==> r == target.settings
  {
    if target == null then None
    else if target.updatedSettings.Some? then target.updatedSettings
    else target.settings
  }

  /** The policy captured from the advised object; an object that is not a client has none. */
  function CapturedPolicy(target: Client?): Policy
    reads target
  {
    if target == null then Policy(None, None, None)
    else Policy(EffectiveSettings(target), target.validator, target.expectedResult)
  }

  /** `aroundMethodAop` around a call on `target` (null when the advised object is not a `Client`). */
  method AroundMethod(target: Client?, env: Environment) returns (outcome: Outcome, trace: seq<Event>)
    modifies target
    ensures outcome == OutcomeOf(old(CapturedPolicy(target)), env)
    ensures trace == TraceOf(old(CapturedPolicy(target)), env, Passes(old(CapturedPolicy(target)), env))
    ensures target != null ==> target.updatedSettings.None? && target.expectedResult.None? && target.validator.None?
  {
    var settings := EffectiveSettings(target);
    var validator: Option<ValidatorFn> := if target == null then None else target.validator;
    var expectedResult := if target == null then None else target.expectedResult;
    var policy := Policy(settings, validator, expectedResult);
    if target != null {
      target.Reset();
    }
    var passes;
    outcome, trace, passes := RunLoop(policy, env);
  }

  // ---------------------------------------------------------------------------------------------
  // Properties

  /** With settings, retry on and `maxRetries` = n >= 0, the work runs at most n + 1 times, and exactly
      n + 1 times when every pass fails. */
  lemma {:induction false} RetryBudget(p: Policy, env: Environment)
    requires p.settings.Some? && p.settings.value.retry && p.settings.value.maxRetries >= 0
    ensures Passes(p, env) <= p.settings.value.maxRetries + 1
    ensures (forall i :: 0 <= i <= p.settings.value.maxRetries ==> RunPass(p, env, i).failure.Some?) ==>
      Passes(p, env) == p.settings.value.maxRetries + 1
  {
  }

  /** Without settings, or with retry off, the work runs exactly once. */
  lemma SinglePass(p: Policy, env: Environment)
    requires p.settings.None? || !p.settings.value.retry
    ensures Passes(p, env) == 1
  {
  }

  /** The loop stops at the first successful pass: every earlier pass failed, and the pass count is one
      past the first success when there is one within the budget. */
  lemma StopsAtFirstSuccess(p: Policy, env: Environment, k: nat)
    requires k < MaxPasses(p) && RunPass(p, env, k).failure.None?
    requires forall j :: 0 <= j < k ==> RunPass(p, env, j).failure.Some?
    ensures Passes(p, env) == k + 1
    ensures FinalFailure(p, env).None?
  {
    StopsFrom(p, env, 0, k);
  }

  lemma {:induction false} StopsFrom(p: Policy, env: Environment, i: nat, k: nat)
    requires i <= k < MaxPasses(p) && RunPass(p, env, k).failure.None?
    requires forall j :: i <= j < k ==> RunPass(p, env, j).failure.Some?
    ensures PassesFrom(p, env, i) == k + 1
    decreases k - i
  {
    if i < k {
      StopsFrom(p, env, i + 1, k);
    }
  }

  /** Every pass before the last one failed: the loop only goes on after a failure. */
  lemma {:induction false} EarlierPassesFailed(p: Policy, env: Environment, i: nat)
    requires i < MaxPasses(p)
    ensures forall j :: i <= j < PassesFrom(p, env, i) - 1 ==> RunPass(p, env, j).failure.Some?
    decreases MaxPasses(p) - i
  {
    if RunPass(p, env, i).failure.Some? && i + 1 < MaxPasses(p) {
      EarlierPassesFailed(p, env, i + 1);
    }
  }

  /** The sleep durations recorded in a trace, in order. */
  function WaitTimes(t: seq<Event>): seq<int> {
    if t == [] then []
    else (if t[0].Wait? then [t[0].ms] else []) + WaitTimes(t[1..])
  }

  lemma {:induction false} WaitTimesAppend(a: seq<Event>, b: seq<Event>)
    ensures WaitTimes(a + b) == WaitTimes(a) + WaitTimes(b)
  {
    if a == [] {
      assert a + b == b;
    } else {
      var head := if a[0].Wait? then [a[0].ms] else [];
      assert (a + b)[0] == a[0];
      assert (a + b)[1..] == a[1..] + b;
      assert WaitTimes(a + b) == head + WaitTimes(a[1..] + b);
      WaitTimesAppend(a[1..], b);
      assert head + (WaitTimes(a[1..]) + WaitTimes(b)) == (head + WaitTimes(a[1..])) + WaitTimes(b);
    }
  }

  /** `k` copies of `x`. */
  function Repeat(x: int, k: nat): (r: seq<int>)
    ensures |r| == k && forall i :: 0 <= i < k ==> r[i] == x
  {
    if k == 0 then [] else Repeat(x, k - 1) + [x]
  }

  lemma PassWaits(p: Policy, env: Environment, i: nat)
    ensures WaitTimes(RunPass(p, env, i).events) ==
      if p.settings.None? then []
      else if i > 0 then [p.settings.value.retryDelay]
      else if p.settings.value.initialDelay > 0 then [p.settings.value.initialDelay]
      else []
  {
    var pass := RunPass(p, env, i);
    var waits := WaitEvents(p.settings, i > 0);
    assert WaitTimes(waits) == if waits == [] then [] else [waits[0].ms] by {
      if waits != [] {
        assert waits[1..] == [];
      }
    }
    var rest := pass.events[|waits|..];
    assert pass.events == waits + rest;
    assert forall j :: 0 <= j < |rest| ==> !rest[j].Wait?;
    NoWaits(rest);
    WaitTimesAppend(waits, rest);
  }

  lemma {:induction false} NoWaits(t: seq<Event>)
    requires forall j :: 0 <= j < |t| ==> !t[j].Wait?
    ensures WaitTimes(t) == []
  {
    if t != [] {
      NoWaits(t[1..]);
    }
  }

  /** The sleeps of `n` passes: the initial delay once, before the first pass, when it is positive; then
      the retry delay before each of the other n - 1 passes. Without settings, none. */
  lemma {:induction false} TraceWaits(p: Policy, env: Environment, n: nat)
    requires n >= 1
    ensures WaitTimes(TraceOf(p, env, n)) ==
      if p.settings.None? then []
      else
        (if p.settings.value.initialDelay > 0 then [p.settings.value.initialDelay] else [])
        + Repeat(p.settings.value.retryDelay, n - 1)
  {
    var last := WaitTimes(RunPass(p, env, n - 1).events);
    assert last == if p.settings.None? then []
      else if n > 1 then [p.settings.value.retryDelay]
      else if p.settings.value.initialDelay > 0 then [p.settings.value.initialDelay]
      else [] by {
      PassWaits(p, env, n - 1);
    }
    if n == 1 {
      assert TraceOf(p, env, 1) == [] + RunPass(p, env, 0).events;
      assert [] + RunPass(p, env, 0).events == RunPass(p, env, 0).events;
    } else {
      var prev := WaitTimes(TraceOf(p, env, n - 1));
      assert WaitTimes(TraceOf(p, env, n)) == prev + last by {
        WaitTimesAppend(TraceOf(p, env, n - 1), RunPass(p, env, n - 1).events);
      }
      TraceWaits(p, env, n - 1);
      if p.settings.Some? {
        var first := if p.settings.value.initialDelay > 0 then [p.settings.value.initialDelay] else [];
        var d := p.settings.value.retryDelay;
        assert prev == first + Repeat(d, n - 2);
        assert Repeat(d, n - 1) == Repeat(d, n - 2) + [d];
        assert first + Repeat(d, n - 1) == (first + Repeat(d, n - 2)) + [d];
      }
    }
  }

  /** An interrupted sleep is a failed pass like any other, and it is retried while the budget lasts. */
  lemma InterruptedSleepIsRetried(p: Policy, env: Environment, i: nat)
    requires i < Passes(p, env) && i + 1 < MaxPasses(p)
    requires env(i).sleepInterrupted && Sleeps(p.settings, i > 0)
    ensures RunPass(p, env, i).failure == Some(Interrupted)
    ensures Passes(p, env) > i + 1
  {
  }

  /** The validator is called on a pass only when settings exist, `enableValidator` is set and a
      validator is present; when it is, a null result is validated as `{}`. A rejecting validator
      fails the pass. */
  lemma ValidationGate(p: Policy, isRetry: bool, a: Attempt)
    ensures var r := Pass(p, isRetry, a);
      (exists j :: 0 <= j < |r.events| && r.events[j].Validate?) ==>
        p.settings.Some? && p.settings.value.enableValidator && p.validator.Some?
    ensures var r := Pass(p, isRetry, a);
      p.settings.Some? && p.settings.value.enableValidator && p.validator.Some? &&
      !(a.sleepInterrupted && Sleeps(p.settings, isRetry)) && a.work == Produced(None) ==>
        Validate(Validator([], p.expected)) in r.events &&
        r.failure == p.validator.value(Validator([], p.expected))
  {
    var r := Pass(p, isRetry, a);
    var waits := WaitEvents(p.settings, isRetry);
    if p.settings.Some? && p.settings.value.enableValidator && p.validator.Some? &&
      !(a.sleepInterrupted && Sleeps(p.settings, isRetry)) && a.work == Produced(None) {
      assert r.events == waits + [Proceed] + [Validate(Validator([], p.expected))];
    }
  }

  /** How the call ends: the final failure is rethrown when there are no settings or `throwOnError` is
      set; otherwise the latest value the work returned comes back (even one that then failed
      validation), or null when the work never returned. */
  lemma OutcomeRules(p: Policy, env: Environment)
    ensures FinalFailure(p, env).Some? && Throws(p) ==> OutcomeOf(p, env) == Raised(FinalFailure(p, env).value)
    ensures FinalFailure(p, env).None? || !Throws(p) ==>
      OutcomeOf(p, env) == Returned(LastProduced(p, env, Passes(p, env)))
    ensures FinalFailure(p, env).None? ==>
      RunPass(p, env, Passes(p, env) - 1).produced.Some? &&
      OutcomeOf(p, env) == Returned(RunPass(p, env, Passes(p, env) - 1).produced.value)
  {
  }

  /** `LastProduced` is the value of the latest pass whose work returned. */
  lemma {:induction false} LastProducedIsLatest(p: Policy, env: Environment, n: nat, k: nat)
    requires k < n && RunPass(p, env, k).produced.Some?
    requires forall j :: k < j < n ==> RunPass(p, env, j).produced.None?
    ensures LastProduced(p, env, n) == RunPass(p, env, k).produced.value
  {
    if n - 1 != k {
      LastProducedIsLatest(p, env, n - 1, k);
    }
  }

  /** Under the default settings the work runs at most three times, there is no initial sleep, every
      retry sleeps 1000 ms first, and a final failure is rethrown. */
  lemma DefaultPolicy(v: Option<ValidatorFn>, e: Option<Obj>, env: Environment)
    ensures var p := Policy(Some(Default()), v, e);
      MaxPasses(p) == 3 && Passes(p, env) <= 3 && Throws(p) &&
      WaitTimes(TraceOf(p, env, Passes(p, env))) == Repeat(1000, Passes(p, env) - 1)
  {
    var p := Policy(Some(Default()), v, e);
    TraceWaits(p, env, Passes(p, env));
  }

  /** An object that is not a client gets one pass, no sleep, no validation, and its failure rethrown. */
  lemma NoClientNoPolicy(env: Environment)
    ensures var p := CapturedPolicy(null);
      Passes(p, env) == 1 && TraceOf(p, env, 1) == RunPass(p, env, 0).events &&
      (env(0).work.Threw? ==> OutcomeOf(p, env) == Raised(env(0).work.error)) &&
      (env(0).work.Produced? ==> OutcomeOf(p, env) == Returned(env(0).work.value))
  {
    var p := CapturedPolicy(null);
    assert TraceOf(p, env, 1) == [] + RunPass(p, env, 0).events;
  }
}

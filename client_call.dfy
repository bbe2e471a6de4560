/**
  `client.resolve(request)` as callers see it. The SOAP and Kafka clients mark `resolve` as
  `@Runnable`, so the retry aspect runs around it. The Unirest, REST-Assured REST and Oracle clients
  do not, so they make one direct call. The Unirest client routes the request itself before the
  network call. What the transport answers on each pass is the environment.
 */
module ClientCall {
  import opened Wrappers
  import opened Json
  import opened AbstractClient
  import opened RunnableAspect
  import UnirestClient

  /** Whether the client's `resolve` carries `@Runnable`. */
  predicate Advised(kind: ClientKind) {
    kind == RestAssuredSoap || kind == Kafka
  }

  /** A direct `resolve`: the Unirest client rejects a request it cannot route; otherwise the first
      transport answer is the outcome. */
  function DirectOutcome(kind: ClientKind, request: Obj, env: Environment): Outcome {
    if kind == Unirest && UnirestClient.Route(request).Err? then Raised(UnirestClient.Route(request).error)
    else
      match env(0).work
      case Threw(e) => Raised(e)
      case Produced(v) => Returned(v)
  }

  /** `resolve` on a client: an advised client runs the retry aspect with the policy it held before the
      call and has its per-call slots cleared; any other client makes one call and keeps its slots. */
  method Resolve(client: Client, request: Obj, env: Environment) returns (outcome: Outcome)
    modifies client
    ensures Advised(client.kind) ==> outcome == OutcomeOf(old(CapturedPolicy(client)), env)
    ensures Advised(client.kind) ==>
      client.updatedSettings.None? && client.expectedResult.None? && client.validator.None?
    ensures !Advised(client.kind) ==> outcome == DirectOutcome(client.kind, request, env)
    ensures !Advised(client.kind) ==> unchanged(client)
  {
    if Advised(client.kind) {
      var trace;
      outcome, trace := AroundMethod(client, env);
    } else {
      outcome := DirectOutcome(client.kind, request, env);
    }
  }

  /** A direct call behaves as the aspect does around an object that is not a client: one pass, no
      sleep, no validation, the failure rethrown. */
  lemma DirectIsSinglePass(kind: ClientKind, request: Obj, env: Environment)
    requires !Advised(kind) && (kind != Unirest || UnirestClient.Route(request).Ok?)
    ensures DirectOutcome(kind, request, env) == OutcomeOf(CapturedPolicy(null), env)
  {
    NoClientNoPolicy(env);
  }
}

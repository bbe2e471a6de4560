/**
  `service/Service`: the older service wrapper. It has the same three per-call slots as the clients,
  but they stay on the wrapper: `resolve` hands the request to the client unchanged, so only the
  client's own slots take part in the call. `mergeRequest` is a stub that answers null.
 */
module LegacyService {
  import opened Wrappers
  import opened Json
  import opened ExecutionSettings
  import opened AbstractClient
  import opened RunnableAspect
  import ClientCall

  class Service {
    const settings: Option<Settings>
    var updatedSettings: Option<Settings>
    var expectedResult: Option<Obj>
    var validator: Option<ValidatorFn>
    /** What `ClientFactory.getClient(clientType)` returned to the constructor. */
    const client: Client

    predicate Cleared()
      reads this
    {
      updatedSettings.None? && expectedResult.None? && validator.None?
    }

    /** The constructor stores the baseline, calls `reset`, and keeps the client built for the type. */
    constructor (settings: Option<Settings>, client: Client)
      ensures this.settings == settings && this.client == client && Cleared()
    {
      this.settings := settings;
      this.client := client;
      new;
      Reset();
    }

    method Reset()
      modifies this
      ensures Cleared()
    {
      updatedSettings := None;
      expectedResult := None;
      validator := None;
    }

    method WithSettings(s: Option<Settings>) returns (r: Service)
      modifies this
      ensures r == this && updatedSettings == s
      ensures expectedResult == old(expectedResult) && validator == old(validator)
    {
      updatedSettings := s;
      r := this;
    }

    method WithValidator(v: Option<ValidatorFn>) returns (r: Service)
      modifies this
      ensures r == this && validator == v
      ensures updatedSettings == old(updatedSettings) && expectedResult == old(expectedResult)
    {
      validator := v;
      r := this;
    }

    method WithExpectedResult(e: Option<Obj>) returns (r: Service)
      modifies this
      ensures r == this && expectedResult == e
      ensures updatedSettings == old(updatedSettings) && validator == old(validator)
    {
      expectedResult := e;
      r := this;
    }

    /** `mergeRequest(newRequest, type)`: null, whatever the request. */
    function MergeRequest(newRequest: Option<Obj>): (r: Option<Obj>)
      ensures r.None?
    {
      None
    }

    /** `resolve(request)`: the client's `resolve` on the same request; the wrapper's own slots are
        neither read nor changed. */
    method Resolve(request: Obj, env: Environment) returns (outcome: Outcome)
      modifies client
      ensures unchanged(this)
      ensures ClientCall.Advised(client.kind) ==> outcome == OutcomeOf(old(CapturedPolicy(client)), env)
      ensures !ClientCall.Advised(client.kind) ==> outcome == ClientCall.DirectOutcome(client.kind, request, env)
    {
      outcome := ClientCall.Resolve(client, request, env);
    }
  }
}

/**
  `service/base/AbstractBaseService`: a baseline policy fixed at construction and three per-call slots
  (a policy override, an expected result and a validator) that the `with*` setters fill and `reset`
  clears. `runner/Runnable` is this class with nothing added but its delegating `run`.
 */
module BaseService {
  import opened Wrappers
  import opened Json
  import opened ExecutionSettings
  import opened AbstractClient

  class BaseService {
    const settings: Option<Settings>
    var updatedSettings: Option<Settings>
    var expectedResult: Option<Obj>
    var validator: Option<ValidatorFn>

    /** No per-call slot is set. */
    predicate Cleared()
      reads this
    {
      updatedSettings.None? && expectedResult.None? && validator.None?
    }

    /** The constructor stores the baseline and then calls `reset`. */
    constructor (settings: Option<Settings>)
      ensures this.settings == settings && Cleared()
    {
      this.settings := settings;
      new;
      Reset();
    }

    /** `reset`: clears the three slots; the baseline is final. */
    method Reset()
      modifies this
      ensures Cleared()
    {
      updatedSettings := None;
      expectedResult := None;
      validator := None;
    }

    method WithSettings(s: Option<Settings>) returns (r: BaseService)
      modifies this
      ensures r == this && updatedSettings == s
      ensures expectedResult == old(expectedResult) && validator == old(validator)
    {
      updatedSettings := s;
      r := this;
    }

    method WithValidator(v: Option<ValidatorFn>) returns (r: BaseService)
      modifies this
      ensures r == this && validator == v
      ensures updatedSettings == old(updatedSettings) && expectedResult == old(expectedResult)
    {
      validator := v;
      r := this;
    }

    method WithExpectedResult(e: Option<Obj>) returns (r: BaseService)
      modifies this
      ensures r == this && expectedResult == e
      ensures updatedSettings == old(updatedSettings) && validator == old(validator)
    {
      expectedResult := e;
      r := this;
    }
  }
}

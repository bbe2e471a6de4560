/**
  `runner/RunnableFactory`: one slot (a `ThreadLocal` in Java, a single field here) holding the
  current `Runnable`. `get` fills the slot when it is empty or when a new instance is asked for, and
  otherwise hands back what it holds, whatever settings are passed.
 */
module RunnableFactory {
  import opened Wrappers
  import opened ExecutionSettings
  import opened BaseService

  class RunnableFactory {
    /** The thread's `Runnable`, null until the first `get`. */
    var runner: BaseService?

    constructor ()
      ensures runner == null
    {
      runner := null;
    }

    /** `get(settings, newInstance)`: a new `Runnable` over `settings` when the slot is empty or
        `newInstance` holds; otherwise the one already held. Never null. */
    method Get(settings: Option<Settings>, newInstance: bool) returns (r: BaseService)
      modifies this
      ensures runner == r
      ensures old(runner) == null || newInstance ==> fresh(r) && r.settings == settings && r.Cleared()
      ensures old(runner) != null && !newInstance ==> r == old(runner)
    {
      if runner == null || newInstance {
        runner := null;
        runner := new BaseService(settings);
      }
      r := runner;
    }

    /** `get()`: `get` with the builder's default settings, keeping an existing instance. */
    method GetDefault() returns (r: BaseService)
      modifies this
      ensures runner == r
      ensures old(runner) == null ==> fresh(r) && r.settings == Some(Default()) && r.Cleared()
      ensures old(runner) != null ==> r == old(runner)
    {
      r := Get(Some(Default()), false);
    }
  }
}

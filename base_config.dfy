/**
  `config/BaseConfig`: the environment name and the set of contexts a run is configured for. A
  process-wide slot holds the configuration: the first `configure` fills it and later ones hand back
  what it holds, while `reconfigure` always replaces it. The system properties `env` and `context`
  are parameters.
 */
module BaseConfig {
  import opened Wrappers
  import opened Json
  import opened Text

  const DefaultName: string := "DEFAULT"

  /** A configuration; both fields are final. */
  datatype Config = Config(env: string, context: set<string>)

  /** The private constructor: the contexts are "DEFAULT" and the given ones. */
  function NewConfig(env: string, contexts: set<string>): (r: Config)
    ensures r.env == env
    ensures DefaultName in r.context
    ensures forall c :: c in r.context <==> c == DefaultName || c in contexts
  {
    Config(env, {DefaultName} + contexts)
  }

  // ---------------------------------------------------------------------------------------------
  // configure(): from the system properties

  /** The `env` property upper-cased, or "DEFAULT" when it is not set. */
  function PropertyEnv(env: Option<string>): string {
    if env.Some? then ToUpper(env.value) else DefaultName
  }

  /** The `context` property split on whitespace runs, each piece upper-cased; {"DEFAULT"} when it is
      not set. */
  function PropertyContexts(context: Option<string>): set<string> {
    if context.None? then {DefaultName}
    else set p | p in Split(context.value) :: ToUpper(p)
  }

  /** The `HashSet` `configure()` fills, one piece of the split property at a time. */
  method PropertyContextSet(context: Option<string>) returns (r: set<string>)
    ensures r == PropertyContexts(context)
  {
    if context.None? {
      return {DefaultName};
    }
    var pieces := Split(context.value);
    r := {};
    var i := 0;
    while i < |pieces|
      invariant i <= |pieces|
      invariant r == set j | 0 <= j < i :: ToUpper(pieces[j])
    {
      r := r + {ToUpper(pieces[i])};
      i := i + 1;
    }
    assert r == set p | p in pieces :: ToUpper(p) by {
      forall c | c in set p | p in pieces :: ToUpper(p)
        ensures c in r
      {
        var p :| p in pieces && c == ToUpper(p);
        var j :| 0 <= j < |pieces| && pieces[j] == p;
      }
    }
  }

  /** What `configure()` passes on: an upper-case environment that reads as the property apart from case,
      and contexts that are exactly the pieces of the property, upper-cased, none holding whitespace. */
  lemma PropertyConfigNormalised(env: Option<string>, context: Option<string>)
    ensures IsUpperCase(PropertyEnv(env))
    ensures env.Some? ==> EqualsIgnoreCase(PropertyEnv(env), env.value)
    ensures forall c :: c in PropertyContexts(context) ==> IsUpperCase(c) && HasNoWhitespace(c)
    ensures context.Some? ==> forall p :: p in Split(context.value) ==> ToUpper(p) in PropertyContexts(context)
    ensures context.Some? ==> forall c :: c in PropertyContexts(context) <==>
      exists p :: p in Split(context.value) && c == ToUpper(p)
  {
    if env.Some? {
      ToUpperSound(env.value);
    }
    if context.Some? {
      var pieces := Split(context.value);
      SplitSound(context.value);
      forall c | c in PropertyContexts(context)
        ensures IsUpperCase(c) && HasNoWhitespace(c)
      {
        var p :| p in pieces && c == ToUpper(p);
        var j :| 0 <= j < |pieces| && pieces[j] == p;
        ToUpperSound(p);
      }
    }
  }

  // ---------------------------------------------------------------------------------------------
  // configure(json)

  /** `json.has("env") ? json.get("env").getAsString().toUpperCase() : "DEFAULT"`. */
  function JsonEnv(json: Obj): Result<string> {
    if Has(json, "env") then
      var s :- AsString(Get(json, "env").value);
      Ok(ToUpper(s))
    else Ok(DefaultName)
  }

  /** The `forEach` over the `context` array from element `i` on, each element read as a string and
      upper-cased into `acc`. */
  function ContextsFrom(elems: seq<Json>, i: nat, acc: set<string>): Result<set<string>>
    requires i <= |elems|
    decreases |elems| - i
  {
    if i == |elems| then Ok(acc)
    else
      var s :- AsString(elems[i]);
      ContextsFrom(elems, i + 1, acc + {ToUpper(s)})
  }

  /** The contexts `configure(json)` collects: the `context` array's strings upper-cased, or {"DEFAULT"}
      when there is no `context` member. */
  function JsonContexts(json: Obj): Result<set<string>> {
    if Has(json, "context") then
      var elems :- AsArray(Get(json, "context").value);
      ContextsFrom(elems, 0, {})
    else Ok({DefaultName})
  }

  /** What `configure(json)` passes on to `configure(env, context)`; a null document reads as `{}`. */
  function JsonSettings(json: Option<Obj>): Result<(string, set<string>)> {
    var o := if json.Some? then json.value else [];
    var env :- JsonEnv(o);
    var contexts :- JsonContexts(o);
    Ok((env, contexts))
  }

  /** The `HashSet` `configure(json)` fills from the `context` array. */
  method JsonContextSet(json: Obj) returns (r: Result<set<string>>)
    ensures r == JsonContexts(json)
  {
    if !Has(json, "context") {
      return Ok({DefaultName});
    }
    var elems := AsArray(Get(json, "context").value);
    if elems.Err? {
      return Err(elems.error);
    }
    var list := elems.value;
    var contexts: set<string> := {};
    var i := 0;
    while i < |list|
      invariant i <= |list|
      invariant ContextsFrom(list, i, contexts) == JsonContexts(json)
    {
      var s := AsString(list[i]);
      if s.Err? {
        return Err(s.error);
      }
      contexts := contexts + {ToUpper(s.value)};
      i := i + 1;
    }
    return Ok(contexts);
  }

  /** The fold reads every element as a string or fails at the first one that is not; it collects each
      element's upper-cased text. */
  lemma {:induction false} ContextsFromRules(elems: seq<Json>, i: nat, acc: set<string>)
    requires i <= |elems|
    ensures ContextsFrom(elems, i, acc).Ok? <==> forall j :: i <= j < |elems| ==> AsString(elems[j]).Ok?
    ensures ContextsFrom(elems, i, acc).Ok? ==>
      ContextsFrom(elems, i, acc).value == acc + set j | i <= j < |elems| :: ToUpper(AsString(elems[j]).value)
    decreases |elems| - i
  {
    if i < |elems| && AsString(elems[i]).Ok? {
      var s := AsString(elems[i]).value;
      ContextsFromRules(elems, i + 1, acc + {ToUpper(s)});
      if ContextsFrom(elems, i, acc).Ok? {
        var tail := set j | i + 1 <= j < |elems| :: ToUpper(AsString(elems[j]).value);
        var all := set j | i <= j < |elems| :: ToUpper(AsString(elems[j]).value);
        assert all == {ToUpper(s)} + tail by {
          forall c | c in all
            ensures c in {ToUpper(s)} + tail
          {
            var j :| i <= j < |elems| && c == ToUpper(AsString(elems[j]).value);
            if j > i {
              assert c in tail;
            }
          }
        }
      }
    }
  }

  /** `configure(json)` on its own terms: a missing `env` is "DEFAULT" and a present one is upper-cased;
      a missing `context` is {"DEFAULT"}; a null document configures the defaults. */
  lemma JsonConfigRules(json: Obj)
    ensures !Has(json, "env") ==> JsonEnv(json) == Ok(DefaultName)
    ensures JsonEnv(json).Ok? ==> IsUpperCase(JsonEnv(json).value)
    ensures Get(json, "env").Some? && Get(json, "env").value.JStr? ==>
      JsonEnv(json).Ok? && EqualsIgnoreCase(JsonEnv(json).value, Get(json, "env").value.s)
    ensures !Has(json, "context") ==> JsonContexts(json) == Ok({DefaultName})
    ensures JsonSettings(None) == Ok((DefaultName, {DefaultName}))
  {
    if Has(json, "env") && AsString(Get(json, "env").value).Ok? {
      ToUpperSound(AsString(Get(json, "env").value).value);
    }
    assert !Has([], "env") && !Has([], "context");
  }

  /** A `context` array of strings gives exactly their upper-cased texts. */
  lemma JsonContextsOfStrings(json: Obj, elems: seq<Json>)
    requires Get(json, "context") == Some(JArr(elems))
    requires forall j :: 0 <= j < |elems| ==> elems[j].JStr?
    ensures JsonContexts(json) == Ok(set j | 0 <= j < |elems| :: ToUpper(elems[j].s))
  {
    assert Has(json, "context");
    assert JsonContexts(json) == ContextsFrom(elems, 0, {});
    ContextsFromRules(elems, 0, {});
    assert forall j :: 0 <= j < |elems| ==> AsString(elems[j]).Ok?;
    var v := ContextsFrom(elems, 0, {}).value;
    var texts := set j | 0 <= j < |elems| :: ToUpper(elems[j].s);
    forall c | c in v
      ensures c in texts
    {
      var j :| 0 <= j < |elems| && c == ToUpper(AsString(elems[j]).value);
    }
    forall c | c in texts
      ensures c in v
    {
      var j :| 0 <= j < |elems| && c == ToUpper(elems[j].s);
      assert AsString(elems[j]) == Ok(elems[j].s);
    }
    assert v == texts;
  }

  // ---------------------------------------------------------------------------------------------
  // The slot

  /** The static `config` field. */
  class Configuration {
    var config: Option<Config>

    /** Whatever configuration the slot holds includes the "DEFAULT" context. */
    predicate Valid()
      reads this
    {
      config.Some? ==> DefaultName in config.value.context
    }

    constructor ()
      ensures config.None? && Valid()
    {
      config := None;
    }

    /** `reconfigure(env, context)`: a new configuration replaces whatever the slot held. */
    method Reconfigure(env: string, context: set<string>) returns (r: Config)
      modifies this
      ensures r == NewConfig(env, context) && config == Some(r)
      ensures Valid()
    {
      r := NewConfig(env, context);
      config := Some(r);
    }

    /** `configure(env, context)`: the held configuration, its arguments ignored, once there is one;
        otherwise `reconfigure`. */
    method Configure(env: string, context: set<string>) returns (r: Config)
      requires Valid()
      modifies this
      ensures config == Some(r) && Valid()
      ensures r == if old(config).Some? then old(config).value else NewConfig(env, context)
    {
      if config.None? {
        r := Reconfigure(env, context);
        return;
      }
      r := config.value;
    }

    /** `configure()`: from the system properties. */
    method ConfigureFromProperties(env: Option<string>, context: Option<string>) returns (r: Config)
      requires Valid()
      modifies this
      ensures config == Some(r) && Valid()
      ensures r == if old(config).Some? then old(config).value else NewConfig(PropertyEnv(env), PropertyContexts(context))
    {
      var contexts := PropertyContextSet(context);
      r := Configure(PropertyEnv(env), contexts);
    }

    /** `configure(json)`: a member that cannot be read throws before the slot is looked at. */
    method ConfigureFromJson(json: Option<Obj>) returns (r: Result<Config>)
      requires Valid()
      modifies this
      ensures Valid()
      ensures JsonSettings(json).Err? ==> r == Err(JsonSettings(json).error) && config == old(config)
      ensures JsonSettings(json).Ok? ==>
        r.Ok? && config == Some(r.value) &&
        r.value == if old(config).Some? then old(config).value
                   else NewConfig(JsonSettings(json).value.0, JsonSettings(json).value.1)
    {
      var o := if json.Some? then json.value else [];
      var env := JsonEnv(o);
      if env.Err? {
        return Err(env.error);
      }
      var contexts := JsonContextSet(o);
      if contexts.Err? {
        return Err(contexts.error);
      }
      var c := Configure(env.value, contexts.value);
      return Ok(c);
    }
  }
}

/**
 * The part of `validateFlowNodeConfig` shared by its two copies: once an
 * adapter has been found, the config is checked with the adapter's
 * `validateConfig`, and a rejected config is explained key by key against
 * the adapter's default config.
 */
module ConfigValidation {
  import opened JsValues
  import opened ModelAdapter

  /** `{ isValid, errors }` */
  datatype Verdict = Verdict(isValid: bool, errors: seq<string>)

  const MissingModelIdMessage := "Flow node is missing modelId"

  function InvalidModelIdMessage(modelId: string): string {
    "Flow node has invalid modelId: \"" + modelId + "\""
  }

  function ConfigInvalidMessage(modelId: string): string {
    "Configuration is invalid for model \"" + modelId + "\""
  }

  function WrongTypeMessage(key: string, expected: string, got: string): string {
    "Config property \"" + key + "\" has wrong type: expected " + expected + ", got " + got
  }

  function UnknownPropertyMessage(key: string, modelId: string): string {
    "Config has unknown property \"" + key + "\" for model \"" + modelId + "\""
  }

  /** The TypeError of calling `getDefaultConfig` on an adapter that has none. */
  const NoDefaultConfigMessage := "adapter.getDefaultConfig is not a function"

  /** What one config entry contributes: nothing, a type mismatch, or an unknown key. */
  function EntryError(key: string, value: Json, defaults: Fields, modelId: string): (e: Option<string>)
    ensures e.None? <==> HasKey(defaults, key) && TypeOf(value) == TypeOf(Lookup(defaults, key))
  {
    if HasKey(defaults, key) then
      var expected := TypeOf(Lookup(defaults, key));
      if TypeOf(value) != expected then Some(WrongTypeMessage(key, expected, TypeOf(value))) else None
    else Some(UnknownPropertyMessage(key, modelId))
  }

  /** Entry `(key, value)` of a config raises no error. */
  predicate EntryFits(entry: (string, Json), defaults: Fields) {
    HasKey(defaults, entry.0) && TypeOf(entry.1) == TypeOf(Lookup(defaults, entry.0))
  }

  /** The messages of the `Object.entries(config).forEach(...)` loop, in entry order. */
  function ConfigErrors(config: Fields, defaults: Fields, modelId: string): (errors: seq<string>)
    ensures |errors| <= |config|
    decreases |config|
  {
    if config == [] then []
    else
      var init, last := config[..|config| - 1], config[|config| - 1];
      var e := EntryError(last.0, last.1, defaults, modelId);
      ConfigErrors(init, defaults, modelId) + (if e.Some? then [e.value] else [])
  }

  /** The loop produces no message exactly when every entry fits the defaults. */
  lemma {:induction false} ConfigErrorsEmptyIff(config: Fields, defaults: Fields, modelId: string)
    ensures ConfigErrors(config, defaults, modelId) == [] <==> forall i :: 0 <= i < |config| ==> EntryFits(config[i], defaults)
    decreases |config|
  {
    if config != [] {
      var init := config[..|config| - 1];
      var last := config[|config| - 1];
      ConfigErrorsEmptyIff(init, defaults, modelId);
      var tail := if EntryFits(last, defaults) then [] else [EntryError(last.0, last.1, defaults, modelId).value];
      assert ConfigErrors(config, defaults, modelId) == ConfigErrors(init, defaults, modelId) + tail;
      if forall i :: 0 <= i < |config| ==> EntryFits(config[i], defaults) {
        forall i | 0 <= i < |init| ensures EntryFits(init[i], defaults) {
          assert init[i] == config[i];
        }
      }
      if ConfigErrors(config, defaults, modelId) == [] {
        assert |ConfigErrors(init, defaults, modelId)| == 0 && |tail| == 0;
        assert EntryFits(last, defaults);
        forall i | 0 <= i < |config| ensures EntryFits(config[i], defaults) {
          if i < |init| {
            assert init[i] == config[i];
          }
        }
      }
    }
  }

  /** The messages of a concatenation are those of its parts, in order. */
  lemma {:induction false} ConfigErrorsAppend(a: Fields, b: Fields, defaults: Fields, modelId: string)
    ensures ConfigErrors(a + b, defaults, modelId) == ConfigErrors(a, defaults, modelId) + ConfigErrors(b, defaults, modelId)
    decreases |b|
  {
    if b == [] {
      assert a + b == a;
    } else {
      var init := b[..|b| - 1];
      assert (a + b)[..|a + b| - 1] == a + init;
      ConfigErrorsAppend(a, init, defaults, modelId);
    }
  }

  /** One entry contributes exactly its own message, if any. */
  lemma ConfigErrorsSingle(entry: (string, Json), defaults: Fields, modelId: string)
    ensures ConfigErrors([entry], defaults, modelId) ==
      if EntryFits(entry, defaults) then [] else [EntryError(entry.0, entry.1, defaults, modelId).value]
  {
    assert [entry][..0] == [];
  }

  /** `Object.entries(config).forEach(([key, value]) => ...)`, pushing onto `errors`. */
  method CollectConfigErrors(errors: seq<string>, config: Fields, defaults: Fields, modelId: string)
    returns (errors': seq<string>)
    ensures errors' == errors + ConfigErrors(config, defaults, modelId)
  {
    errors' := errors;
    for i := 0 to |config|
      invariant errors' == errors + ConfigErrors(config[..i], defaults, modelId)
    {
      var (key, value) := config[i];
      assert config[..i + 1][..i] == config[..i];
      if HasKey(defaults, key) {
        var defaultValue := Lookup(defaults, key);
        if TypeOf(value) != TypeOf(defaultValue) {
          errors' := errors' + [WrongTypeMessage(key, TypeOf(defaultValue), TypeOf(value))];
        }
      } else {
        errors' := errors' + [UnknownPropertyMessage(key, modelId)];
      }
    }
    assert config[..|config|] == config;
  }

  /**
   * The verdict once `adapter` has been found for `modelId`: an absent
   * config is valid without asking the adapter; an accepted config is valid;
   * a rejected one gives the generic message followed by the per-key ones,
   * or throws when the adapter has no `getDefaultConfig`.
   */
  function AdapterVerdict(adapter: Adapter, modelId: string, config: Option<Fields>): (r: Result<Verdict>)
    ensures r.Ok? ==> (r.value.isValid <==> r.value.errors == [])
    ensures config.None? ==> r == Ok(Verdict(true, []))
    ensures config.Some? && ValidateConfig(adapter, Obj(config.value)) == Ok(true) ==> r == Ok(Verdict(true, []))
    ensures config.Some? && ValidateConfig(adapter, Obj(config.value)) == Ok(false) ==>
              if DefaultConfig(adapter).None? then r == Throw(NoDefaultConfigMessage)
              else r.Ok? && !r.value.isValid &&
                   r.value.errors == [ConfigInvalidMessage(modelId)] + ConfigErrors(config.value, DefaultConfig(adapter).value, modelId)
  {
    if config.None? then Ok(Verdict(true, []))
    else
      var valid :- ValidateConfig(adapter, Obj(config.value));
      if valid then Ok(Verdict(true, []))
      else if DefaultConfig(adapter).None? then Throw(NoDefaultConfigMessage)
      else
        var errors := [ConfigInvalidMessage(modelId)] + ConfigErrors(config.value, DefaultConfig(adapter).value, modelId);
        Ok(Verdict(errors == [], errors))
  }

  /** The verdict for a node whose adapter lookup gave `found`. */
  function NodeVerdict(found: Option<Adapter>, modelId: Option<string>, config: Option<Fields>): (r: Result<Verdict>)
    ensures r.Ok? ==> (r.value.isValid <==> r.value.errors == [])
    ensures modelId.None? || modelId.value == "" ==> r == Ok(Verdict(false, [MissingModelIdMessage]))
    ensures modelId.Some? && modelId.value != "" && found.None? ==>
              r == Ok(Verdict(false, [InvalidModelIdMessage(modelId.value)]))
    ensures modelId.Some? && modelId.value != "" && found.Some? ==> r == AdapterVerdict(found.value, modelId.value, config)
  {
    if modelId.None? || modelId.value == "" then Ok(Verdict(false, [MissingModelIdMessage]))
    else if found.None? then Ok(Verdict(false, [InvalidModelIdMessage(modelId.value)]))
    else AdapterVerdict(found.value, modelId.value, config)
  }

  /** The loop-free part of both `validateFlowNodeConfig` methods, with the per-key loop done by `CollectConfigErrors`. */
  method CheckWithAdapter(adapter: Adapter, modelId: string, config: Option<Fields>) returns (r: Result<Verdict>)
    ensures r == AdapterVerdict(adapter, modelId, config)
  {
    if config.None? {
      return Ok(Verdict(true, []));
    }
    var valid := ValidateConfig(adapter, Obj(config.value));
    if valid.Throw? {
      return Throw(valid.message);
    }
    var errors: seq<string> := [];
    if !valid.value {
      errors := errors + [ConfigInvalidMessage(modelId)];
      assert errors == [ConfigInvalidMessage(modelId)];
      var defaultConfig := DefaultConfig(adapter);
      if defaultConfig.None? {
        return Throw(NoDefaultConfigMessage);
      }
      errors := CollectConfigErrors(errors, config.value, defaultConfig.value, modelId);
      assert errors != [];
      return Ok(Verdict(|errors| == 0, errors));
    }
    return Ok(Verdict(|errors| == 0, errors));
  }
}

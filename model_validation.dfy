/**
 * The cross-checks between the PROVIDERS table and the adapter registry:
 * registry consistency, default-config compatibility across adapters of
 * one provider, the presence of the adapter members, their combination,
 * the exact-lookup copy of `validateFlowNodeConfig`, and the pre-run check
 * over a flow's nodes.
 */
module ModelValidation {
  import opened JsValues
  import opened ModelAdapter
  import opened Providers
  import opened ConfigValidation
  import opened Grouping
  import opened FlowTypes
  import FlowNodeValidation

  /** `${name}` for an adapter's `providerName`, which `OpenAIAdapter` leaves undefined. */
  function NameText(name: Option<string>): string {
    match name
    case None => "undefined"
    case Some(s) => s
  }

  function MissingInRegistryMessage(model: string, provider: string): string {
    "Model \"" + model + "\" from provider \"" + provider + "\" is missing in adapter registry"
  }

  function InconsistentProviderMessage(model: string, registered: Option<string>, provider: string): string {
    "Model \"" + model + "\" has inconsistent provider name: \"" + NameText(registered) +
    "\" in registry vs \"" + provider + "\" in providers list"
  }

  function UnlistedProviderMessage(modelId: string, provider: Option<string>): string {
    "Model \"" + modelId + "\" has provider \"" + NameText(provider) + "\" which is not in the PROVIDERS list"
  }

  function UnlistedModelMessage(modelId: string, provider: Option<string>): string {
    "Model \"" + modelId + "\" from provider \"" + NameText(provider) +
    "\" is in adapter registry but missing from PROVIDERS list"
  }

  /** The optional message as a list of zero or one. */
  function Listed(e: Option<string>): seq<string> {
    if e.Some? then [e.value] else []
  }

  // ---------------------------------------------------------------------
  // Registry consistency
  // ---------------------------------------------------------------------

  /** `new Set(models)` */
  function ModelSet(models: seq<string>): set<string> {
    set m | m in models
  }

  /** `providerModels`: a later provider of the same name replaces an earlier one, as `Map.set` does. */
  function ProviderModelMap(providers: seq<Provider>): map<string, set<string>>
    decreases |providers|
  {
    if providers == [] then map[]
    else
      var last := providers[|providers| - 1];
      ProviderModelMap(providers[..|providers| - 1])[last.name := ModelSet(last.models)]
  }

  /** The map has an entry for every listed name, holding the models of the last provider of that name. */
  lemma {:induction false} ProviderModelMapLastWins(providers: seq<Provider>, name: string)
    ensures name in ProviderModelMap(providers) <==> exists i :: 0 <= i < |providers| && providers[i].name == name
    ensures name in ProviderModelMap(providers) ==>
      exists i :: 0 <= i < |providers| && providers[i].name == name &&
                  ProviderModelMap(providers)[name] == ModelSet(providers[i].models) &&
                  forall j :: i < j < |providers| ==> providers[j].name != name
    decreases |providers|
  {
    if providers != [] {
      var init := providers[..|providers| - 1];
      ProviderModelMapLastWins(init, name);
      assert forall i :: 0 <= i < |init| ==> init[i] == providers[i];
      if providers[|providers| - 1].name != name && name in ProviderModelMap(init) {
        var i :| 0 <= i < |init| && init[i].name == name &&
                 ProviderModelMap(init)[name] == ModelSet(init[i].models) &&
                 forall j :: i < j < |init| ==> init[j].name != name;
        assert providers[i].name == name;
      }
    }
  }

  /** A PROVIDERS model is registered under the same provider name. */
  predicate ProviderModelOk(registry: Registry, provider: string, model: string) {
    Find(registry, model).Some? && ProviderName(Find(registry, model).value) == Some(provider)
  }

  /** What one PROVIDERS model contributes to the first pass. */
  function ProviderModelError(registry: Registry, provider: string, model: string): (e: Option<string>)
    ensures e.None? <==> ProviderModelOk(registry, provider, model)
  {
    match Find(registry, model)
    case None => Some(MissingInRegistryMessage(model, provider))
    case Some(adapter) =>
      if ProviderName(adapter) != Some(provider) then
        Some(InconsistentProviderMessage(model, ProviderName(adapter), provider))
      else None
  }

  /** The messages for one provider's models, in list order. */
  function ModelErrors(registry: Registry, provider: string, models: seq<string>): (errors: seq<string>)
    ensures |errors| <= |models|
    decreases |models|
  {
    if models == [] then []
    else
      ModelErrors(registry, provider, models[..|models| - 1]) +
      Listed(ProviderModelError(registry, provider, models[|models| - 1]))
  }

  /** The messages of the first pass, over PROVIDERS in order. */
  function ProviderSideErrors(registry: Registry, providers: seq<Provider>): (errors: seq<string>)
    ensures |errors| <= ModelCount(providers)
    decreases |providers|
  {
    if providers == [] then []
    else
      var last := providers[|providers| - 1];
      ProviderSideErrors(registry, providers[..|providers| - 1]) + ModelErrors(registry, last.name, last.models)
  }

  /** A registry entry's provider is listed, and lists its model id. */
  predicate RegistryEntryOk(providerModels: map<string, set<string>>, entry: (string, Adapter)) {
    var name := ProviderName(entry.1);
    name.Some? && name.value in providerModels && entry.0 in providerModels[name.value]
  }

  /** What one registry entry contributes to the second pass. */
  function RegistryEntryError(providerModels: map<string, set<string>>, entry: (string, Adapter)): (e: Option<string>)
    ensures e.None? <==> RegistryEntryOk(providerModels, entry)
  {
    var name := ProviderName(entry.1);
    if name.None? || name.value !in providerModels then Some(UnlistedProviderMessage(entry.0, name))
    else if entry.0 !in providerModels[name.value] then Some(UnlistedModelMessage(entry.0, name))
    else None
  }

  /** The messages of the second pass, over the registry entries in order. */
  function RegistrySideErrors(providerModels: map<string, set<string>>, entries: Registry): (errors: seq<string>)
    ensures |errors| <= |entries|
    decreases |entries|
  {
    if entries == [] then []
    else
      RegistrySideErrors(providerModels, entries[..|entries| - 1]) +
      Listed(RegistryEntryError(providerModels, entries[|entries| - 1]))
  }

  /** `validateModelRegistryConsistency()` over the two tables. */
  function RegistryConsistency(providers: seq<Provider>, registry: Registry): Verdict {
    var errors := ProviderSideErrors(registry, providers) + RegistrySideErrors(ProviderModelMap(providers), registry);
    Verdict(errors == [], errors)
  }

  /** Every PROVIDERS model is registered under its provider's name. */
  ghost predicate ProvidersCovered(providers: seq<Provider>, registry: Registry) {
    forall i, j :: 0 <= i < |providers| && 0 <= j < |providers[i].models| ==>
      ProviderModelOk(registry, providers[i].name, providers[i].models[j])
  }

  /** Every registry entry is listed under its provider. */
  ghost predicate RegistryCovered(providers: seq<Provider>, registry: Registry) {
    forall k :: 0 <= k < |registry| ==> RegistryEntryOk(ProviderModelMap(providers), registry[k])
  }

  lemma {:induction false} ModelErrorsEmptyIff(registry: Registry, provider: string, models: seq<string>)
    ensures ModelErrors(registry, provider, models) == [] <==>
            forall j :: 0 <= j < |models| ==> ProviderModelOk(registry, provider, models[j])
    decreases |models|
  {
    if models != [] {
      var init := models[..|models| - 1];
      ModelErrorsEmptyIff(registry, provider, init);
      assert forall j :: 0 <= j < |init| ==> init[j] == models[j];
    }
  }

  lemma {:induction false} ProviderSideEmptyIff(registry: Registry, providers: seq<Provider>)
    ensures ProviderSideErrors(registry, providers) == [] <==> ProvidersCovered(providers, registry)
    decreases |providers|
  {
    if providers != [] {
      var init := providers[..|providers| - 1];
      var last := providers[|providers| - 1];
      ProviderSideEmptyIff(registry, init);
      ModelErrorsEmptyIff(registry, last.name, last.models);
      assert forall i :: 0 <= i < |init| ==> init[i] == providers[i];
    }
  }

  lemma {:induction false} RegistrySideEmptyIff(providerModels: map<string, set<string>>, entries: Registry)
    ensures RegistrySideErrors(providerModels, entries) == [] <==>
            forall k :: 0 <= k < |entries| ==> RegistryEntryOk(providerModels, entries[k])
    decreases |entries|
  {
    if entries != [] {
      var init := entries[..|entries| - 1];
      RegistrySideEmptyIff(providerModels, init);
      assert forall k :: 0 <= k < |init| ==> init[k] == entries[k];
    }
  }

  /**
   * The tables are reported consistent exactly when every PROVIDERS model is
   * registered under its provider's name and every registry entry is listed
   * under its provider; all PROVIDERS-side messages precede the registry-side
   * ones.
   */
  lemma ConsistencyValidIff(providers: seq<Provider>, registry: Registry)
    ensures RegistryConsistency(providers, registry).isValid <==> RegistryConsistency(providers, registry).errors == []
    ensures RegistryConsistency(providers, registry).isValid <==>
            ProvidersCovered(providers, registry) && RegistryCovered(providers, registry)
    ensures RegistryConsistency(providers, registry).errors ==
            ProviderSideErrors(registry, providers) + RegistrySideErrors(ProviderModelMap(providers), registry)
  {
    ProviderSideEmptyIff(registry, providers);
    RegistrySideEmptyIff(ProviderModelMap(providers), registry);
  }

  /** Provider names are distinct. */
  ghost predicate DistinctNames(providers: seq<Provider>) {
    forall i, j :: 0 <= i < j < |providers| ==> providers[i].name != providers[j].name
  }

  /** Registry keys are distinct, as in an object literal. */
  ghost predicate DistinctModelIds(registry: Registry) {
    forall i, j :: 0 <= i < j < |registry| ==> registry[i].0 != registry[j].0
  }

  /** The (provider, model) pair appears in PROVIDERS. */
  ghost predicate ListedPair(providers: seq<Provider>, name: Option<string>, model: string) {
    name.Some? && exists i :: 0 <= i < |providers| && providers[i].name == name.value && model in providers[i].models
  }

  /** The (provider name, model) pair appears in the registry; the name may be undefined. */
  ghost predicate RegisteredPair(registry: Registry, name: Option<string>, model: string) {
    exists k :: 0 <= k < |registry| && registry[k].0 == model && ProviderName(registry[k].1) == name
  }

  /** With distinct keys, the entry under a key is the one lookup finds. */
  lemma FindDistinct(registry: Registry, k: nat)
    requires DistinctModelIds(registry) && k < |registry|
    ensures Find(registry, registry[k].0) == Some(registry[k].1)
  {
    FindFirst(registry, registry[k].0);
    var found := Find(registry, registry[k].0);
    var i :| 0 <= i < |registry| && registry[i] == (registry[k].0, found.value);
    assert i == k;
  }

  /**
   * When the (provider, model) pairs of the two tables coincide, the tables
   * are reported consistent. Distinct provider names and distinct registry
   * keys are needed: a repeated provider name hides the earlier list, and a
   * repeated key hides the later entry.
   */
  lemma CoincidingTablesConsistent(providers: seq<Provider>, registry: Registry)
    requires DistinctNames(providers) && DistinctModelIds(registry)
    requires forall name, model :: ListedPair(providers, name, model) <==> RegisteredPair(registry, name, model)
    ensures RegistryConsistency(providers, registry) == Verdict(true, [])
  {
    forall i, j | 0 <= i < |providers| && 0 <= j < |providers[i].models|
      ensures ProviderModelOk(registry, providers[i].name, providers[i].models[j])
    {
      assert ListedPair(providers, Some(providers[i].name), providers[i].models[j]);
      var k :| 0 <= k < |registry| && registry[k].0 == providers[i].models[j] &&
               ProviderName(registry[k].1) == Some(providers[i].name);
      FindDistinct(registry, k);
    }
    forall k | 0 <= k < |registry| ensures RegistryEntryOk(ProviderModelMap(providers), registry[k]) {
      var entry := registry[k];
      assert RegisteredPair(registry, ProviderName(entry.1), entry.0);
      if ProviderName(entry.1).Some? {
        var name := ProviderName(entry.1).value;
        var i :| 0 <= i < |providers| && providers[i].name == name && entry.0 in providers[i].models;
        ProviderModelMapLastWins(providers, name);
        var i' :| 0 <= i' < |providers| && providers[i'].name == name &&
                  ProviderModelMap(providers)[name] == ModelSet(providers[i'].models) &&
                  forall j :: i' < j < |providers| ==> providers[j].name != name;
        assert i' == i;
      }
    }
    ConsistencyValidIff(providers, registry);
  }

  /** When no PROVIDERS model is registered under its name, each one adds exactly one message. */
  lemma {:induction false} AllFlaggedCount(registry: Registry, providers: seq<Provider>)
    requires forall i, j :: 0 <= i < |providers| && 0 <= j < |providers[i].models| ==>
               !ProviderModelOk(registry, providers[i].name, providers[i].models[j])
    ensures |ProviderSideErrors(registry, providers)| == ModelCount(providers)
    decreases |providers|
  {
    if providers != [] {
      var init := providers[..|providers| - 1];
      var last := providers[|providers| - 1];
      assert forall i :: 0 <= i < |init| ==> init[i] == providers[i];
      AllFlaggedCount(registry, init);
      ModelErrorsAllFlagged(registry, last.name, last.models);
    }
  }

  lemma {:induction false} ModelErrorsAllFlagged(registry: Registry, provider: string, models: seq<string>)
    requires forall j :: 0 <= j < |models| ==> !ProviderModelOk(registry, provider, models[j])
    ensures |ModelErrors(registry, provider, models)| == |models|
    decreases |models|
  {
    if models != [] {
      var init := models[..|models| - 1];
      assert forall j :: 0 <= j < |init| ==> init[j] == models[j];
      ModelErrorsAllFlagged(registry, provider, init);
    }
  }

  /** No model is registered under a provider name in the shipped registry, whose one adapter has none. */
  lemma ShippedRegistryNamesNoProvider(provider: string, model: string)
    ensures !ProviderModelOk(AdapterRegistry, provider, model)
  {
    assert AdapterRegistry[1..] == [];
    assert Find(AdapterRegistry, model) == if model == "gpt-4o" then Some(OpenAI) else None;
  }

  /** The one shipped registry entry is reported as having an unlisted provider, whatever PROVIDERS holds. */
  lemma ShippedRegistrySide(providerModels: map<string, set<string>>)
    ensures RegistrySideErrors(providerModels, AdapterRegistry) == [UnlistedProviderMessage("gpt-4o", None)]
  {
    assert AdapterRegistry[..0] == [];
  }

  /**
   * The shipped tables disagree: "gpt-4o" is registered with no provider
   * name, so each of the 49 PROVIDERS models adds a message and the one
   * registry entry adds a last one.
   */
  lemma ShippedTablesInconsistent()
    ensures !RegistryConsistency(ProvidersTable, AdapterRegistry).isValid
    ensures |RegistryConsistency(ProvidersTable, AdapterRegistry).errors| == ModelCount(ProvidersTable) + 1 == 50
    ensures RegistryConsistency(ProvidersTable, AdapterRegistry).errors[ModelCount(ProvidersTable)] ==
            UnlistedProviderMessage("gpt-4o", None)
  {
    forall i, j | 0 <= i < |ProvidersTable| && 0 <= j < |ProvidersTable[i].models|
      ensures !ProviderModelOk(AdapterRegistry, ProvidersTable[i].name, ProvidersTable[i].models[j])
    {
      ShippedRegistryNamesNoProvider(ProvidersTable[i].name, ProvidersTable[i].models[j]);
    }
    AllFlaggedCount(AdapterRegistry, ProvidersTable);
    ShippedRegistrySide(ProviderModelMap(ProvidersTable));
    ProvidersTableCount();
  }

  /** The loop that fills `providerModels`. */
  method BuildProviderModels(providers: seq<Provider>) returns (providerModels: map<string, set<string>>)
    ensures providerModels == ProviderModelMap(providers)
  {
    providerModels := map[];
    for i := 0 to |providers|
      invariant providerModels == ProviderModelMap(providers[..i])
    {
      assert providers[..i + 1][..i] == providers[..i];
      providerModels := providerModels[providers[i].name := ModelSet(providers[i].models)];
    }
    assert providers[..|providers|] == providers;
  }

  /** `provider.models.forEach(...)`: what it pushes onto `errors`. */
  method CheckProviderModels(registry: Registry, provider: Provider) returns (errors: seq<string>)
    ensures errors == ModelErrors(registry, provider.name, provider.models)
  {
    errors := [];
    var models := provider.models;
    for j := 0 to |models|
      invariant errors == ModelErrors(registry, provider.name, models[..j])
    {
      assert models[..j + 1][..j] == models[..j];
      var found := Find(registry, models[j]);
      if found.None? {
        errors := errors + [MissingInRegistryMessage(models[j], provider.name)];
      } else if ProviderName(found.value) != Some(provider.name) {
        errors := errors + [InconsistentProviderMessage(models[j], ProviderName(found.value), provider.name)];
      }
    }
    assert models[..|models|] == models;
  }

  /** `PROVIDERS.forEach(...)`: the messages of the first pass. */
  method CheckProviders(registry: Registry, providers: seq<Provider>) returns (errors: seq<string>)
    ensures errors == ProviderSideErrors(registry, providers)
  {
    errors := [];
    for i := 0 to |providers|
      invariant errors == ProviderSideErrors(registry, providers[..i])
    {
      assert providers[..i + 1][..i] == providers[..i];
      var found := CheckProviderModels(registry, providers[i]);
      errors := errors + found;
    }
    assert providers[..|providers|] == providers;
  }

  /** `Object.entries(adapterRegistry).forEach(...)`: the messages of the second pass. */
  method CheckRegistryEntries(providerModels: map<string, set<string>>, registry: Registry) returns (errors: seq<string>)
    ensures errors == RegistrySideErrors(providerModels, registry)
  {
    errors := [];
    for k := 0 to |registry|
      invariant errors == RegistrySideErrors(providerModels, registry[..k])
    {
      assert registry[..k + 1][..k] == registry[..k];
      var (modelId, adapter) := registry[k];
      var name := ProviderName(adapter);
      if name.None? || name.value !in providerModels {
        errors := errors + [UnlistedProviderMessage(modelId, name)];
      } else if modelId !in providerModels[name.value] {
        errors := errors + [UnlistedModelMessage(modelId, name)];
      }
    }
    assert registry[..|registry|] == registry;
  }

  /** `validateModelRegistryConsistency()`: the two passes push onto one `errors` list. */
  method ValidateModelRegistryConsistency(providers: seq<Provider>, registry: Registry) returns (v: Verdict)
    ensures v == RegistryConsistency(providers, registry)
  {
    var providerModels := BuildProviderModels(providers);
    var errors := CheckProviders(registry, providers);
    var more := CheckRegistryEntries(providerModels, registry);
    errors := errors + more;
    v := Verdict(|errors| == 0, errors);
  }

  // ---------------------------------------------------------------------
  // Configuration compatibility
  // ---------------------------------------------------------------------

  /** `{ isValid, errors, warnings }` */
  datatype Report = Report(isValid: bool, errors: seq<string>, warnings: seq<string>)

  /** The errors and warnings one stretch of the checks pushes. */
  datatype Issues = Issues(errors: seq<string>, warnings: seq<string>)

  const NoIssues := Issues([], [])

  /** The pushes of one stretch followed by those of the next. */
  function Join(a: Issues, b: Issues): Issues {
    Issues(a.errors + b.errors, a.warnings + b.warnings)
  }

  /** `acc` followed by a stretch that may throw. */
  function After(acc: Issues, r: Result<Issues>): Result<Issues> {
    match r
    case Ok(x) => Ok(Join(acc, x))
    case Throw(m) => Throw(m)
  }

  function MissingKeyWarning(modelName: string, provider: Option<string>, key: string): string {
    "Model \"" + modelName + "\" from \"" + NameText(provider) + "\" is missing config key \"" + key +
    "\" that other models have"
  }

  function KeyTypeError(modelName: string, provider: Option<string>, key: string, got: string, expected: string): string {
    "Model \"" + modelName + "\" from \"" + NameText(provider) + "\" has config key \"" + key +
    "\" with type " + got + ", expected " + expected
  }

  function ExtraKeyWarning(modelName: string, provider: Option<string>, key: string): string {
    "Model \"" + modelName + "\" from \"" + NameText(provider) + "\" has extra config key \"" + key +
    "\" that other models don't have"
  }

  /** The TypeError of calling `getDefaultConfig` on a first adapter that has none. */
  const FirstNoDefaultConfigMessage := "firstAdapter.getDefaultConfig is not a function"

  /** `Object.values(adapterRegistry)`, each paired with its `providerName`. */
  function ProviderItems(registry: Registry): (items: seq<(Option<string>, Adapter)>)
    ensures |items| == |registry|
    ensures forall k :: 0 <= k < |registry| ==> items[k] == (ProviderName(registry[k].1), registry[k].1)
  {
    seq(|registry|, k requires 0 <= k < |registry| => (ProviderName(registry[k].1), registry[k].1))
  }

  /** A key both defaults have keeps its `typeof`. */
  predicate SameKind(firstConfig: Fields, config: Fields, key: string) {
    TypeOf(Lookup(firstConfig, key)) == TypeOf(Lookup(config, key))
  }

  /** The first pass over the first adapter's keys: a warning per key the later defaults lack. */
  function MissingKeyWarnings(modelName: string, provider: Option<string>, config: Fields, firstKeys: seq<string>): seq<string>
    decreases |firstKeys|
  {
    if firstKeys == [] then []
    else
      var key := firstKeys[|firstKeys| - 1];
      MissingKeyWarnings(modelName, provider, config, firstKeys[..|firstKeys| - 1]) +
      (if key !in Keys(config) then [MissingKeyWarning(modelName, provider, key)] else [])
  }

  /** The same pass: an error per shared key whose `typeof` differs. */
  function KeyTypeErrors(modelName: string, provider: Option<string>, firstConfig: Fields, config: Fields,
                         firstKeys: seq<string>): seq<string>
    decreases |firstKeys|
  {
    if firstKeys == [] then []
    else
      var key := firstKeys[|firstKeys| - 1];
      KeyTypeErrors(modelName, provider, firstConfig, config, firstKeys[..|firstKeys| - 1]) +
      (if key in Keys(config) && !SameKind(firstConfig, config, key)
       then [KeyTypeError(modelName, provider, key, TypeOf(Lookup(config, key)), TypeOf(Lookup(firstConfig, key)))]
       else [])
  }

  /** `configKeys.forEach(...)`: a warning per key the first adapter's defaults lack. */
  function ExtraKeyWarnings(modelName: string, provider: Option<string>, firstKeys: seq<string>,
                            configKeys: seq<string>): seq<string>
    decreases |configKeys|
  {
    if configKeys == [] then []
    else
      var key := configKeys[|configKeys| - 1];
      ExtraKeyWarnings(modelName, provider, firstKeys, configKeys[..|configKeys| - 1]) +
      (if key !in firstKeys then [ExtraKeyWarning(modelName, provider, key)] else [])
  }

  /** What comparing a later adapter's defaults `config` with the first adapter's pushes. */
  function ConfigIssues(provider: Option<string>, firstConfig: Fields, modelName: string, config: Fields): Issues {
    Issues(KeyTypeErrors(modelName, provider, firstConfig, config, Keys(firstConfig)),
           MissingKeyWarnings(modelName, provider, config, Keys(firstConfig)) +
           ExtraKeyWarnings(modelName, provider, Keys(firstConfig), Keys(config)))
  }

  /** The checks of one later adapter against the first adapter's defaults. */
  function AdapterIssues(provider: Option<string>, firstConfig: Fields, adapter: Adapter): Result<Issues> {
    match DefaultConfig(adapter)
    case None => Throw(NoDefaultConfigMessage)
    case Some(config) => Ok(ConfigIssues(provider, firstConfig, ModelName(adapter), config))
  }

  /** `adapters.slice(1).forEach(...)`: the later adapters in order, stopping at the first throw. */
  function LaterIssues(provider: Option<string>, firstConfig: Fields, adapters: seq<Adapter>): Result<Issues>
    decreases |adapters|
  {
    if adapters == [] then Ok(NoIssues)
    else
      var before :- LaterIssues(provider, firstConfig, adapters[..|adapters| - 1]);
      After(before, AdapterIssues(provider, firstConfig, adapters[|adapters| - 1]))
  }

  /** One provider's group: skipped with at most one adapter, else checked against the first. */
  function GroupIssues(provider: Option<string>, adapters: seq<Adapter>): Result<Issues> {
    if |adapters| <= 1 then Ok(NoIssues)
    else
      match DefaultConfig(adapters[0])
      case None => Throw(FirstNoDefaultConfigMessage)
      case Some(firstConfig) => LaterIssues(provider, firstConfig, adapters[1..])
  }

  /** `adaptersByProvider.forEach(...)`: the groups in insertion order, stopping at the first throw. */
  function AllGroupIssues(groups: Groups<Option<string>, Adapter>): Result<Issues>
    decreases |groups|
  {
    if groups == [] then Ok(NoIssues)
    else
      var before :- AllGroupIssues(groups[..|groups| - 1]);
      After(before, GroupIssues(groups[|groups| - 1].0, groups[|groups| - 1].1))
  }

  /** `validateConfigurationCompatibility()` over the registry. */
  function ConfigurationCompatibility(registry: Registry): Result<Report> {
    var issues :- AllGroupIssues(GroupBy(ProviderItems(registry)));
    Ok(Report(issues.errors == [], issues.errors, issues.warnings))
  }

  lemma {:induction false} KeyTypeErrorsEmptyIff(modelName: string, provider: Option<string>, firstConfig: Fields,
                                                 config: Fields, firstKeys: seq<string>)
    ensures KeyTypeErrors(modelName, provider, firstConfig, config, firstKeys) == [] <==>
            forall i :: 0 <= i < |firstKeys| && firstKeys[i] in Keys(config) ==> SameKind(firstConfig, config, firstKeys[i])
    decreases |firstKeys|
  {
    if firstKeys != [] {
      var init := firstKeys[..|firstKeys| - 1];
      var key := firstKeys[|firstKeys| - 1];
      KeyTypeErrorsEmptyIff(modelName, provider, firstConfig, config, init);
      var clash := key in Keys(config) && !SameKind(firstConfig, config, key);
      var tail := if clash
                  then [KeyTypeError(modelName, provider, key, TypeOf(Lookup(config, key)), TypeOf(Lookup(firstConfig, key)))]
                  else [];
      var errors := KeyTypeErrors(modelName, provider, firstConfig, config, firstKeys);
      var before := KeyTypeErrors(modelName, provider, firstConfig, config, init);
      assert errors == before + tail;
      assert |errors| == |before| + |tail|;
      assert |tail| == 0 <==> !clash;
      if |errors| == 0 {
        forall i | 0 <= i < |firstKeys| && firstKeys[i] in Keys(config)
          ensures SameKind(firstConfig, config, firstKeys[i])
        {
          if i < |init| { assert init[i] == firstKeys[i]; }
        }
      }
      if forall i :: 0 <= i < |firstKeys| && firstKeys[i] in Keys(config) ==> SameKind(firstConfig, config, firstKeys[i]) {
        assert forall i :: 0 <= i < |init| ==> init[i] == firstKeys[i];
        assert |before| == 0 && !clash;
      }
    }
  }

  lemma {:induction false} MissingKeyWarningsEmptyIff(modelName: string, provider: Option<string>, config: Fields,
                                                      firstKeys: seq<string>)
    ensures MissingKeyWarnings(modelName, provider, config, firstKeys) == [] <==>
            forall i :: 0 <= i < |firstKeys| ==> firstKeys[i] in Keys(config)
    decreases |firstKeys|
  {
    if firstKeys != [] {
      var init := firstKeys[..|firstKeys| - 1];
      MissingKeyWarningsEmptyIff(modelName, provider, config, init);
      assert forall i :: 0 <= i < |init| ==> init[i] == firstKeys[i];
    }
  }

  lemma {:induction false} ExtraKeyWarningsEmptyIff(modelName: string, provider: Option<string>, firstKeys: seq<string>,
                                                    configKeys: seq<string>)
    ensures ExtraKeyWarnings(modelName, provider, firstKeys, configKeys) == [] <==>
            forall i :: 0 <= i < |configKeys| ==> configKeys[i] in firstKeys
    decreases |configKeys|
  {
    if configKeys != [] {
      var init := configKeys[..|configKeys| - 1];
      ExtraKeyWarningsEmptyIff(modelName, provider, firstKeys, init);
      assert forall i :: 0 <= i < |init| ==> init[i] == configKeys[i];
    }
  }

  /**
   * Comparing a later adapter's defaults with the first's raises no warning
   * exactly when the two key sets are equal, and no error exactly when every
   * shared key has the same `typeof` in both.
   */
  lemma ConfigIssuesIff(provider: Option<string>, firstConfig: Fields, modelName: string, config: Fields)
    ensures ConfigIssues(provider, firstConfig, modelName, config).warnings == [] <==>
            forall key :: key in Keys(firstConfig) <==> key in Keys(config)
    ensures ConfigIssues(provider, firstConfig, modelName, config).errors == [] <==>
            forall key :: key in Keys(firstConfig) && key in Keys(config) ==> SameKind(firstConfig, config, key)
  {
    MissingKeyWarningsEmptyIff(modelName, provider, config, Keys(firstConfig));
    KeyTypeErrorsEmptyIff(modelName, provider, firstConfig, config, Keys(firstConfig));
    ExtraKeyWarningsEmptyIff(modelName, provider, Keys(firstConfig), Keys(config));
  }

  /** Once the later adapters throw, the rest of them is not looked at. */
  lemma {:induction false} LaterIssuesThrowSticks(provider: Option<string>, firstConfig: Fields, adapters: seq<Adapter>, n: nat)
    requires n <= |adapters| && LaterIssues(provider, firstConfig, adapters[..n]).Throw?
    ensures LaterIssues(provider, firstConfig, adapters) == LaterIssues(provider, firstConfig, adapters[..n])
    decreases |adapters|
  {
    if n < |adapters| {
      var init := adapters[..|adapters| - 1];
      assert init[..n] == adapters[..n];
      LaterIssuesThrowSticks(provider, firstConfig, init, n);
    } else {
      assert adapters[..n] == adapters;
    }
  }

  /** Once a group throws, the later groups are not looked at. */
  lemma {:induction false} AllGroupIssuesThrowSticks(groups: Groups<Option<string>, Adapter>, n: nat)
    requires n <= |groups| && AllGroupIssues(groups[..n]).Throw?
    ensures AllGroupIssues(groups) == AllGroupIssues(groups[..n])
    decreases |groups|
  {
    if n < |groups| {
      var init := groups[..|groups| - 1];
      assert init[..n] == groups[..n];
      AllGroupIssuesThrowSticks(init, n);
    } else {
      assert groups[..n] == groups;
    }
  }

  /** Some adapter of the list has no `getDefaultConfig`. */
  predicate SomeLacksDefaults(adapters: seq<Adapter>) {
    exists i :: 0 <= i < |adapters| && DefaultConfig(adapters[i]).None?
  }

  /** The later adapters throw exactly when one of them has no `getDefaultConfig`. */
  lemma {:induction false} LaterIssuesThrowIff(provider: Option<string>, firstConfig: Fields, adapters: seq<Adapter>)
    ensures LaterIssues(provider, firstConfig, adapters).Throw? <==> SomeLacksDefaults(adapters)
    ensures LaterIssues(provider, firstConfig, adapters).Throw? ==>
            LaterIssues(provider, firstConfig, adapters).message == NoDefaultConfigMessage
    decreases |adapters|
  {
    if adapters != [] {
      LaterIssuesThrowIff(provider, firstConfig, adapters[..|adapters| - 1]);
      SomeLacksDefaultsSnoc(adapters);
    }
  }

  lemma SomeLacksDefaultsSnoc(adapters: seq<Adapter>)
    requires adapters != []
    ensures SomeLacksDefaults(adapters) <==>
            SomeLacksDefaults(adapters[..|adapters| - 1]) || DefaultConfig(adapters[|adapters| - 1]).None?
  {
    var init := adapters[..|adapters| - 1];
    if SomeLacksDefaults(init) {
      var i :| 0 <= i < |init| && DefaultConfig(init[i]).None?;
      assert adapters[i] == init[i];
    }
    if SomeLacksDefaults(adapters) && DefaultConfig(adapters[|adapters| - 1]).Some? {
      var i :| 0 <= i < |adapters| && DefaultConfig(adapters[i]).None?;
      assert init[i] == adapters[i];
    }
  }

  /**
   * A provider's group throws exactly when it has more than one adapter and
   * one of them has no `getDefaultConfig`; a group of at most one adapter
   * raises nothing.
   */
  lemma GroupIssuesThrowIff(provider: Option<string>, adapters: seq<Adapter>)
    ensures |adapters| <= 1 ==> GroupIssues(provider, adapters) == Ok(NoIssues)
    ensures GroupIssues(provider, adapters).Throw? <==> |adapters| > 1 && SomeLacksDefaults(adapters)
  {
    if |adapters| > 1 && DefaultConfig(adapters[0]).Some? {
      LaterIssuesThrowIff(provider, DefaultConfig(adapters[0]).value, adapters[1..]);
      if SomeLacksDefaults(adapters) {
        var i :| 0 <= i < |adapters| && DefaultConfig(adapters[i]).None?;
        assert adapters[1..][i - 1] == adapters[i];
      }
    }
  }

  /** A group whose later adapters share the first one's defaults raises nothing. */
  lemma {:induction false} LaterIssuesUniform(provider: Option<string>, firstConfig: Fields, adapters: seq<Adapter>)
    requires forall i :: 0 <= i < |adapters| ==> DefaultConfig(adapters[i]) == Some(firstConfig)
    ensures LaterIssues(provider, firstConfig, adapters) == Ok(NoIssues)
    decreases |adapters|
  {
    if adapters != [] {
      var init := adapters[..|adapters| - 1];
      assert forall i :: 0 <= i < |init| ==> init[i] == adapters[i];
      LaterIssuesUniform(provider, firstConfig, init);
      ConfigIssuesIff(provider, firstConfig, ModelName(adapters[|adapters| - 1]), firstConfig);
    }
  }

  /** When every provider has at most one adapter, the check passes with nothing to report. */
  lemma {:induction false} SmallGroupsSkipped(groups: Groups<Option<string>, Adapter>)
    requires forall g :: 0 <= g < |groups| ==> |groups[g].1| <= 1
    ensures AllGroupIssues(groups) == Ok(NoIssues)
    decreases |groups|
  {
    if groups != [] {
      var init := groups[..|groups| - 1];
      assert forall g :: 0 <= g < |init| ==> init[g] == groups[g];
      SmallGroupsSkipped(init);
      var last := groups[|groups| - 1];
      assert GroupIssues(last.0, last.1) == Ok(NoIssues);
      assert Join(NoIssues, NoIssues) == NoIssues;
    }
  }

  /** The shipped registry has one adapter, so compatibility holds trivially. */
  lemma ShippedCompatible()
    ensures ConfigurationCompatibility(AdapterRegistry) == Ok(Report(true, [], []))
  {
    var items := ProviderItems(AdapterRegistry);
    assert items == [(None, OpenAI)];
    assert items[..0] == [];
    assert GroupBy(items) == [(None, [OpenAI])];
    SmallGroupsSkipped(GroupBy(items));
  }

  /** `firstConfigKeys.forEach(...)`: what it pushes onto `errors` and onto `warnings`. */
  method CheckSharedKeys(modelName: string, provider: Option<string>, firstConfig: Fields, config: Fields)
    returns (errors: seq<string>, warnings: seq<string>)
    ensures errors == KeyTypeErrors(modelName, provider, firstConfig, config, Keys(firstConfig))
    ensures warnings == MissingKeyWarnings(modelName, provider, config, Keys(firstConfig))
  {
    var firstKeys := Keys(firstConfig);
    var configKeys := Keys(config);
    errors, warnings := [], [];
    for i := 0 to |firstKeys|
      invariant errors == KeyTypeErrors(modelName, provider, firstConfig, config, firstKeys[..i])
      invariant warnings == MissingKeyWarnings(modelName, provider, config, firstKeys[..i])
    {
      assert firstKeys[..i + 1][..i] == firstKeys[..i];
      var key := firstKeys[i];
      if key !in configKeys {
        warnings := warnings + [MissingKeyWarning(modelName, provider, key)];
      } else if TypeOf(Lookup(firstConfig, key)) != TypeOf(Lookup(config, key)) {
        errors := errors + [KeyTypeError(modelName, provider, key, TypeOf(Lookup(config, key)),
                                         TypeOf(Lookup(firstConfig, key)))];
      }
    }
    assert firstKeys[..|firstKeys|] == firstKeys;
  }

  /** `configKeys.forEach(...)`: what it pushes onto `warnings`. */
  method CheckExtraKeys(modelName: string, provider: Option<string>, firstKeys: seq<string>, configKeys: seq<string>)
    returns (warnings: seq<string>)
    ensures warnings == ExtraKeyWarnings(modelName, provider, firstKeys, configKeys)
  {
    warnings := [];
    for i := 0 to |configKeys|
      invariant warnings == ExtraKeyWarnings(modelName, provider, firstKeys, configKeys[..i])
    {
      assert configKeys[..i + 1][..i] == configKeys[..i];
      if configKeys[i] !in firstKeys {
        warnings := warnings + [ExtraKeyWarning(modelName, provider, configKeys[i])];
      }
    }
    assert configKeys[..|configKeys|] == configKeys;
  }

  /** `adapters.slice(1).forEach(...)`: what it pushes, or the TypeError it stops at. */
  method CheckLaterAdapters(provider: Option<string>, firstConfig: Fields, adapters: seq<Adapter>)
    returns (r: Result<Issues>)
    ensures r == LaterIssues(provider, firstConfig, adapters)
  {
    var issues := NoIssues;
    for i := 0 to |adapters|
      invariant LaterIssues(provider, firstConfig, adapters[..i]) == Ok(issues)
    {
      assert adapters[..i + 1][..i] == adapters[..i];
      var adapter := adapters[i];
      var config := DefaultConfig(adapter);
      if config.None? {
        LaterIssuesThrowSticks(provider, firstConfig, adapters, i + 1);
        return Throw(NoDefaultConfigMessage);
      }
      var errors, missing := CheckSharedKeys(ModelName(adapter), provider, firstConfig, config.value);
      var extra := CheckExtraKeys(ModelName(adapter), provider, Keys(firstConfig), Keys(config.value));
      issues := Join(issues, Issues(errors, missing + extra));
    }
    assert adapters[..|adapters|] == adapters;
    return Ok(issues);
  }

  /** The body of `adaptersByProvider.forEach(...)` for one provider. */
  method CheckGroup(provider: Option<string>, adapters: seq<Adapter>) returns (r: Result<Issues>)
    ensures r == GroupIssues(provider, adapters)
  {
    if |adapters| <= 1 {
      return Ok(NoIssues);
    }
    var firstConfig := DefaultConfig(adapters[0]);
    if firstConfig.None? {
      return Throw(FirstNoDefaultConfigMessage);
    }
    r := CheckLaterAdapters(provider, firstConfig.value, adapters[1..]);
  }

  /** `adaptersByProvider.forEach(...)`: what it pushes, or the TypeError it stops at. */
  method CheckGroups(groups: Groups<Option<string>, Adapter>) returns (r: Result<Issues>)
    ensures r == AllGroupIssues(groups)
  {
    var issues := NoIssues;
    for g := 0 to |groups|
      invariant AllGroupIssues(groups[..g]) == Ok(issues)
    {
      assert groups[..g + 1][..g] == groups[..g];
      var next := CheckGroup(groups[g].0, groups[g].1);
      if next.Throw? {
        AllGroupIssuesThrowSticks(groups, g + 1);
        return Throw(next.message);
      }
      issues := Join(issues, next.value);
    }
    assert groups[..|groups|] == groups;
    return Ok(issues);
  }

  /** `validateConfigurationCompatibility()` */
  method ValidateConfigurationCompatibility(registry: Registry) returns (r: Result<Report>)
    ensures r == ConfigurationCompatibility(registry)
  {
    var adaptersByProvider := GroupInPlace(ProviderItems(registry));
    var issues := CheckGroups(adaptersByProvider);
    if issues.Throw? {
      return Throw(issues.message);
    }
    var errors, warnings := issues.value.errors, issues.value.warnings;
    return Ok(Report(|errors| == 0, errors, warnings));
  }

  // ---------------------------------------------------------------------
  // Adapter members, and the combined check
  // ---------------------------------------------------------------------

  function MissingMemberMessage(modelId: string, member: string): string {
    "Model \"" + modelId + "\" adapter is missing " + member
  }

  /** An adapter declares every member the check looks for. */
  predicate Complete(adapter: Adapter) {
    ModelName(adapter) != "" && ProviderName(adapter).Some? && ProviderName(adapter).value != "" &&
    SupportedFeatures(adapter).Some? && DefaultConfig(adapter).Some?
  }

  /**
   * `validateAdapterImplementations` for one entry, over the members the
   * adapter classes declare: a falsy `modelName` or `providerName`, no
   * `supportedFeatures` array, or no `getDefaultConfig`. Every class has
   * `buildRequest`, `parseResponse` and `validateConfig`, so those checks
   * never fire.
   */
  function MemberErrors(entry: (string, Adapter)): (es: seq<string>)
    ensures es == [] <==> Complete(entry.1)
  {
    var (modelId, adapter) := entry;
    (if ModelName(adapter) == "" then [MissingMemberMessage(modelId, "modelName property")] else []) +
    (if ProviderName(adapter).None? || ProviderName(adapter).value == ""
     then [MissingMemberMessage(modelId, "providerName property")] else []) +
    (if SupportedFeatures(adapter).None? then [MissingMemberMessage(modelId, "supportedFeatures array")] else []) +
    (if DefaultConfig(adapter).None? then [MissingMemberMessage(modelId, "getDefaultConfig method")] else [])
  }

  /** The messages of `validateAdapterImplementations()`, over the registry entries in order. */
  function ImplementationErrors(registry: Registry): seq<string>
    decreases |registry|
  {
    if registry == [] then []
    else ImplementationErrors(registry[..|registry| - 1]) + MemberErrors(registry[|registry| - 1])
  }

  /** The check reports nothing exactly when every registered adapter is complete. */
  lemma {:induction false} ImplementationErrorsEmptyIff(registry: Registry)
    ensures ImplementationErrors(registry) == [] <==> forall k :: 0 <= k < |registry| ==> Complete(registry[k].1)
    decreases |registry|
  {
    if registry != [] {
      var init := registry[..|registry| - 1];
      ImplementationErrorsEmptyIff(init);
      var last := registry[|registry| - 1];
      assert ImplementationErrors(registry) == ImplementationErrors(init) + MemberErrors(last);
      assert forall k :: 0 <= k < |init| ==> init[k] == registry[k];
    }
  }

  /** Every adapter class but `OpenAIAdapter` is complete once it has a non-empty model name. */
  lemma OnlyOpenAIIncomplete(adapter: Adapter)
    ensures Complete(adapter) <==> !adapter.OpenAI? && adapter.modelName != ""
  {
  }

  /** The shipped "gpt-4o" adapter lacks `providerName`, `supportedFeatures` and `getDefaultConfig`. */
  lemma ShippedImplementationErrors()
    ensures ImplementationErrors(AdapterRegistry) ==
      [MissingMemberMessage("gpt-4o", "providerName property"),
       MissingMemberMessage("gpt-4o", "supportedFeatures array"),
       MissingMemberMessage("gpt-4o", "getDefaultConfig method")]
  {
    assert AdapterRegistry[..0] == [];
  }

  /** The four member checks of one registry entry, in the order the loop body makes them. */
  method CheckMembers(modelId: string, adapter: Adapter) returns (found: seq<string>)
    ensures found == MemberErrors((modelId, adapter))
  {
    found := [];
    if ModelName(adapter) == "" {
      found := found + [MissingMemberMessage(modelId, "modelName property")];
    }
    if ProviderName(adapter).None? || ProviderName(adapter).value == "" {
      found := found + [MissingMemberMessage(modelId, "providerName property")];
    }
    if SupportedFeatures(adapter).None? {
      found := found + [MissingMemberMessage(modelId, "supportedFeatures array")];
    }
    if DefaultConfig(adapter).None? {
      found := found + [MissingMemberMessage(modelId, "getDefaultConfig method")];
    }
  }

  /** `validateAdapterImplementations()` */
  method ValidateAdapterImplementations(registry: Registry) returns (v: Verdict)
    ensures v == Verdict(ImplementationErrors(registry) == [], ImplementationErrors(registry))
  {
    var errors: seq<string> := [];
    for k := 0 to |registry|
      invariant errors == ImplementationErrors(registry[..k])
    {
      assert registry[..k + 1][..k] == registry[..k];
      var (modelId, adapter) := registry[k];
      var found := CheckMembers(modelId, adapter);
      errors := errors + found;
    }
    assert registry[..|registry|] == registry;
    v := Verdict(|errors| == 0, errors);
  }

  /** `validateModelSystem()`: all errors in check order, and only the compatibility warnings. */
  function ModelSystem(providers: seq<Provider>, registry: Registry): Result<Report> {
    var registryResults := RegistryConsistency(providers, registry);
    var adapterErrors := ImplementationErrors(registry);
    var configResults :- ConfigurationCompatibility(registry);
    var allErrors := registryResults.errors + adapterErrors + configResults.errors;
    Ok(Report(allErrors == [], allErrors, configResults.warnings))
  }

  /**
   * The combined check passes exactly when the tables are consistent, every
   * adapter is complete and the defaults are compatible; it throws exactly
   * when the compatibility check does.
   */
  lemma ModelSystemValidIff(providers: seq<Provider>, registry: Registry)
    ensures ModelSystem(providers, registry).Throw? <==> ConfigurationCompatibility(registry).Throw?
    ensures ModelSystem(providers, registry).Ok? ==>
      (ModelSystem(providers, registry).value.isValid <==>
         ProvidersCovered(providers, registry) && RegistryCovered(providers, registry) &&
         (forall k :: 0 <= k < |registry| ==> Complete(registry[k].1)) &&
         ConfigurationCompatibility(registry).value.isValid)
    ensures ModelSystem(providers, registry).Ok? ==>
      ModelSystem(providers, registry).value.warnings == ConfigurationCompatibility(registry).value.warnings
  {
    ConsistencyValidIff(providers, registry);
    ImplementationErrorsEmptyIff(registry);
  }

  /** On the shipped tables the combined check returns 53 errors and no warning. */
  lemma ShippedModelSystem()
    ensures ModelSystem(ProvidersTable, AdapterRegistry).Ok?
    ensures !ModelSystem(ProvidersTable, AdapterRegistry).value.isValid
    ensures |ModelSystem(ProvidersTable, AdapterRegistry).value.errors| == 53
    ensures ModelSystem(ProvidersTable, AdapterRegistry).value.warnings == []
  {
    ShippedTablesInconsistent();
    ShippedImplementationErrors();
    ShippedCompatible();
  }

  /** `validateModelSystem()` */
  method ValidateModelSystem(providers: seq<Provider>, registry: Registry) returns (r: Result<Report>)
    ensures r == ModelSystem(providers, registry)
  {
    var registryResults := ValidateModelRegistryConsistency(providers, registry);
    var adapterResults := ValidateAdapterImplementations(registry);
    var configResults := ValidateConfigurationCompatibility(registry);
    if configResults.Throw? {
      return Throw(configResults.message);
    }
    var allErrors := registryResults.errors + adapterResults.errors + configResults.value.errors;
    return Ok(Report(|allErrors| == 0, allErrors, configResults.value.warnings));
  }

  // ---------------------------------------------------------------------
  // Flow nodes
  // ---------------------------------------------------------------------

  /** The spec of this file's `validateFlowNodeConfig`, whose lookup is exact. */
  function ExactFlowNodeVerdict(registry: Registry, modelId: Option<string>, config: Option<Fields>): Result<Verdict> {
    var found := if modelId.Some? then Find(registry, modelId.value) else None;
    NodeVerdict(found, modelId, config)
  }

  /** `validateFlowNodeConfig(modelId, config)` with the exact lookup. */
  method ValidateFlowNodeConfig(registry: Registry, modelId: Option<string>, config: Option<Fields>)
    returns (r: Result<Verdict>)
    ensures r == ExactFlowNodeVerdict(registry, modelId, config)
    ensures r.Ok? ==> (r.value.isValid <==> r.value.errors == [])
  {
    if modelId.None? || modelId.value == "" {
      return Ok(Verdict(false, [MissingModelIdMessage]));
    }
    var adapter := Find(registry, modelId.value);
    if adapter.None? {
      return Ok(Verdict(false, [InvalidModelIdMessage(modelId.value)]));
    }
    r := CheckWithAdapter(adapter.value, modelId.value, config);
  }

  /**
   * The two copies agree whenever the id is registered exactly; they differ
   * on an id registered only in another case, which this copy rejects.
   */
  lemma ExactAgreesOnRegisteredIds(registry: Registry, modelId: string, config: Option<Fields>)
    requires Find(registry, modelId).Some?
    ensures ExactFlowNodeVerdict(registry, Some(modelId), config) == FlowNodeValidation.FlowNodeVerdict(registry, Some(modelId), config)
  {
  }

  lemma ExactRejectsOtherCase()
    ensures ExactFlowNodeVerdict(AdapterRegistry, Some("GPT-4O"), None) == Ok(Verdict(false, [InvalidModelIdMessage("GPT-4O")]))
    ensures FlowNodeValidation.FlowNodeVerdict(AdapterRegistry, Some("GPT-4O"), None) == Ok(Verdict(true, []))
  {
    FlowNodeValidation.FindsDifferentlyCasedId();
    assert "GPT-4O" != "gpt-4o" by { assert "GPT-4O"[0] != "gpt-4o"[0]; }
    assert AdapterRegistry[1..] == [];
  }

  /** `node.type === 'model' && node.modelId`: the nodes the pre-run check looks at. */
  predicate Inspected(node: FlowNode) {
    node.nodeType == ModelNode && HasModelId(node)
  }

  /** The verdict of one inspected node. */
  function NodeCheck(registry: Registry, node: FlowNode): Result<Verdict> {
    ExactFlowNodeVerdict(registry, node.modelId, node.config)
  }

  /** `validateBeforeExecution(nodes)`: false once an inspected node fails; a throwing validation escapes. */
  function BeforeExecution(registry: Registry, nodes: seq<FlowNode>): Result<bool>
    decreases |nodes|
  {
    if nodes == [] then Ok(true)
    else
      var isValid :- BeforeExecution(registry, nodes[..|nodes| - 1]);
      var node := nodes[|nodes| - 1];
      if Inspected(node) then
        var v :- NodeCheck(registry, node);
        Ok(isValid && v.isValid)
      else Ok(isValid)
  }

  /** An inspected node whose validation throws. */
  predicate Throws(registry: Registry, node: FlowNode) {
    Inspected(node) && NodeCheck(registry, node).Throw?
  }

  /** An inspected node whose validation returns a failing verdict. */
  predicate Fails(registry: Registry, node: FlowNode) {
    Inspected(node) && NodeCheck(registry, node).Ok? && !NodeCheck(registry, node).value.isValid
  }

  /** The pre-run check throws exactly when an inspected node's validation throws. */
  lemma {:induction false} BeforeExecutionThrowIff(registry: Registry, nodes: seq<FlowNode>)
    ensures BeforeExecution(registry, nodes).Throw? <==> exists i :: 0 <= i < |nodes| && Throws(registry, nodes[i])
    decreases |nodes|
  {
    if nodes != [] {
      var init := nodes[..|nodes| - 1];
      BeforeExecutionThrowIff(registry, init);
      if exists i :: 0 <= i < |nodes| && Throws(registry, nodes[i]) {
        var i :| 0 <= i < |nodes| && Throws(registry, nodes[i]);
        if i < |init| { assert Throws(registry, init[i]); }
      }
      if exists i :: 0 <= i < |init| && Throws(registry, init[i]) {
        var i :| 0 <= i < |init| && Throws(registry, init[i]);
        assert Throws(registry, nodes[i]);
      }
    }
  }

  /**
   * When it returns, the pre-run check says "valid" exactly when no inspected
   * node fails; nodes that are not model nodes with a model id play no part.
   */
  lemma {:induction false} BeforeExecutionValidIff(registry: Registry, nodes: seq<FlowNode>)
    requires BeforeExecution(registry, nodes).Ok?
    ensures BeforeExecution(registry, nodes).value <==> forall i :: 0 <= i < |nodes| ==> !Fails(registry, nodes[i])
    decreases |nodes|
  {
    if nodes != [] {
      var init := nodes[..|nodes| - 1];
      BeforeExecutionValidIff(registry, init);
      assert forall i :: 0 <= i < |init| ==> init[i] == nodes[i];
    }
  }

  /** `validateBeforeExecution(nodes)`, without the toasts. */
  method ValidateBeforeExecution(registry: Registry, nodes: seq<FlowNode>) returns (r: Result<bool>)
    ensures r == BeforeExecution(registry, nodes)
  {
    var isValid := true;
    for i := 0 to |nodes|
      invariant BeforeExecution(registry, nodes[..i]) == Ok(isValid)
    {
      assert nodes[..i + 1][..i] == nodes[..i];
      var node := nodes[i];
      if node.nodeType == ModelNode && HasModelId(node) {
        var nodeValidation := ValidateFlowNodeConfig(registry, node.modelId, node.config);
        if nodeValidation.Throw? {
          BeforeExecutionThrowSticks(registry, nodes, i + 1);
          return Throw(nodeValidation.message);
        }
        if !nodeValidation.value.isValid {
          isValid := false;
        }
      }
    }
    assert nodes[..|nodes|] == nodes;
    return Ok(isValid);
  }

  /** Once a node's validation throws, the later nodes are not looked at. */
  lemma {:induction false} BeforeExecutionThrowSticks(registry: Registry, nodes: seq<FlowNode>, n: nat)
    requires n <= |nodes| && BeforeExecution(registry, nodes[..n]).Throw?
    ensures BeforeExecution(registry, nodes) == BeforeExecution(registry, nodes[..n])
    decreases |nodes|
  {
    if n < |nodes| {
      var init := nodes[..|nodes| - 1];
      assert init[..n] == nodes[..n];
      BeforeExecutionThrowSticks(registry, init, n);
    } else {
      assert nodes[..n] == nodes;
    }
  }
}

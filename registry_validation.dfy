/**
 * The second copy of `validateModelRegistryConsistency`, which stands on its
 * own in the registry module. Its text is the same as the first copy's, so
 * it is proved to return exactly what that copy returns on every pair of
 * tables.
 */
module RegistryValidation {
  import opened ModelAdapter
  import opened Providers
  import opened ConfigValidation
  import ModelValidation

  /**
   * `validateModelRegistryConsistency()`: the PROVIDERS-side messages, then
   * the registry-side ones, and a verdict that holds iff there are none.
   */
  method ValidateModelRegistryConsistency(providers: seq<Provider>, registry: Registry) returns (v: Verdict)
    ensures v == ModelValidation.RegistryConsistency(providers, registry)
    ensures v.isValid <==> v.errors == []
    ensures v.errors == ModelValidation.ProviderSideErrors(registry, providers) +
                        ModelValidation.RegistrySideErrors(ModelValidation.ProviderModelMap(providers), registry)
  {
    var providerModels := ModelValidation.BuildProviderModels(providers);
    var errors := ModelValidation.CheckProviders(registry, providers);
    var registryErrors := ModelValidation.CheckRegistryEntries(providerModels, registry);
    errors := errors + registryErrors;
    v := Verdict(|errors| == 0, errors);
    ModelValidation.ConsistencyValidIff(providers, registry);
  }
}

/**
 * The `ModelAdapter` interface as a closed sum of the adapter classes, and
 * the `adapterRegistry` object that maps model ids to adapter instances.
 */
module ModelAdapter {
  import opened JsValues
  import opened AdapterTypes
  import OpenAIAdapter
  import TogetherAdapter
  import GoogleAdapter
  import DeepSeekAdapter
  import AnthropicAdapter

  /** One adapter instance; every class but `OpenAIAdapter` is constructed with a model name. */
  datatype Adapter =
    | OpenAI
    | Together(modelName: string)
    | Google(modelName: string)
    | DeepSeek(modelName: string)
    | Anthropic(modelName: string)

  /** `new GoogleAdapter(modelName?)`: an omitted name is "gemini-2.5-pro". */
  function NewGoogle(modelName: Option<string>): (a: Adapter)
    ensures a.Google? && a.modelName == modelName.GetOr(GoogleAdapter.DefaultModelName)
  {
    Google(modelName.GetOr(GoogleAdapter.DefaultModelName))
  }

  /** `new AnthropicAdapter(modelName?)`: an omitted name is "claude-3.7-sonnet". */
  function NewAnthropic(modelName: Option<string>): (a: Adapter)
    ensures a.Anthropic? && a.modelName == modelName.GetOr(AnthropicAdapter.DefaultModelName)
  {
    Anthropic(modelName.GetOr(AnthropicAdapter.DefaultModelName))
  }

  /** `adapter.modelName` */
  function ModelName(a: Adapter): string {
    if a.OpenAI? then OpenAIAdapter.ModelName else a.modelName
  }

  /** `adapter.providerName`; `OpenAIAdapter` declares none. */
  function ProviderName(a: Adapter): Option<string> {
    match a
    case OpenAI => None
    case Together(_) => Some(TogetherAdapter.ProviderName)
    case Google(_) => Some(GoogleAdapter.ProviderName)
    case DeepSeek(_) => Some(DeepSeekAdapter.ProviderName)
    case Anthropic(_) => Some(AnthropicAdapter.ProviderName)
  }

  /** `adapter.supportedFeatures`; `OpenAIAdapter` declares none. */
  function SupportedFeatures(a: Adapter): Option<seq<string>> {
    match a
    case OpenAI => None
    case Together(_) => Some(TogetherAdapter.SupportedFeatures)
    case Google(_) => Some(GoogleAdapter.SupportedFeatures)
    case DeepSeek(_) => Some(DeepSeekAdapter.SupportedFeatures)
    case Anthropic(_) => Some(AnthropicAdapter.SupportedFeatures)
  }

  /** `adapter.buildRequest(input, config)` */
  function BuildRequest(a: Adapter, input: Json, config: Json): (r: Result<Json>)
    ensures r.Throw? <==> config == Undefined || config == Null
  {
    match a
    case OpenAI => OpenAIAdapter.BuildRequest(input, config)
    case Together(_) => TogetherAdapter.BuildRequest(input, config)
    case Google(m) => GoogleAdapter.BuildRequest(m, input, config)
    case DeepSeek(m) => DeepSeekAdapter.BuildRequest(m, input, config)
    case Anthropic(m) => AnthropicAdapter.BuildRequest(m, input, config)
  }

  /** `adapter.parseResponse(response)` */
  function ParseResponse(a: Adapter, response: Json): (r: Result<ParsedResponse>)
    ensures response == Undefined || response == Null ==> r.Throw?
  {
    match a
    case OpenAI => OpenAIAdapter.ParseResponse(response)
    case Together(_) => TogetherAdapter.ParseResponse(response)
    case Google(_) => GoogleAdapter.ParseResponse(response)
    case DeepSeek(_) => DeepSeekAdapter.ParseResponse(response)
    case Anthropic(_) => AnthropicAdapter.ParseResponse(response)
  }

  /** `adapter.validateConfig(config)` */
  function ValidateConfig(a: Adapter, config: Json): (r: Result<bool>)
    ensures r.Throw? ==> config == Undefined || config == Null
  {
    match a
    case OpenAI => OpenAIAdapter.ValidateConfig(config)
    case Together(_) => TogetherAdapter.ValidateConfig(config)
    case Google(_) => GoogleAdapter.ValidateConfig(config)
    case DeepSeek(_) => DeepSeekAdapter.ValidateConfig(config)
    case Anthropic(_) => AnthropicAdapter.ValidateConfig(config)
  }

  /** `adapter.getDefaultConfig()`; `OpenAIAdapter` has no such method. */
  function DefaultConfig(a: Adapter): Option<Fields> {
    match a
    case OpenAI => None
    case Together(_) => Some(TogetherAdapter.DefaultConfig)
    case Google(_) => Some(GoogleAdapter.DefaultConfig)
    case DeepSeek(_) => Some(DeepSeekAdapter.DefaultConfig)
    case Anthropic(_) => Some(AnthropicAdapter.DefaultConfig)
  }

  /** Every adapter that has a default config accepts it. */
  lemma DefaultConfigsValid(a: Adapter)
    ensures DefaultConfig(a).Some? ==> ValidateConfig(a, Obj(DefaultConfig(a).value)) == Ok(true)
  {
    match a
    case OpenAI =>
    case Together(_) => TogetherAdapter.DefaultConfigValid();
    case Google(_) => GoogleAdapter.DefaultConfigValid();
    case DeepSeek(_) => DeepSeekAdapter.DefaultConfigValid();
    case Anthropic(_) => AnthropicAdapter.DefaultConfigValid();
  }

  /**
   * The payload `{ input }` that the simulated runner hands to an adapter
   * carries no provider fields, so every adapter parses it to the output "".
   */
  lemma ParseInputOnly(a: Adapter, text: string)
    ensures ParseResponse(a, Obj([("input", Str(text))])).Ok?
    ensures ParseResponse(a, Obj([("input", Str(text))])).value.output == Str("")
  {
    var fields := [("input", Str(text))];
    LookupFirst(fields, "choices");
    LookupFirst(fields, "candidates");
    LookupFirst(fields, "content");
    LookupFirst(fields, "error");
  }

  /** An object of adapter instances keyed by model id, in key order. */
  type Registry = seq<(string, Adapter)>

  /** `registry[modelId]`: the first entry under that key. */
  function Find(registry: Registry, modelId: string): Option<Adapter> {
    if registry == [] then None
    else if registry[0].0 == modelId then Some(registry[0].1)
    else Find(registry[1..], modelId)
  }

  /** A lookup finds the first entry under its key, and nothing when no entry has that key. */
  lemma {:induction false} FindFirst(registry: Registry, modelId: string)
    ensures Find(registry, modelId).Some? <==> exists i :: 0 <= i < |registry| && registry[i].0 == modelId
    ensures Find(registry, modelId).Some? ==>
      exists i :: 0 <= i < |registry| && registry[i] == (modelId, Find(registry, modelId).value) &&
                  forall j :: 0 <= j < i ==> registry[j].0 != modelId
    decreases |registry|
  {
    if registry != [] && registry[0].0 != modelId {
      FindFirst(registry[1..], modelId);
      if Find(registry, modelId).Some? {
        var i :| 0 <= i < |registry| - 1 && registry[1..][i] == (modelId, Find(registry, modelId).value) &&
                 forall j :: 0 <= j < i ==> registry[1..][j].0 != modelId;
        assert registry[i + 1] == (modelId, Find(registry, modelId).value);
        assert forall j :: 0 <= j < i + 1 ==> registry[j].0 != modelId by {
          forall j | 0 <= j < i + 1 ensures registry[j].0 != modelId {
            if j > 0 { assert registry[j] == registry[1..][j - 1]; }
          }
        }
      }
      if exists i :: 0 <= i < |registry| && registry[i].0 == modelId {
        var i :| 0 <= i < |registry| && registry[i].0 == modelId;
        assert registry[1..][i - 1].0 == modelId;
      }
    } else if registry != [] {
      assert registry[0] == (modelId, Find(registry, modelId).value);
    }
  }

  /** The registered adapters: only "gpt-4o". */
  const AdapterRegistry: Registry := [("gpt-4o", OpenAI)]
}

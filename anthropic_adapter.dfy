/** The adapter for Anthropic's Claude models, shaped like the chat-completions API. */
module AnthropicAdapter {
  import opened JsValues
  import opened AdapterTypes

  const ProviderName := "Anthropic"
  const SupportedFeatures := ["text"]
  /** The model name the constructor uses when none is given. */
  const DefaultModelName := "claude-3.7-sonnet"
  /** The system prompt used when the config's `systemPrompt` is falsy. */
  const FallbackSystemPrompt := "You are Claude, a helpful AI assistant."

  /** `buildRequest(input, config)` for the model `modelName`. */
  function BuildRequest(modelName: string, input: Json, config: Json): (r: Result<Json>)
    ensures r.Throw? <==> config == Undefined || config == Null
    ensures r.Ok? ==> r.value.Obj? && Keys(r.value.fields) == ["model", "messages", "temperature", "max_tokens"]
    ensures r.Ok? ==> Get(r.value, "model") == Str(modelName)
    ensures r.Ok? ==> IsSystemThenUser(Get(r.value, "messages"), input, Get(config, "systemPrompt"), Str(FallbackSystemPrompt))
    ensures r.Ok? ==> NullishDefault(Get(r.value, "temperature"), Get(config, "temperature"), Num(0.7))
    ensures r.Ok? ==> NullishDefault(Get(r.value, "max_tokens"), Get(config, "maxTokens"), Num(512.0))
  {
    var systemPrompt :- Member(config, "systemPrompt");
    var system := Or(systemPrompt, Str(FallbackSystemPrompt));
    Ok(Object4("model", Str(modelName),
               "messages", SystemThenUser(system, input),
               "temperature", Coalesce(Get(config, "temperature"), Num(0.7)),
               "max_tokens", Coalesce(Get(config, "maxTokens"), Num(512.0))))
  }

  /** `response.content?.[0]?.text`, once `response.content` has been read. */
  function FirstBlockText(response: Json): Json {
    Get(At(Get(response, "content"), 0), "text")
  }

  /** `parseResponse(response)`: the first content block's text, or "". */
  function ParseResponse(response: Json): (r: Result<ParsedResponse>)
    ensures r.Throw? <==> response == Undefined || response == Null
    ensures r.Ok? ==> FalsyDefault(r.value.output, FirstBlockText(response), Str(""))
    ensures r.Ok? ==> FalsyDefault(r.value.usage, Get(response, "usage"), Obj([]))
    ensures r.Ok? ==> r.value.raw == Some(response)
  {
    var content :- Member(response, "content");
    Ok(ParsedResponse(Or(Get(At(content, 0), "text"), Str("")),
                      Or(Get(response, "usage"), Obj([])), Some(response)))
  }

  /** `validateConfig(config)`: the shared range checks. */
  function ValidateConfig(config: Json): (r: Result<bool>)
    ensures r.Throw? <==> config == Null
    ensures r.Ok? ==> (r.value <==> (config.Arr? || config.Obj?) &&
                                     AbsentOrUnit(Get(config, "temperature")) &&
                                     AbsentOrPositive(Get(config, "maxTokens")))
  {
    ValidateRanges(config)
  }

  /** The system prompt of the default config, the same text as the fallback. */
  const DefaultSystemPrompt := FallbackSystemPrompt

  /** `getDefaultConfig()` */
  const DefaultConfig: Fields := [("temperature", Num(0.7)), ("maxTokens", Num(512.0)),
                                  ("systemPrompt", Str(DefaultSystemPrompt))]

  /** The default config passes the adapter's own validation. */
  lemma DefaultConfigValid()
    ensures ValidateConfig(Obj(DefaultConfig)) == Ok(true)
  {
    LookupAt(DefaultConfig, 0, "temperature");
    LookupAt(DefaultConfig, 1, "maxTokens");
  }

  /** Building from the default config gives the same request as building from `{}`. */
  lemma DefaultConfigMatchesFallbacks(modelName: string, input: Json)
    ensures BuildRequest(modelName, input, Obj(DefaultConfig)) == BuildRequest(modelName, input, Obj([]))
  {
    var config := Obj(DefaultConfig);
    LookupAt(DefaultConfig, 0, "temperature");
    LookupAt(DefaultConfig, 1, "maxTokens");
    LookupAt(DefaultConfig, 2, "systemPrompt");
    assert Or(Get(config, "systemPrompt"), Str(FallbackSystemPrompt)) == Or(Undefined, Str(FallbackSystemPrompt));
    assert Coalesce(Get(config, "temperature"), Num(0.7)) == Coalesce(Undefined, Num(0.7));
    assert Coalesce(Get(config, "maxTokens"), Num(512.0)) == Coalesce(Undefined, Num(512.0));
  }
}

/** The stub adapter for DeepSeek models, shaped like the chat-completions API. */
module DeepSeekAdapter {
  import opened JsValues
  import opened AdapterTypes

  const ProviderName := "DeepSeek"
  const SupportedFeatures := ["text"]
  /** The system prompt used when the config's `systemPrompt` is falsy. */
  const FallbackSystemPrompt := "You are helpful."

  /** `buildRequest(input, config)` for the model `modelName`. */
  function BuildRequest(modelName: string, input: Json, config: Json): (r: Result<Json>)
    ensures r.Throw? <==> config == Undefined || config == Null
    ensures r.Ok? ==> r.value.Obj? && Keys(r.value.fields) == ["model", "messages", "temperature", "max_tokens"]
    ensures r.Ok? ==> Get(r.value, "model") == Str(modelName)
    ensures r.Ok? ==> IsSystemThenUser(Get(r.value, "messages"), input, Get(config, "systemPrompt"), Str(FallbackSystemPrompt))
    ensures r.Ok? ==> NullishDefault(Get(r.value, "temperature"), Get(config, "temperature"), Num(0.7))
    ensures r.Ok? ==> NullishDefault(Get(r.value, "max_tokens"), Get(config, "maxTokens"), Num(512.0))
  {
    var systemPrompt :- Member(config, "systemPrompt");
    var system := Or(systemPrompt, Str(FallbackSystemPrompt));
    Ok(Object4("model", Str(modelName),
               "messages", SystemThenUser(system, input),
               "temperature", Coalesce(Get(config, "temperature"), Num(0.7)),
               "max_tokens", Coalesce(Get(config, "maxTokens"), Num(512.0))))
  }

  /** `parseResponse(response)`: the first choice's content, or "". */
  function ParseResponse(response: Json): (r: Result<ParsedResponse>)
    ensures r.Throw? <==> response == Undefined || response == Null
    ensures r.Ok? ==> FalsyDefault(r.value.output, FirstChoiceContent(response), Str(""))
    ensures r.Ok? ==> FalsyDefault(r.value.usage, Get(response, "usage"), Obj([]))
    ensures r.Ok? ==> r.value.raw == Some(response)
  {
    var choices :- Member(response, "choices");
    Ok(ParsedResponse(Or(Get(Get(At(choices, 0), "message"), "content"), Str("")),
                      Or(Get(response, "usage"), Obj([])), Some(response)))
  }

  /** `validateConfig(config)`: the shared range checks. */
  function ValidateConfig(config: Json): (r: Result<bool>)
    ensures r.Throw? <==> config == Null
    ensures r.Ok? ==> (r.value <==> (config.Arr? || config.Obj?) &&
                                     AbsentOrUnit(Get(config, "temperature")) &&
                                     AbsentOrPositive(Get(config, "maxTokens")))
  {
    ValidateRanges(config)
  }

  const DefaultSystemPrompt := "You are a helpful assistant."

  /** `getDefaultConfig()` */
  const DefaultConfig: Fields := [("temperature", Num(0.7)), ("maxTokens", Num(512.0)),
                                  ("systemPrompt", Str(DefaultSystemPrompt))]

  /** The default config passes the adapter's own validation. */
  lemma DefaultConfigValid()
    ensures ValidateConfig(Obj(DefaultConfig)) == Ok(true)
  {
    LookupAt(DefaultConfig, 0, "temperature");
    LookupAt(DefaultConfig, 1, "maxTokens");
  }

  /** A truthy system prompt other than the fallback gives a different request than `{}` does. */
  lemma PromptChangesRequest(modelName: string, input: Json, config: Json)
    requires config.Obj? && Truthy(Get(config, "systemPrompt")) && Get(config, "systemPrompt") != Str(FallbackSystemPrompt)
    ensures BuildRequest(modelName, input, config) != BuildRequest(modelName, input, Obj([]))
  {
    var d := BuildRequest(modelName, input, config).value;
    var e := BuildRequest(modelName, input, Obj([])).value;
    assert Get(At(Get(d, "messages"), 0), "content") != Get(At(Get(e, "messages"), 0), "content");
  }

  /**
   * The system prompt of the default config is not the fallback used for a
   * falsy `systemPrompt`, so the two requests differ in their system message.
   */
  lemma DefaultPromptNotFallback(modelName: string, input: Json)
    ensures BuildRequest(modelName, input, Obj(DefaultConfig)).Ok? && BuildRequest(modelName, input, Obj([])).Ok?
    ensures BuildRequest(modelName, input, Obj(DefaultConfig)) != BuildRequest(modelName, input, Obj([]))
  {
    LookupAt(DefaultConfig, 2, "systemPrompt");
    assert |DefaultSystemPrompt| != |FallbackSystemPrompt|;
    PromptChangesRequest(modelName, input, Obj(DefaultConfig));
  }
}

/** The adapter for models served by Together AI. It sends no `model` field of its own. */
module TogetherAdapter {
  import opened JsValues
  import opened AdapterTypes

  const ProviderName := "Together AI"
  const SupportedFeatures := ["text"]
  const DefaultSystemPrompt := "You are a helpful AI assistant."

  /** `buildRequest(input, config)`: the chat body with sampling parameters. */
  function BuildRequest(input: Json, config: Json): (r: Result<Json>)
    ensures r.Throw? <==> config == Undefined || config == Null
    ensures r.Ok? ==> r.value.Obj? && Keys(r.value.fields) == ["messages", "temperature", "top_p", "max_tokens"]
    ensures r.Ok? ==> IsSystemThenUser(Get(r.value, "messages"), input, Get(config, "systemPrompt"), Str(DefaultSystemPrompt))
    ensures r.Ok? ==> NullishDefault(Get(r.value, "temperature"), Get(config, "temperature"), Num(0.2))
    ensures r.Ok? ==> NullishDefault(Get(r.value, "top_p"), Get(config, "top_p"), Num(0.9))
    ensures r.Ok? ==> NullishDefault(Get(r.value, "max_tokens"), Get(config, "maxTokens"), Num(2048.0))
  {
    var systemPrompt :- Member(config, "systemPrompt");
    var system := Or(systemPrompt, Str(DefaultSystemPrompt));
    Ok(Object4("messages", SystemThenUser(system, input),
               "temperature", Coalesce(Get(config, "temperature"), Num(0.2)),
               "top_p", Coalesce(Get(config, "top_p"), Num(0.9)),
               "max_tokens", Coalesce(Get(config, "maxTokens"), Num(2048.0))))
  }

  /** The message thrown for a response that carries an `error` and no content. */
  function ErrorMessage(error: Json): string {
    "Together API Error: " + ToText(Or(Get(error, "message"), Str("Unknown error")))
  }

  /**
   * `parseResponse(response)`: a non-empty first-choice content is returned;
   * otherwise a response with an `error` throws; otherwise the output is "".
   */
  function ParseResponse(response: Json): (r: Result<ParsedResponse>)
    ensures r.Throw? <==> response == Undefined || response == Null ||
                          (!Truthy(FirstChoiceContent(response)) && Truthy(Get(response, "error")))
    ensures r.Throw? && response != Undefined && response != Null ==> r.message == ErrorMessage(Get(response, "error"))
    ensures r.Ok? ==> FalsyDefault(r.value.output, FirstChoiceContent(response), Str(""))
    ensures r.Ok? && !Truthy(FirstChoiceContent(response)) ==> r.value.output == Str("")
    ensures r.Ok? ==> FalsyDefault(r.value.usage, Get(response, "usage"), Obj([]))
    ensures r.Ok? ==> r.value.raw == Some(response)
  {
    var choices :- Member(response, "choices");
    if Truthy(choices) && Truthy(Get(Get(At(choices, 0), "message"), "content")) then
      Ok(ParsedResponse(Get(Get(At(choices, 0), "message"), "content"), Or(Get(response, "usage"), Obj([])), Some(response)))
    else if Truthy(Get(response, "error")) then
      Throw(ErrorMessage(Get(response, "error")))
    else
      Ok(ParsedResponse(Or(Get(Get(At(choices, 0), "message"), "content"), Str("")),
                        Or(Get(response, "usage"), Obj([])), Some(response)))
  }

  /** `validateConfig(config)`: the shared range checks plus `top_p` absent or in [0, 1]. */
  function ValidateConfig(config: Json): (r: Result<bool>)
    ensures r.Throw? <==> config == Null
    ensures r.Ok? ==> (r.value <==> (config.Arr? || config.Obj?) &&
                                     AbsentOrUnit(Get(config, "temperature")) &&
                                     AbsentOrPositive(Get(config, "maxTokens")) &&
                                     AbsentOrUnit(Get(config, "top_p")))
  {
    var ranges :- ValidateRanges(config);
    Ok(ranges && AbsentOrUnit(Get(config, "top_p")))
  }

  /** `getDefaultConfig()` */
  const DefaultConfig: Fields := [("temperature", Num(0.2)), ("maxTokens", Num(2048.0)),
                                  ("top_p", Num(0.9)), ("systemPrompt", Str(DefaultSystemPrompt))]

  /** The default config passes the adapter's own validation. */
  lemma DefaultConfigValid()
    ensures ValidateConfig(Obj(DefaultConfig)) == Ok(true)
  {
    LookupAt(DefaultConfig, 0, "temperature");
    LookupAt(DefaultConfig, 1, "maxTokens");
    LookupAt(DefaultConfig, 2, "top_p");
  }

  /** Building from the default config gives the same request as building from `{}`. */
  lemma DefaultConfigMatchesFallbacks(input: Json)
    ensures BuildRequest(input, Obj(DefaultConfig)) == BuildRequest(input, Obj([]))
  {
    var config := Obj(DefaultConfig);
    LookupAt(DefaultConfig, 0, "temperature");
    LookupAt(DefaultConfig, 1, "maxTokens");
    LookupAt(DefaultConfig, 2, "top_p");
    LookupAt(DefaultConfig, 3, "systemPrompt");
    assert Or(Get(config, "systemPrompt"), Str(DefaultSystemPrompt)) == Or(Undefined, Str(DefaultSystemPrompt));
    assert Coalesce(Get(config, "temperature"), Num(0.2)) == Coalesce(Undefined, Num(0.2));
    assert Coalesce(Get(config, "top_p"), Num(0.9)) == Coalesce(Undefined, Num(0.9));
    assert Coalesce(Get(config, "maxTokens"), Num(2048.0)) == Coalesce(Undefined, Num(2048.0));
  }

  /** An explicit zero temperature survives, because `??` only replaces `undefined` and `null`. */
  lemma ZeroTemperatureKept(input: Json)
    ensures BuildRequest(input, Obj([("temperature", Num(0.0))])).Ok?
    ensures Get(BuildRequest(input, Obj([("temperature", Num(0.0))])).value, "temperature") == Num(0.0)
  {
  }
}

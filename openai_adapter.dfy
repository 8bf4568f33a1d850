/** The adapter registered for "gpt-4o". It has no provider name and no default config. */
module OpenAIAdapter {
  import opened JsValues
  import opened AdapterTypes

  const ModelName := "gpt-4o"
  const DefaultSystemPrompt := "You are helpful."

  /** `buildRequest(input, config)`: the chat-completions body. */
  function BuildRequest(input: Json, config: Json): (r: Result<Json>)
    ensures r.Throw? <==> config == Undefined || config == Null
    ensures r.Ok? ==> r.value.Obj? && Keys(r.value.fields) == ["model", "messages", "temperature", "max_tokens"]
    ensures r.Ok? ==> Get(r.value, "model") == Str(ModelName)
    ensures r.Ok? ==> IsSystemThenUser(Get(r.value, "messages"), input, Get(config, "systemPrompt"), Str(DefaultSystemPrompt))
    ensures r.Ok? ==> NullishDefault(Get(r.value, "temperature"), Get(config, "temperature"), Num(0.7))
    ensures r.Ok? ==> NullishDefault(Get(r.value, "max_tokens"), Get(config, "maxTokens"), Num(512.0))
  {
    var systemPrompt :- Member(config, "systemPrompt");
    var system := Or(systemPrompt, Str(DefaultSystemPrompt));
    Ok(Object4("model", Str(ModelName),
               "messages", SystemThenUser(system, input),
               "temperature", Coalesce(Get(config, "temperature"), Num(0.7)),
               "max_tokens", Coalesce(Get(config, "maxTokens"), Num(512.0))))
  }

  /** `parseResponse(response)`: the first choice's content or ""; the result carries no `raw`. */
  function ParseResponse(response: Json): (r: Result<ParsedResponse>)
    ensures r.Throw? <==> response == Undefined || response == Null
    ensures r.Ok? ==> FalsyDefault(r.value.output, FirstChoiceContent(response), Str(""))
    ensures r.Ok? ==> FalsyDefault(r.value.usage, Get(response, "usage"), Obj([]))
    ensures r.Ok? ==> r.value.raw == None
  {
    var choices :- Member(response, "choices");
    Ok(ParsedResponse(Or(Get(Get(At(choices, 0), "message"), "content"), Str("")),
                      Or(Get(response, "usage"), Obj([])), None))
  }

  /** `validateConfig(config)`: a numeric temperature, of any value, and `maxTokens > 0`. */
  function ValidateConfig(config: Json): (r: Result<bool>)
    ensures r.Throw? <==> config == Undefined || config == Null
    ensures r.Ok? ==> (r.value <==> Get(config, "temperature").Num? && LooseGreaterThanZero(Get(config, "maxTokens")))
  {
    var temperature :- Member(config, "temperature");
    Ok(TypeOf(temperature) == "number" && LooseGreaterThanZero(Get(config, "maxTokens")))
  }

  /** The empty config `{}` is rejected, since it has no numeric temperature. */
  lemma EmptyConfigRejected()
    ensures ValidateConfig(Obj([])) == Ok(false)
  {
  }

  /** There is no range check: a temperature of 5 is accepted. */
  lemma TemperatureUnbounded()
    ensures ValidateConfig(Obj([("temperature", Num(5.0)), ("maxTokens", Num(100.0))])) == Ok(true)
  {
    var fields := [("temperature", Num(5.0)), ("maxTokens", Num(100.0))];
    LookupDistinct(fields);
  }
}

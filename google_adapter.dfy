/** The adapter for Google's Gemini models, which use the `contents`/`parts` request shape. */
module GoogleAdapter {
  import opened JsValues
  import opened AdapterTypes

  const ProviderName := "Google Gemini"
  const SupportedFeatures := ["text", "images"]
  /** The model name the constructor uses when none is given. */
  const DefaultModelName := "gemini-2.5-pro"
  /** The system instruction used when the config's `systemPrompt` is falsy. */
  const FallbackSystemPrompt := "You are a helpful AI assistant."

  /** `{ role: "user", parts: [{ text: input }] }` */
  function UserTurn(input: Json): (t: Json)
    ensures Get(t, "role") == Str("user") && Get(t, "parts") == Arr([TextPart(input)])
  {
    var fields := [("role", Str("user")), ("parts", Arr([TextPart(input)]))];
    LookupAt(fields, 1, "parts");
    Obj(fields)
  }

  /** `{ parts: [{ text }] }` */
  function Instruction(text: Json): (i: Json)
    ensures Get(i, "parts") == Arr([TextPart(text)])
  {
    Obj([("parts", Arr([TextPart(text)]))])
  }

  /** `{ temperature, maxOutputTokens }` */
  function GenerationConfig(temperature: Json, maxOutputTokens: Json): (g: Json)
    ensures Get(g, "temperature") == temperature && Get(g, "maxOutputTokens") == maxOutputTokens
  {
    var fields := [("temperature", temperature), ("maxOutputTokens", maxOutputTokens)];
    LookupAt(fields, 1, "maxOutputTokens");
    Obj(fields)
  }

  /** `parts` is a one-element list whose part has text `text`. */
  predicate SinglePart(parts: Json, text: Json) {
    parts.Arr? && |parts.items| == 1 && Get(parts.items[0], "text") == text
  }

  /** `buildRequest(input, config)` for the model `modelName`. */
  function BuildRequest(modelName: string, input: Json, config: Json): (r: Result<Json>)
    ensures r.Throw? <==> config == Undefined || config == Null
    ensures r.Ok? ==> r.value.Obj? && Keys(r.value.fields) == ["model", "contents", "systemInstruction", "generationConfig"]
    ensures r.Ok? ==> Get(r.value, "model") == Str(modelName)
    ensures r.Ok? ==> var contents := Get(r.value, "contents");
                      contents.Arr? && |contents.items| == 1 &&
                      Get(contents.items[0], "role") == Str("user") && SinglePart(Get(contents.items[0], "parts"), input)
    ensures r.Ok? ==> var parts := Get(Get(r.value, "systemInstruction"), "parts");
                      parts.Arr? && |parts.items| == 1 &&
                      FalsyDefault(Get(parts.items[0], "text"), Get(config, "systemPrompt"), Str(FallbackSystemPrompt))
    ensures r.Ok? ==> NullishDefault(Get(Get(r.value, "generationConfig"), "temperature"), Get(config, "temperature"), Num(0.7))
    ensures r.Ok? ==> NullishDefault(Get(Get(r.value, "generationConfig"), "maxOutputTokens"), Get(config, "maxTokens"), Num(512.0))
  {
    var systemPrompt :- Member(config, "systemPrompt");
    var system := Or(systemPrompt, Str(FallbackSystemPrompt));
    Ok(Object4("model", Str(modelName),
               "contents", Arr([UserTurn(input)]),
               "systemInstruction", Instruction(system),
               "generationConfig", GenerationConfig(Coalesce(Get(config, "temperature"), Num(0.7)),
                                                    Coalesce(Get(config, "maxTokens"), Num(512.0)))))
  }

  /** `response.candidates?.[0]?.content?.parts?.[0]?.text`, once `response.candidates` has been read. */
  function FirstCandidateText(response: Json): Json {
    Get(At(Get(Get(At(Get(response, "candidates"), 0), "content"), "parts"), 0), "text")
  }

  /** `parseResponse(response)`: the first candidate's first part text, or "". */
  function ParseResponse(response: Json): (r: Result<ParsedResponse>)
    ensures r.Throw? <==> response == Undefined || response == Null
    ensures r.Ok? ==> FalsyDefault(r.value.output, FirstCandidateText(response), Str(""))
    ensures r.Ok? ==> FalsyDefault(r.value.usage, Get(response, "usageMetadata"), Obj([]))
    ensures r.Ok? ==> r.value.raw == Some(response)
  {
    var candidates :- Member(response, "candidates");
    var text := Get(At(Get(Get(At(candidates, 0), "content"), "parts"), 0), "text");
    Ok(ParsedResponse(Or(text, Str("")), Or(Get(response, "usageMetadata"), Obj([])), Some(response)))
  }

  /** `validateConfig(config)`: the shared range checks. */
  function ValidateConfig(config: Json): (r: Result<bool>)
    ensures r.Throw? <==> config == Null
    ensures r.Ok? ==> (r.value <==> (config.Arr? || config.Obj?) &&
                                     AbsentOrUnit(Get(config, "temperature")) &&
                                     AbsentOrPositive(Get(config, "maxTokens")))
  {
    ValidateRanges(config)
  }

  const DefaultSystemPrompt := "You are Gemini, a helpful AI assistant."

  /** `getDefaultConfig()` */
  const DefaultConfig: Fields := [("temperature", Num(0.7)), ("maxTokens", Num(512.0)),
                                  ("systemPrompt", Str(DefaultSystemPrompt))]

  /** The default config passes the adapter's own validation. */
  lemma DefaultConfigValid()
    ensures ValidateConfig(Obj(DefaultConfig)) == Ok(true)
  {
    LookupAt(DefaultConfig, 0, "temperature");
    LookupAt(DefaultConfig, 1, "maxTokens");
  }

  /** The system instruction text of a built request. */
  function InstructionText(request: Json): Json {
    Get(At(Get(Get(request, "systemInstruction"), "parts"), 0), "text")
  }

  /** What a built request carries, read back through the fields a caller inspects. */
  lemma BuiltFields(modelName: string, input: Json, config: Json)
    requires config.Obj?
    ensures BuildRequest(modelName, input, config).Ok?
    ensures var r := BuildRequest(modelName, input, config).value;
            Get(Get(r, "generationConfig"), "temperature") == Coalesce(Get(config, "temperature"), Num(0.7)) &&
            Get(Get(r, "generationConfig"), "maxOutputTokens") == Coalesce(Get(config, "maxTokens"), Num(512.0)) &&
            InstructionText(r) == Or(Get(config, "systemPrompt"), Str(FallbackSystemPrompt))
  {
    var r := BuildRequest(modelName, input, config).value;
    assert InstructionText(r) == Get(Get(Get(r, "systemInstruction"), "parts").items[0], "text");
  }

  /** The request built from the default config. */
  lemma DefaultConfigRequest(modelName: string, input: Json)
    ensures BuildRequest(modelName, input, Obj(DefaultConfig)).Ok?
    ensures var d := BuildRequest(modelName, input, Obj(DefaultConfig)).value;
            Get(Get(d, "generationConfig"), "temperature") == Num(0.7) &&
            Get(Get(d, "generationConfig"), "maxOutputTokens") == Num(512.0) &&
            InstructionText(d) == Str(DefaultSystemPrompt)
  {
    LookupAt(DefaultConfig, 0, "temperature");
    LookupAt(DefaultConfig, 1, "maxTokens");
    LookupAt(DefaultConfig, 2, "systemPrompt");
    BuiltFields(modelName, input, Obj(DefaultConfig));
  }

  /** The request built from `{}`. */
  lemma EmptyConfigRequest(modelName: string, input: Json)
    ensures BuildRequest(modelName, input, Obj([])).Ok?
    ensures var e := BuildRequest(modelName, input, Obj([])).value;
            Get(Get(e, "generationConfig"), "temperature") == Num(0.7) &&
            Get(Get(e, "generationConfig"), "maxOutputTokens") == Num(512.0) &&
            InstructionText(e) == Str(FallbackSystemPrompt)
  {
    BuiltFields(modelName, input, Obj([]));
  }

  /**
   * Building from the default config gives the fallback numbers, but a
   * system instruction different from the one used for `{}`.
   */
  lemma DefaultConfigPromptDiffers(modelName: string, input: Json)
    ensures BuildRequest(modelName, input, Obj(DefaultConfig)).Ok? && BuildRequest(modelName, input, Obj([])).Ok?
    ensures var d := BuildRequest(modelName, input, Obj(DefaultConfig)).value;
            var e := BuildRequest(modelName, input, Obj([])).value;
            Get(d, "generationConfig") == Get(e, "generationConfig") && InstructionText(d) != InstructionText(e)
  {
    DefaultConfigRequest(modelName, input);
    EmptyConfigRequest(modelName, input);
    assert |DefaultSystemPrompt| != |FallbackSystemPrompt|;
  }
}

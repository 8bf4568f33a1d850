/**
 * The shapes shared by the model adapters: the parsed response every
 * adapter returns, the two-message chat list most of them send, the range
 * checks their `validateConfig` methods make, and the messages of the
 * router's error classes.
 */
module AdapterTypes {
  import opened JsValues

  /** `{ output, usage, raw }` as an adapter's `parseResponse` returns it; `raw` is absent for OpenAI. */
  datatype ParsedResponse = ParsedResponse(output: Json, usage: Json, raw: Option<Json>)

  /** `{ role, content }` */
  function ChatMessage(role: string, content: Json): (m: Json)
    ensures Get(m, "role") == Str(role) && Get(m, "content") == content
  {
    var fields := [("role", Str(role)), ("content", content)];
    LookupAt(fields, 1, "content");
    Obj(fields)
  }

  /** An object literal with four distinct keys: its keys, in order, and the value under each. */
  function Object4(k0: string, v0: Json, k1: string, v1: Json, k2: string, v2: Json, k3: string, v3: Json): (o: Json)
    requires k0 != k1 && k0 != k2 && k0 != k3 && k1 != k2 && k1 != k3 && k2 != k3
    ensures o.Obj? && Keys(o.fields) == [k0, k1, k2, k3]
    ensures Get(o, k0) == v0 && Get(o, k1) == v1 && Get(o, k2) == v2 && Get(o, k3) == v3
  {
    var fields := [(k0, v0), (k1, v1), (k2, v2), (k3, v3)];
    LookupAt(fields, 0, k0);
    LookupAt(fields, 1, k1);
    LookupAt(fields, 2, k2);
    LookupAt(fields, 3, k3);
    Obj(fields)
  }

  /** `actual` is `given ?? fallback`: only `undefined` and `null` are replaced. */
  predicate NullishDefault(actual: Json, given: Json, fallback: Json) {
    (given != Undefined && given != Null ==> actual == given) &&
    (given == Undefined || given == Null ==> actual == fallback)
  }

  /** `actual` is `given || fallback`: every falsy value (0, "", false, null, undefined) is replaced. */
  predicate FalsyDefault(actual: Json, given: Json, fallback: Json) {
    (Truthy(given) ==> actual == given) && (!Truthy(given) ==> actual == fallback)
  }

  /** `{ text }`, one part of a Gemini turn. */
  function TextPart(text: Json): (p: Json)
    ensures Get(p, "text") == text
  {
    Obj([("text", text)])
  }

  /** `[{ role: "system", content: system }, { role: "user", content: input }]` */
  function SystemThenUser(system: Json, input: Json): (ms: Json)
    ensures ms.Arr? && |ms.items| == 2
    ensures Get(At(ms, 0), "role") == Str("system") && Get(At(ms, 0), "content") == system
    ensures Get(At(ms, 1), "role") == Str("user") && Get(At(ms, 1), "content") == input
  {
    Arr([ChatMessage("system", system), ChatMessage("user", input)])
  }

  /** `response.choices?.[0]?.message?.content`, once `response.choices` has been read. */
  function FirstChoiceContent(response: Json): Json {
    Get(Get(At(Get(response, "choices"), 0), "message"), "content")
  }

  /**
   * The `validateConfig` shared by the Google, DeepSeek and Anthropic
   * adapters: the config is an object (`typeof` "object", so also `null`,
   * whose property read throws), its temperature is absent or in [0, 1] and
   * its `maxTokens` is absent or positive.
   */
  function ValidateRanges(config: Json): (r: Result<bool>)
    ensures r.Throw? <==> config == Null
    ensures r.Ok? ==> (r.value <==> (config.Arr? || config.Obj?) &&
                                     AbsentOrUnit(Get(config, "temperature")) &&
                                     AbsentOrPositive(Get(config, "maxTokens")))
  {
    if TypeOf(config) != "object" then Ok(false)
    else
      var temperature :- Member(config, "temperature");
      Ok(AbsentOrUnit(temperature) && AbsentOrPositive(Get(config, "maxTokens")))
  }

  /**
   * `ms` is exactly a system message followed by a user message: the user
   * content is `input`, the system content is `given || fallback`.
   */
  predicate IsSystemThenUser(ms: Json, input: Json, given: Json, fallback: Json) {
    ms.Arr? && |ms.items| == 2 &&
    Get(At(ms, 0), "role") == Str("system") && FalsyDefault(Get(At(ms, 0), "content"), given, fallback) &&
    Get(At(ms, 1), "role") == Str("user") && Get(At(ms, 1), "content") == input
  }

  /** `v === undefined || (typeof v === "number" && v >= 0 && v <= 1)` */
  predicate AbsentOrUnit(v: Json) {
    v == Undefined || (v.Num? && 0.0 <= v.n <= 1.0)
  }

  /** `v === undefined || (typeof v === "number" && v > 0)` */
  predicate AbsentOrPositive(v: Json) {
    v == Undefined || (v.Num? && v.n > 0.0)
  }

  /**
   * `v > 0` with JavaScript's loose comparison, for the operands that occur:
   * a number is compared, `true` counts as 1, `false`, `null` and
   * `undefined` are not greater than 0.
   */
  predicate LooseGreaterThanZero(v: Json) {
    match v
    case Num(n) => n > 0.0
    case Bool(b) => b
    case _ => false
  }

  /** The message of `ModelNotFoundError`. */
  function ModelNotFoundMessage(modelId: string): string {
    "Model '" + modelId + "' not found in registry."
  }
}

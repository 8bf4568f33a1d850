/**
 * The pure parts of the `ai-router` edge function: the request body each
 * `executeX` builds for its provider before the `fetch`, and the
 * `parseResponse` switch that turns a provider's reply into the standard
 * response. Payloads are datatypes with one field per property of the object
 * literal; a property that is only sometimes set is an `Option`.
 */
module AiRouterPayloads {
  import opened JsValues
  import opened AdapterTypes

  // ---------------------------------------------------------------------
  // The message list
  // ---------------------------------------------------------------------

  /** `m.role` inside a `find`/`filter` callback: reading it off `undefined` or `null` throws. */
  function Role(m: Json): Result<Json> {
    Member(m, "role")
  }

  predicate IsNullish(v: Json) {
    v == Undefined || v == Null
  }

  /**
   * `request.messages` used as an array for the method `name`: `undefined` and `null`
   * have no properties and any other non-array has no such method.
   */
  function MessageArray(request: Json, name: string): (r: Result<seq<Json>>)
    ensures r.Ok? <==> Get(request, "messages").Arr?
    ensures r.Ok? ==> r.value == Get(request, "messages").items
  {
    var ms := Get(request, "messages");
    if ms == Undefined then Throw("Cannot read properties of undefined (reading '" + name + "')")
    else if ms == Null then Throw("Cannot read properties of null (reading '" + name + "')")
    else if !ms.Arr? then Throw("request.messages." + name + " is not a function")
    else Ok(ms.items)
  }

  /**
   * `ms.find(m => m.role === role)`: the first message with that role, or
   * `undefined`; it throws on a nullish message met before that one.
   */
  function FindRole(ms: seq<Json>, role: string): (r: Result<Json>)
    ensures r.Throw? <==> exists i :: 0 <= i < |ms| && IsNullish(ms[i]) && forall j :: 0 <= j < i ==> Get(ms[j], "role") != Str(role)
    ensures r.Ok? && r.value != Undefined ==>
      exists i :: 0 <= i < |ms| && ms[i] == r.value && Get(ms[i], "role") == Str(role) &&
                  forall j :: 0 <= j < i ==> Get(ms[j], "role") != Str(role)
    ensures r.Ok? && r.value == Undefined ==> forall i :: 0 <= i < |ms| ==> Get(ms[i], "role") != Str(role)
  {
    if ms == [] then Ok(Undefined)
    else
      var role0 :- Role(ms[0]);
      if role0 == Str(role) then Ok(ms[0])
      else
        var rest := FindRole(ms[1..], role);
        assert forall i :: 1 <= i < |ms| ==> ms[i] == ms[1..][i - 1];
        rest
  }

  /** The messages whose role is not `role`, in their order and with their repetitions. */
  function OtherRoles(ms: seq<Json>, role: string): (r: seq<Json>)
    ensures |r| <= |ms|
    decreases |ms|
  {
    if ms == [] then []
    else (if Get(ms[0], "role") == Str(role) then [] else [ms[0]]) + OtherRoles(ms[1..], role)
  }

  /** The selected messages are exactly the messages of other roles. */
  lemma {:induction false} OtherRolesMembers(ms: seq<Json>, role: string)
    ensures forall m :: m in OtherRoles(ms, role) <==> m in ms && Get(m, "role") != Str(role)
    decreases |ms|
  {
    if ms != [] {
      OtherRolesMembers(ms[1..], role);
      assert forall m :: m in ms <==> m == ms[0] || m in ms[1..];
    }
  }

  /** Selecting the other roles distributes over concatenation, so it keeps the order of the messages. */
  lemma {:induction false} OtherRolesAppend(a: seq<Json>, b: seq<Json>, role: string)
    ensures OtherRoles(a + b, role) == OtherRoles(a, role) + OtherRoles(b, role)
    decreases |a|
  {
    if a != [] {
      var head := if Get(a[0], "role") == Str(role) then [] else [a[0]];
      assert (a + b)[0] == a[0] && (a + b)[1..] == a[1..] + b;
      OtherRolesAppend(a[1..], b, role);
      calc {
        OtherRoles(a + b, role);
        head + OtherRoles(a[1..] + b, role);
        head + (OtherRoles(a[1..], role) + OtherRoles(b, role));
        (head + OtherRoles(a[1..], role)) + OtherRoles(b, role);
      }
    } else {
      assert a + b == b;
    }
  }

  /** A list with no message of that role is kept as it is. */
  lemma {:induction false} OtherRolesKeepsAll(ms: seq<Json>, role: string)
    requires forall i :: 0 <= i < |ms| ==> Get(ms[i], "role") != Str(role)
    ensures OtherRoles(ms, role) == ms
    decreases |ms|
  {
    if ms != [] {
      OtherRolesKeepsAll(ms[1..], role);
    }
  }

  /**
   * `ms.filter(m => m.role !== role)`: the other messages, in order; it
   * throws if any message is nullish.
   */
  function DropRole(ms: seq<Json>, role: string): (r: Result<seq<Json>>)
    ensures r.Throw? <==> exists i :: 0 <= i < |ms| && IsNullish(ms[i])
    ensures r.Ok? ==> r.value == OtherRoles(ms, role)
    decreases |ms|
  {
    if ms == [] then Ok([])
    else
      var init :- DropRole(ms[..|ms| - 1], role);
      var last := ms[|ms| - 1];
      var lastRole :- Role(last);
      OtherRolesAppend(ms[..|ms| - 1], [last], role);
      assert ms[..|ms| - 1] + [last] == ms;
      if lastRole == Str(role) then Ok(init) else Ok(init + [last])
  }

  // ---------------------------------------------------------------------
  // Payloads
  // ---------------------------------------------------------------------

  /** The models that take `max_completion_tokens` and no temperature. */
  const CompletionTokenModels: set<string> := {"o3", "o3-mini", "o4-mini"}

  /** The models that get the `web_search` tool. */
  const WebSearchModels: set<string> := {"gpt-4.1", "gpt-4.1-mini-2025-04-14"}

  /** The body `executeOpenAI` posts; `webSearchTool` stands for the one-element `tools` array. */
  datatype OpenAIPayload = OpenAIPayload(
    model: string, messages: Json, maxCompletionTokens: Option<Json>, maxTokens: Option<Json>,
    temperature: Option<Json>, webSearchTool: bool)

  function BuildOpenAI(modelId: string, request: Json): (p: OpenAIPayload)
    ensures p.model == modelId && p.messages == Get(request, "messages")
    ensures modelId in CompletionTokenModels ==>
              p.maxCompletionTokens.Some? && FalsyDefault(p.maxCompletionTokens.value, Get(request, "maxTokens"), Num(512.0)) &&
              p.maxTokens.None? && p.temperature.None?
    ensures modelId !in CompletionTokenModels ==>
              p.maxCompletionTokens.None? &&
              p.maxTokens.Some? && FalsyDefault(p.maxTokens.value, Get(request, "maxTokens"), Num(512.0)) &&
              p.temperature.Some? && NullishDefault(p.temperature.value, Get(request, "temperature"), Num(0.7))
    ensures p.webSearchTool <==> Truthy(Get(request, "enableWebSearch")) && modelId in WebSearchModels
  {
    var maxTokens := Or(Get(request, "maxTokens"), Num(512.0));
    var completion := modelId in CompletionTokenModels;
    OpenAIPayload(
      modelId, Get(request, "messages"),
      if completion then Some(maxTokens) else None,
      if completion then None else Some(maxTokens),
      if completion then None else Some(Coalesce(Get(request, "temperature"), Num(0.7))),
      Truthy(Get(request, "enableWebSearch")) && modelId in WebSearchModels)
  }

  /**
   * JavaScript `Number(v)` for the operands that occur, with `None` for NaN.
   * Strings are taken as NaN (numeric strings are not parsed).
   */
  function ToNumber(v: Json): Option<real> {
    match v
    case Num(n) => Some(n)
    case Bool(b) => Some(if b then 1.0 else 0.0)
    case Null => Some(0.0)
    case _ => None
  }

  /** `Math.min(v, cap)`: NaN when `v` is not a number. */
  function MinWith(v: Json, cap: real): (r: Option<real>)
    ensures r.Some? ==> r.value <= cap
    ensures r.Some? <==> ToNumber(v).Some?
    ensures r.Some? ==> r.value <= ToNumber(v).value
    ensures r.Some? ==> r.value == ToNumber(v).value || r.value == cap
  {
    match ToNumber(v)
    case Some(n) => Some(if n < cap then n else cap)
    case None => None
  }

  /**
   * `request.systemPrompt || request.messages.find(m => m.role === 'system')?.content`:
   * the search only runs when the given prompt is falsy.
   */
  function SystemPrompt(request: Json): (r: Result<Json>)
    ensures Truthy(Get(request, "systemPrompt")) ==> r == Ok(Get(request, "systemPrompt"))
    ensures !Truthy(Get(request, "systemPrompt")) ==>
              (r.Ok? <==> Get(request, "messages").Arr? && FindRole(Get(request, "messages").items, "system").Ok?)
    ensures !Truthy(Get(request, "systemPrompt")) && r.Ok? ==>
              r.value == Get(FindRole(Get(request, "messages").items, "system").value, "content")
  {
    var given := Get(request, "systemPrompt");
    if Truthy(given) then Ok(given)
    else
      var ms :- MessageArray(request, "find");
      var found :- FindRole(ms, "system");
      Ok(Get(found, "content"))
  }

  /** The body `executeAnthropic` posts; `maxTokens` is `None` when `Math.min` yields NaN. */
  datatype AnthropicPayload = AnthropicPayload(
    model: string, system: Json, messages: seq<Json>, maxTokens: Option<real>, temperature: Json)

  const ClaudeSystemPrompt := "You are Claude, a helpful AI assistant."

  function BuildAnthropic(modelId: string, request: Json): (r: Result<AnthropicPayload>)
    ensures r.Ok? ==> r.value.model == modelId
    ensures r.Ok? ==> SystemPrompt(request).Ok? && FalsyDefault(r.value.system, SystemPrompt(request).value, Str(ClaudeSystemPrompt))
    ensures r.Ok? ==> Get(request, "messages").Arr? && r.value.messages == OtherRoles(Get(request, "messages").items, "system")
    ensures r.Ok? ==> r.value.maxTokens.Some? ==> r.value.maxTokens.value <= 16384.0
    ensures r.Ok? && !Truthy(Get(request, "maxTokens")) ==> r.value.maxTokens == Some(4096.0)
    ensures r.Ok? ==> r.value.maxTokens == MinWith(Or(Get(request, "maxTokens"), Num(4096.0)), 16384.0)
    ensures r.Ok? ==> NullishDefault(r.value.temperature, Get(request, "temperature"), Num(0.7))
    ensures r.Ok? <==> Get(request, "messages").Arr? && SystemPrompt(request).Ok? &&
                       forall i :: 0 <= i < |Get(request, "messages").items| ==> !IsNullish(Get(request, "messages").items[i])
  {
    var systemPrompt :- SystemPrompt(request);
    var ms :- MessageArray(request, "filter");
    var messages :- DropRole(ms, "system");
    Ok(AnthropicPayload(
      modelId, Or(systemPrompt, Str(ClaudeSystemPrompt)), messages,
      MinWith(Or(Get(request, "maxTokens"), Num(4096.0)), 16384.0),
      Coalesce(Get(request, "temperature"), Num(0.7))))
  }

  /** One Gemini turn `{ role, parts: [{ text }] }`. */
  datatype Turn = Turn(role: string, text: Json)

  /** `role: m.role === 'assistant' ? 'model' : 'user'` */
  function GeminiTurn(m: Json): (t: Turn)
    ensures t.role == (if Get(m, "role") == Str("assistant") then "model" else "user")
    ensures t.text == Get(m, "content")
  {
    Turn(if Get(m, "role") == Str("assistant") then "model" else "user", Get(m, "content"))
  }

  /** The body `executeGoogle` posts; `systemInstruction` holds the text of its one part. */
  datatype GooglePayload = GooglePayload(
    contents: seq<Turn>, temperature: Json, maxOutputTokens: Json, systemInstruction: Option<Json>)

  function BuildGoogle(request: Json): (r: Result<GooglePayload>)
    ensures r.Ok? <==> Get(request, "messages").Arr? && SystemPrompt(request).Ok? &&
                       forall i :: 0 <= i < |Get(request, "messages").items| ==> !IsNullish(Get(request, "messages").items[i])
    ensures r.Ok? ==> var kept := OtherRoles(Get(request, "messages").items, "system");
                      |r.value.contents| == |kept| &&
                      forall i :: 0 <= i < |kept| ==> r.value.contents[i] == GeminiTurn(kept[i])
    ensures r.Ok? ==> NullishDefault(r.value.temperature, Get(request, "temperature"), Num(0.7))
    ensures r.Ok? ==> FalsyDefault(r.value.maxOutputTokens, Get(request, "maxTokens"), Num(512.0))
    ensures r.Ok? ==> (r.value.systemInstruction.Some? <==> Truthy(SystemPrompt(request).value))
    ensures r.Ok? && r.value.systemInstruction.Some? ==> r.value.systemInstruction.value == SystemPrompt(request).value
  {
    var systemPrompt :- SystemPrompt(request);
    var ms :- MessageArray(request, "filter");
    var kept :- DropRole(ms, "system");
    var contents := seq(|kept|, i requires 0 <= i < |kept| => GeminiTurn(kept[i]));
    Ok(GooglePayload(
      contents, Coalesce(Get(request, "temperature"), Num(0.7)), Or(Get(request, "maxTokens"), Num(512.0)),
      if Truthy(systemPrompt) then Some(systemPrompt) else None))
  }

  /**
   * The OpenAI-style body `executeMistral`, `executeXAI` and `executeDeepSeek`
   * post (DeepSeek lower-cases the model id).
   */
  datatype ChatPayload = ChatPayload(model: string, messages: Json, temperature: Json, maxTokens: Json)

  function BuildChat(model: string, request: Json): (p: ChatPayload)
    ensures p.model == model && p.messages == Get(request, "messages")
    ensures NullishDefault(p.temperature, Get(request, "temperature"), Num(0.7))
    ensures FalsyDefault(p.maxTokens, Get(request, "maxTokens"), Num(512.0))
  {
    ChatPayload(model, Get(request, "messages"), Coalesce(Get(request, "temperature"), Num(0.7)),
                Or(Get(request, "maxTokens"), Num(512.0)))
  }

  /** The body `executeCohere` posts: one user message and a preamble. */
  datatype CoherePayload = CoherePayload(model: string, message: Json, preamble: Json, temperature: Json, maxTokens: Json)

  function BuildCohere(modelId: string, request: Json): (r: Result<CoherePayload>)
    ensures r.Ok? ==> r.value.model == modelId
    ensures r.Ok? ==> MessageArray(request, "find").Ok? &&
                      (var found := FindRole(MessageArray(request, "find").value, "user");
                       found.Ok? && FalsyDefault(r.value.message, Get(found.value, "content"), Str("")))
    ensures r.Ok? ==> SystemPrompt(request).Ok? &&
                      FalsyDefault(r.value.preamble, SystemPrompt(request).value, Str("You are a helpful AI assistant."))
    ensures r.Ok? ==> NullishDefault(r.value.temperature, Get(request, "temperature"), Num(0.7))
    ensures r.Ok? ==> FalsyDefault(r.value.maxTokens, Get(request, "maxTokens"), Num(512.0))
    ensures r.Ok? <==> MessageArray(request, "find").Ok? && FindRole(MessageArray(request, "find").value, "user").Ok? &&
                       SystemPrompt(request).Ok?
  {
    var ms :- MessageArray(request, "find");
    var user :- FindRole(ms, "user");
    var systemPrompt :- SystemPrompt(request);
    Ok(CoherePayload(
      modelId, Or(Get(user, "content"), Str("")), Or(systemPrompt, Str("You are a helpful AI assistant.")),
      Coalesce(Get(request, "temperature"), Num(0.7)), Or(Get(request, "maxTokens"), Num(512.0))))
  }

  /** The body `executePerplexity` posts, with its fixed sampling settings. */
  datatype PerplexityPayload = PerplexityPayload(
    model: string, messages: Json, temperature: Json, maxTokens: Json, topP: real, returnImages: bool,
    returnRelatedQuestions: bool, frequencyPenalty: real, presencePenalty: real)

  function BuildPerplexity(modelId: string, request: Json): (p: PerplexityPayload)
    ensures p.model == modelId && p.messages == Get(request, "messages")
    ensures NullishDefault(p.temperature, Get(request, "temperature"), Num(0.7))
    ensures FalsyDefault(p.maxTokens, Get(request, "maxTokens"), Num(8000.0))
    ensures p.topP == 0.9 && !p.returnImages && !p.returnRelatedQuestions && p.frequencyPenalty == 1.0 && p.presencePenalty == 0.0
  {
    PerplexityPayload(modelId, Get(request, "messages"), Coalesce(Get(request, "temperature"), Num(0.7)),
                      Or(Get(request, "maxTokens"), Num(8000.0)), 0.9, false, false, 1.0, 0.0)
  }

  /** The provider names the handler's `switch` statements recognise. */
  datatype ProviderKind = OpenAI | Anthropic | Google | Mistral | Cohere | XAI | DeepSeek | Perplexity | Mock

  /** The `case` label a provider name matches, if any. */
  function KindOf(provider: string): (k: Option<ProviderKind>)
    ensures k.Some? ==> Label(k.value) == provider
  {
    if provider == "OpenAI" then Some(OpenAI)
    else if provider == "Anthropic" then Some(Anthropic)
    else if provider == "Google Gemini" then Some(Google)
    else if provider == "Mistral" then Some(Mistral)
    else if provider == "Cohere" then Some(Cohere)
    else if provider == "XAI" then Some(XAI)
    else if provider == "DeepSeek" then Some(DeepSeek)
    else if provider == "Perplexity" then Some(Perplexity)
    else if provider == "Mock" then Some(Mock)
    else None
  }

  function Label(k: ProviderKind): string {
    match k
    case OpenAI => "OpenAI"
    case Anthropic => "Anthropic"
    case Google => "Google Gemini"
    case Mistral => "Mistral"
    case Cohere => "Cohere"
    case XAI => "XAI"
    case DeepSeek => "DeepSeek"
    case Perplexity => "Perplexity"
    case Mock => "Mock"
  }

  /** Every label is recognised as itself. */
  lemma KindOfLabel(k: ProviderKind)
    ensures KindOf(Label(k)) == Some(k)
  {
  }

  /** What the handler's `switch (provider)` dispatches to. */
  datatype Payload =
    | ToOpenAI(openai: OpenAIPayload)
    | ToAnthropic(anthropic: AnthropicPayload)
    | ToGoogle(modelId: string, google: GooglePayload)
    | ToMistral(mistral: ChatPayload)
    | ToCohere(cohere: CoherePayload)
    | ToXAI(xai: ChatPayload)
    | ToDeepSeek(deepseek: ChatPayload)
    | ToPerplexity(perplexity: PerplexityPayload)

  /** The payload for `provider`, or the `Unsupported provider` error; `Mock` is never dispatched. */
  function BuildPayload(provider: string, modelId: string, request: Json): (r: Result<Payload>)
    ensures KindOf(provider).None? || KindOf(provider) == Some(Mock) ==> r == Throw("Unsupported provider: " + provider)
    ensures KindOf(provider) == Some(DeepSeek) ==> r == Ok(ToDeepSeek(BuildChat(ToLower(modelId), request)))
    ensures KindOf(provider) == Some(OpenAI) ==> r == Ok(ToOpenAI(BuildOpenAI(modelId, request)))
    ensures KindOf(provider) == Some(Mistral) ==> r == Ok(ToMistral(BuildChat(modelId, request)))
    ensures KindOf(provider) == Some(XAI) ==> r == Ok(ToXAI(BuildChat(modelId, request)))
    ensures KindOf(provider) == Some(Perplexity) ==> r == Ok(ToPerplexity(BuildPerplexity(modelId, request)))
    ensures KindOf(provider) == Some(Anthropic) ==>
              (r.Ok? <==> BuildAnthropic(modelId, request).Ok?) &&
              (r.Ok? ==> r.value == ToAnthropic(BuildAnthropic(modelId, request).value)) &&
              (r.Throw? ==> r.message == BuildAnthropic(modelId, request).message)
    ensures KindOf(provider) == Some(Google) ==>
              (r.Ok? <==> BuildGoogle(request).Ok?) &&
              (r.Ok? ==> r.value == ToGoogle(modelId, BuildGoogle(request).value)) &&
              (r.Throw? ==> r.message == BuildGoogle(request).message)
    ensures KindOf(provider) == Some(Cohere) ==>
              (r.Ok? <==> BuildCohere(modelId, request).Ok?) &&
              (r.Ok? ==> r.value == ToCohere(BuildCohere(modelId, request).value)) &&
              (r.Throw? ==> r.message == BuildCohere(modelId, request).message)
  {
    match KindOf(provider)
    case Some(OpenAI) => Ok(ToOpenAI(BuildOpenAI(modelId, request)))
    case Some(Anthropic) =>
      var p :- BuildAnthropic(modelId, request);
      Ok(ToAnthropic(p))
    case Some(Google) =>
      var p :- BuildGoogle(request);
      Ok(ToGoogle(modelId, p))
    case Some(Mistral) => Ok(ToMistral(BuildChat(modelId, request)))
    case Some(Cohere) =>
      var p :- BuildCohere(modelId, request);
      Ok(ToCohere(p))
    case Some(XAI) => Ok(ToXAI(BuildChat(modelId, request)))
    case Some(DeepSeek) => Ok(ToDeepSeek(BuildChat(ToLower(modelId), request)))
    case Some(Perplexity) => Ok(ToPerplexity(BuildPerplexity(modelId, request)))
    case _ => Throw("Unsupported provider: " + provider)
  }

  // ---------------------------------------------------------------------
  // Responses
  // ---------------------------------------------------------------------

  /** `{ output, usage: { inputTokens, outputTokens }, citations?, raw }` */
  datatype StandardResponse = StandardResponse(
    output: Json, inputTokens: Json, outputTokens: Json, citations: Option<Json>, raw: Json)

  /** `x || ''` and `x || 0` leave a value that is truthy or the default. */
  predicate TruthyOr(v: Json, default: Json) {
    Truthy(v) || v == default
  }

  function ChatCompletion(response: Json, citations: Option<Json>): StandardResponse {
    var usage := Get(response, "usage");
    StandardResponse(
      Or(FirstChoiceContent(response), Str("")),
      Or(Get(usage, "prompt_tokens"), Num(0.0)), Or(Get(usage, "completion_tokens"), Num(0.0)),
      citations, response)
  }

  /** `parseResponse(provider, response)` */
  function ParseResponse(provider: string, response: Json): (r: Result<StandardResponse>)
    ensures r.Throw? <==> KindOf(provider).None? || (KindOf(provider) != Some(Mock) && IsNullish(response))
    ensures KindOf(provider).None? ==> r == Throw("Unknown provider: " + provider)
    ensures r.Ok? ==> r.value.raw == response
    ensures r.Ok? ==> TruthyOr(r.value.output, Str("")) &&
                      TruthyOr(r.value.inputTokens, Num(0.0)) && TruthyOr(r.value.outputTokens, Num(0.0))
    ensures r.Ok? ==> (r.value.citations.Some? <==> KindOf(provider) == Some(Perplexity))
    ensures r.Ok? && KindOf(provider) == Some(Perplexity) ==> TruthyOr(r.value.citations.value, Arr([]))
    ensures r.Ok? && KindOf(provider) != Some(Mock) ==> r.value == Parse(KindOf(provider).value, response)
    ensures KindOf(provider) == Some(Mock) ==> r == Ok(Parse(Mock, response))
  {
    match KindOf(provider)
    case None => Throw("Unknown provider: " + provider)
    case Some(Mock) => Ok(StandardResponse(Str("[Mock response for model]"), Num(10.0), Num(10.0), None, response))
    case Some(kind) => if IsNullish(response) then Throw(NullishReplyMessage(kind, response)) else Ok(Parse(kind, response))
  }

  /** The property a provider's reply is first read at, without optional chaining. */
  function FirstField(kind: ProviderKind): string {
    match kind
    case Anthropic => "content"
    case Google => "candidates"
    case Cohere => "generations"
    case _ => "choices"
  }

  function NullishReplyMessage(kind: ProviderKind, response: Json): string {
    "Cannot read properties of " + (if response == Null then "null" else "undefined") + " (reading '" + FirstField(kind) + "')"
  }

  /** Where the reply of a provider of `kind` carries its text. */
  function TextAt(kind: ProviderKind, response: Json): Json {
    match kind
    case Anthropic => Get(At(Get(response, "content"), 0), "text")
    case Google => Get(At(Get(Get(At(Get(response, "candidates"), 0), "content"), "parts"), 0), "text")
    case Cohere => Get(At(Get(response, "generations"), 0), "text")
    case _ => Get(Get(At(Get(response, "choices"), 0), "message"), "content")
  }

  /** Where the reply of a provider of `kind` carries its two token counts. */
  function TokensAt(kind: ProviderKind, response: Json): (Json, Json) {
    match kind
    case Anthropic => (Get(Get(response, "usage"), "input_tokens"), Get(Get(response, "usage"), "output_tokens"))
    case Google => (Get(Get(response, "usageMetadata"), "promptTokenCount"), Get(Get(response, "usageMetadata"), "candidatesTokenCount"))
    case Cohere => (Get(Get(Get(response, "meta"), "usage"), "input_tokens"), Get(Get(Get(response, "meta"), "usage"), "output_tokens"))
    case _ => (Get(Get(response, "usage"), "prompt_tokens"), Get(Get(response, "usage"), "completion_tokens"))
  }

  /** A provider's reply that is not nullish, read along that provider's paths. */
  function Parse(kind: ProviderKind, response: Json): (s: StandardResponse)
    ensures kind != Mock ==>
              FalsyDefault(s.output, TextAt(kind, response), Str("")) &&
              FalsyDefault(s.inputTokens, TokensAt(kind, response).0, Num(0.0)) &&
              FalsyDefault(s.outputTokens, TokensAt(kind, response).1, Num(0.0))
    ensures kind == Mock ==> s == StandardResponse(Str("[Mock response for model]"), Num(10.0), Num(10.0), None, response)
    ensures s.raw == response
    ensures TruthyOr(s.output, Str("")) && TruthyOr(s.inputTokens, Num(0.0)) && TruthyOr(s.outputTokens, Num(0.0))
    ensures s.citations.Some? <==> kind == Perplexity
    ensures kind == Perplexity ==> FalsyDefault(s.citations.value, Get(response, "citations"), Arr([]))
    ensures !Truthy(Get(response, FirstField(kind))) && kind != Mock ==> s.output == Str("")
  {
    match kind
    case Anthropic =>
      var usage := Get(response, "usage");
      StandardResponse(
        Or(Get(At(Get(response, "content"), 0), "text"), Str("")),
        Or(Get(usage, "input_tokens"), Num(0.0)), Or(Get(usage, "output_tokens"), Num(0.0)), None, response)
    case Google =>
      var usage := Get(response, "usageMetadata");
      var parts := Get(Get(At(Get(response, "candidates"), 0), "content"), "parts");
      StandardResponse(
        Or(Get(At(parts, 0), "text"), Str("")),
        Or(Get(usage, "promptTokenCount"), Num(0.0)), Or(Get(usage, "candidatesTokenCount"), Num(0.0)), None, response)
    case Cohere =>
      var usage := Get(Get(response, "meta"), "usage");
      StandardResponse(
        Or(Get(At(Get(response, "generations"), 0), "text"), Str("")),
        Or(Get(usage, "input_tokens"), Num(0.0)), Or(Get(usage, "output_tokens"), Num(0.0)), None, response)
    case Perplexity => ChatCompletion(response, Some(Or(Get(response, "citations"), Arr([]))))
    case Mock => StandardResponse(Str("[Mock response for model]"), Num(10.0), Num(10.0), None, response)
    case _ => ChatCompletion(response, None)
  }

  /** A reply with none of the expected fields parses to "" and zero tokens for every provider that is called. */
  lemma EmptyReplyDefaults(kind: ProviderKind)
    requires kind != Mock
    ensures Parse(kind, Obj([])).output == Str("")
    ensures Parse(kind, Obj([])).inputTokens == Num(0.0) && Parse(kind, Obj([])).outputTokens == Num(0.0)
  {
  }

  /**
   * A reply in the shape the provider of `kind` answers with: the text `t`
   * at the path its output is read from, and the counts `a` and `b` where its
   * usage is read from.
   */
  function Reply(kind: ProviderKind, t: string, a: Json, b: Json): Json {
    match kind
    case Anthropic =>
      Obj([("content", Arr([Obj([("text", Str(t))])])),
           ("usage", Obj([("input_tokens", a), ("output_tokens", b)]))])
    case Google =>
      Obj([("candidates", Arr([Obj([("content", Obj([("parts", Arr([Obj([("text", Str(t))])]))]))])])),
           ("usageMetadata", Obj([("promptTokenCount", a), ("candidatesTokenCount", b)]))])
    case Cohere =>
      Obj([("generations", Arr([Obj([("text", Str(t))])])),
           ("meta", Obj([("usage", Obj([("input_tokens", a), ("output_tokens", b)]))]))])
    case _ =>
      Obj([("choices", Arr([Obj([("message", Obj([("content", Str(t))]))])])),
           ("usage", Obj([("prompt_tokens", a), ("completion_tokens", b)]))])
  }

  /**
   * The provider's text and token counts come back in the standard response:
   * a reply that carries a non-empty text and truthy counts parses to exactly
   * those, with empty citations for Perplexity.
   */
  lemma ParseReadsReply(kind: ProviderKind, t: string, a: Json, b: Json)
    requires kind != Mock && t != "" && Truthy(a) && Truthy(b)
    ensures ParseResponse(Label(kind), Reply(kind, t, a, b)) ==
            Ok(StandardResponse(Str(t), a, b, if kind == Perplexity then Some(Arr([])) else None, Reply(kind, t, a, b)))
  {
    KindOfLabel(kind);
    var reply := Reply(kind, t, a, b);
    assert ParseResponse(Label(kind), reply) == Ok(Parse(kind, reply));
    ReplyFields(kind, t, a, b);
  }

  /** Reading a reply along its provider's paths finds what was put there. */
  lemma ReplyFields(kind: ProviderKind, t: string, a: Json, b: Json)
    requires kind != Mock && t != "" && Truthy(a) && Truthy(b)
    ensures Parse(kind, Reply(kind, t, a, b)) ==
            StandardResponse(Str(t), a, b, if kind == Perplexity then Some(Arr([])) else None, Reply(kind, t, a, b))
  {
    match kind
    case Anthropic => AnthropicReplyFields(t, a, b);
    case Google => GoogleReplyFields(t, a, b);
    case Cohere => CohereReplyFields(t, a, b);
    case _ => ChatReplyFields(kind, t, a, b);
  }

  lemma AnthropicReplyFields(t: string, a: Json, b: Json)
    requires t != ""
    ensures var reply := Reply(Anthropic, t, a, b);
      Get(At(Get(reply, "content"), 0), "text") == Str(t) &&
      Get(Get(reply, "usage"), "input_tokens") == a && Get(Get(reply, "usage"), "output_tokens") == b
  {
    var reply := Reply(Anthropic, t, a, b);
    LookupAt(reply.fields, 1, "usage");
    LookupAt(Get(reply, "usage").fields, 1, "output_tokens");
  }

  lemma GoogleReplyFields(t: string, a: Json, b: Json)
    requires t != ""
    ensures var reply := Reply(Google, t, a, b);
      Get(At(Get(Get(At(Get(reply, "candidates"), 0), "content"), "parts"), 0), "text") == Str(t) &&
      Get(Get(reply, "usageMetadata"), "promptTokenCount") == a &&
      Get(Get(reply, "usageMetadata"), "candidatesTokenCount") == b
  {
    var reply := Reply(Google, t, a, b);
    LookupAt(reply.fields, 1, "usageMetadata");
    LookupAt(Get(reply, "usageMetadata").fields, 1, "candidatesTokenCount");
  }

  lemma CohereReplyFields(t: string, a: Json, b: Json)
    requires t != ""
    ensures var reply := Reply(Cohere, t, a, b);
      Get(At(Get(reply, "generations"), 0), "text") == Str(t) &&
      Get(Get(Get(reply, "meta"), "usage"), "input_tokens") == a &&
      Get(Get(Get(reply, "meta"), "usage"), "output_tokens") == b
  {
    var reply := Reply(Cohere, t, a, b);
    LookupAt(reply.fields, 1, "meta");
    LookupAt(Get(Get(reply, "meta"), "usage").fields, 1, "output_tokens");
  }

  lemma ChatReplyFields(kind: ProviderKind, t: string, a: Json, b: Json)
    requires kind !in {Anthropic, Google, Cohere, Mock} && t != ""
    ensures var reply := Reply(kind, t, a, b);
      FirstChoiceContent(reply) == Str(t) &&
      Get(Get(reply, "usage"), "prompt_tokens") == a && Get(Get(reply, "usage"), "completion_tokens") == b &&
      Get(reply, "citations") == Undefined
  {
    var reply := Reply(kind, t, a, b);
    assert reply == Obj([("choices", Arr([Obj([("message", Obj([("content", Str(t))]))])])),
                         ("usage", Obj([("prompt_tokens", a), ("completion_tokens", b)]))]);
    LookupAt(reply.fields, 1, "usage");
    LookupAt(Get(reply, "usage").fields, 1, "completion_tokens");
    assert "choices" != "citations" && "usage" != "citations";
    LookupFirst(reply.fields, "citations");
  }
}

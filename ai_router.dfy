/**
 * The request handler of the `ai-router` edge function: the guard sequence
 * from the request body to the provider call, the edge function's own model
 * table, and `getApiKey` over the `api_keys` table. The database, `fetch`
 * and the environment are outside the model: the key table, each
 * provider's HTTP reply and the request body are parameters, and the
 * external calls the handler makes are returned as a trace.
 */
module AiRouter {
  import opened JsValues
  import opened AiRouterPayloads

  // ---------------------------------------------------------------------
  // API keys
  // ---------------------------------------------------------------------

  /** A row of `api_keys`, as far as the lookups select it. */
  datatype KeyRow = KeyRow(userId: string, provider: string, model: string, apiKey: Json)

  /** The key table, or a database that cannot be reached (every query throws). */
  datatype KeyStore = Available(rows: seq<KeyRow>) | Unreachable

  /** The `.eq` filters on user, provider and, when given, model. */
  predicate Selects(row: KeyRow, userId: string, provider: string, model: Option<string>) {
    row.userId == userId && row.provider == provider && (model.None? || row.model == model.value)
  }

  /** `rows[i]` is the first row the filters select. */
  ghost predicate FirstSelected(rows: seq<KeyRow>, i: int, userId: string, provider: string, model: Option<string>) {
    0 <= i < |rows| && Selects(rows[i], userId, provider, model) &&
    forall j :: 0 <= j < i ==> !Selects(rows[j], userId, provider, model)
  }

  /** Past an unselected first row, the first selected row of the rest is the first of the table. */
  lemma FirstSelectedShift(rows: seq<KeyRow>, userId: string, provider: string, model: Option<string>, x: KeyRow)
    requires rows != [] && !Selects(rows[0], userId, provider, model)
    requires exists i :: FirstSelected(rows[1..], i, userId, provider, model) && x == rows[1..][i]
    ensures exists i :: FirstSelected(rows, i, userId, provider, model) && x == rows[i]
  {
    var i :| FirstSelected(rows[1..], i, userId, provider, model) && x == rows[1..][i];
    forall j | 0 <= j < i + 1 ensures !Selects(rows[j], userId, provider, model) {
      if j > 0 { assert rows[j] == rows[1..][j - 1]; }
    }
    assert FirstSelected(rows, i + 1, userId, provider, model);
  }

  /**
   * The rows a chain of `.eq` filters selects: every selected row of the
   * table and no other, the first selected row first.
   */
  function RowsFor(rows: seq<KeyRow>, userId: string, provider: string, model: Option<string>): (r: seq<KeyRow>)
    ensures |r| <= |rows|
    ensures forall i :: 0 <= i < |r| ==> r[i] in rows && Selects(r[i], userId, provider, model)
    ensures forall i :: 0 <= i < |rows| && Selects(rows[i], userId, provider, model) ==> rows[i] in r
    ensures r != [] ==> exists i :: FirstSelected(rows, i, userId, provider, model) && r[0] == rows[i]
    decreases |rows|
  {
    if rows == [] then []
    else
      var row := rows[0];
      var rest := RowsFor(rows[1..], userId, provider, model);
      assert forall i :: 1 <= i < |rows| ==> rows[i] == rows[1..][i - 1];
      if Selects(row, userId, provider, model) then
        assert FirstSelected(rows, 0, userId, provider, model);
        [row] + rest
      else if rest == [] then rest
      else
        FirstSelectedShift(rows, userId, provider, model, rest[0]);
        rest
  }

  lemma {:induction false} RowsForEmptyIff(rows: seq<KeyRow>, userId: string, provider: string)
    ensures RowsFor(rows, userId, provider, None) == [] <==>
            forall i :: 0 <= i < |rows| ==> rows[i].userId != userId || rows[i].provider != provider
    decreases |rows|
  {
    if rows != [] {
      RowsForEmptyIff(rows[1..], userId, provider);
      assert forall i :: 1 <= i < |rows| ==> rows[i] == rows[1..][i - 1];
    }
  }

  /**
   * `getApiKey(supabase, userId, provider, modelId)`. The exact query ends in
   * `.maybeSingle()`, which yields the row only when exactly one matches; a
   * falsy key there falls through to the first key of the provider, which is
   * returned as it is. `null` is `Null`.
   */
  function GetApiKey(store: KeyStore, userId: string, provider: string, modelId: string): (key: Json)
    ensures store.Unreachable? ==> key == Null
    ensures key != Null ==> exists i :: 0 <= i < |store.rows| && store.rows[i].userId == userId &&
                                        store.rows[i].provider == provider && store.rows[i].apiKey == key
  {
    match store
    case Unreachable => Null
    case Available(rows) =>
      var exact := RowsFor(rows, userId, provider, Some(modelId));
      var fallback := RowsFor(rows, userId, provider, None);
      if |exact| == 1 && Truthy(exact[0].apiKey) then exact[0].apiKey
      else if |fallback| > 0 then fallback[0].apiKey
      else Null
  }

  /** The order in which `getApiKey` falls back. */
  lemma ApiKeyFallbackOrder(rows: seq<KeyRow>, userId: string, provider: string, modelId: string)
    ensures var exact := RowsFor(rows, userId, provider, Some(modelId));
      |exact| == 1 && Truthy(exact[0].apiKey) ==> GetApiKey(Available(rows), userId, provider, modelId) == exact[0].apiKey
    ensures (forall i :: 0 <= i < |rows| ==> rows[i].userId != userId || rows[i].provider != provider) ==>
            GetApiKey(Available(rows), userId, provider, modelId) == Null
    ensures var fallback := RowsFor(rows, userId, provider, None);
      fallback != [] && (|RowsFor(rows, userId, provider, Some(modelId))| != 1 ||
                         !Truthy(RowsFor(rows, userId, provider, Some(modelId))[0].apiKey)) ==>
      GetApiKey(Available(rows), userId, provider, modelId) == fallback[0].apiKey
  {
    RowsForEmptyIff(rows, userId, provider);
  }

  // ---------------------------------------------------------------------
  // The handler
  // ---------------------------------------------------------------------

  /** An entry of the handler's `modelRegistry`. */
  datatype EdgeDescriptor = EdgeDescriptor(provider: string, apiModelId: Option<string>)

  type EdgeTable = seq<(string, EdgeDescriptor)>

  /** The model table declared inside the handler. */
  const EdgeRegistry: EdgeTable := [
    ("gpt-4o", EdgeDescriptor("OpenAI", None)),
    ("gpt-4.1", EdgeDescriptor("OpenAI", None)),
    ("gpt-4o-mini", EdgeDescriptor("OpenAI", None)),
    ("o3", EdgeDescriptor("OpenAI", None)),
    ("o3-mini", EdgeDescriptor("OpenAI", None)),
    ("o4-mini", EdgeDescriptor("OpenAI", None)),
    ("claude-3-7-sonnet-20250219", EdgeDescriptor("Anthropic", None)),
    ("claude-opus-4-20250514", EdgeDescriptor("Anthropic", None)),
    ("claude-opus-4-1-20250805", EdgeDescriptor("Anthropic", None)),
    ("claude-sonnet-4-20250514", EdgeDescriptor("Anthropic", None)),
    ("claude-3.7-sonnet", EdgeDescriptor("Anthropic", Some("claude-3-7-sonnet-20250219"))),
    ("gemini-2.0-flash", EdgeDescriptor("Google Gemini", None)),
    ("gemini-1.5-pro", EdgeDescriptor("Google Gemini", None)),
    ("gemini-2.5-pro", EdgeDescriptor("Google Gemini", None)),
    ("grok-3-beta", EdgeDescriptor("XAI", Some("grok-3-latest"))),
    ("grok-4", EdgeDescriptor("XAI", Some("grok-4-latest"))),
    ("Grok-3-beta", EdgeDescriptor("XAI", Some("grok-3-latest"))),
    ("deepseek-r1", EdgeDescriptor("DeepSeek", None)),
    ("deepseek-v3-0324", EdgeDescriptor("DeepSeek", None)),
    ("DeepSeek-R1", EdgeDescriptor("DeepSeek", Some("deepseek-r1"))),
    ("mistral-large", EdgeDescriptor("Mistral", None)),
    ("command-r-plus", EdgeDescriptor("Cohere", None)),
    ("sonar-pro", EdgeDescriptor("Perplexity", None)),
    ("mock-model", EdgeDescriptor("Mock", None))
  ]

  /** `modelRegistry[modelId]` over the table's own entries. */
  function EdgeLookup(table: EdgeTable, modelId: string): (d: Option<EdgeDescriptor>)
    ensures d.Some? ==> exists i :: 0 <= i < |table| && table[i] == (modelId, d.value)
    ensures d.None? ==> forall i :: 0 <= i < |table| ==> table[i].0 != modelId
  {
    if table == [] then None
    else if table[0].0 == modelId then Some(table[0].1)
    else
      var d := EdgeLookup(table[1..], modelId);
      assert forall i :: 1 <= i < |table| ==> table[i] == table[1..][i - 1];
      d
  }

  /** `apiModelId || modelId`: the id sent to the provider. */
  function ActualModelId(d: EdgeDescriptor, modelId: string): (id: string)
    ensures d.apiModelId.Some? && d.apiModelId.value != "" ==> id == d.apiModelId.value
    ensures d.apiModelId.None? || d.apiModelId.value == "" ==> id == modelId
  {
    if d.apiModelId.Some? && d.apiModelId.value != "" then d.apiModelId.value else modelId
  }

  /** The reply of a provider's `fetch`: `response.ok` and the parsed JSON body. */
  datatype HttpReply = HttpReply(ok: bool, body: Json)

  /** An external call the handler makes. */
  datatype Call = KeyLookup(userId: string, provider: string, modelId: string) | ProviderCall(payload: Payload)

  /** What the handler answers: the preflight, the standard response, or the 500 error body's message. */
  datatype Answer = Preflight | Success(response: StandardResponse) | Failure(message: string)

  const MissingParametersMessage := "Missing required parameters: modelId, request, or userId"

  function NotFoundMessage(modelId: string): string {
    "Model '" + modelId + "' not found in registry"
  }

  function NoKeyMessage(provider: string, modelId: string): string {
    "No API key found for provider '" + provider + "' and model '" + modelId + "'"
  }

  /** `` `${prefix} API error: ${errorData.error?.message || 'Unknown error'}` ``, thrown by `executeX` on a failed reply. */
  function ProviderErrorMessage(prefix: string, errorData: Json): string {
    match Member(errorData, "error")
    case Throw(message) => message
    case Ok(error) => prefix + " API error: " + ToText(Or(Get(error, "message"), Str("Unknown error")))
  }

  /** The prefix of each `executeX`'s error message. */
  function ErrorPrefix(kind: ProviderKind): string {
    match kind
    case Google => "Google"
    case _ => Label(kind)
  }

  /** The destructured body carries a truthy `modelId`, `request` and `userId`. */
  predicate HasParameters(body: Json) {
    !IsNullish(body) && Truthy(Get(body, "modelId")) && Truthy(Get(body, "request")) && Truthy(Get(body, "userId"))
  }

  /** The mock model's answer, produced without a key lookup or a provider call. */
  const MockResponse := StandardResponse(Str("[Mock response for model]"), Num(10.0), Num(10.0), None, Obj([("mock", Bool(true))]))

  /** From the key lookup on, for a registered model of a provider other than `Mock`. */
  function CallProvider(provider: string, actualModelId: string, modelId: string, userId: string, request: Json,
                        store: KeyStore, reply: HttpReply): (o: (Result<StandardResponse>, seq<Call>))
    ensures |o.1| >= 1 && o.1[0] == KeyLookup(userId, provider, modelId)
    ensures !Truthy(GetApiKey(store, userId, provider, modelId)) ==> o == (Throw(NoKeyMessage(provider, modelId)), o.1) && |o.1| == 1
    ensures |o.1| <= 2
    ensures |o.1| == 2 ==> Truthy(GetApiKey(store, userId, provider, modelId)) &&
                           BuildPayload(provider, actualModelId, request).Ok? &&
                           o.1[1] == ProviderCall(BuildPayload(provider, actualModelId, request).value)
    ensures o.0.Ok? ==> |o.1| == 2 && reply.ok && o.0 == ParseResponse(provider, reply.body)
    ensures Truthy(GetApiKey(store, userId, provider, modelId)) ==>
              match BuildPayload(provider, actualModelId, request)
              case Throw(message) => o == (Throw(message), [KeyLookup(userId, provider, modelId)])
              case Ok(payload) =>
                o.1 == [KeyLookup(userId, provider, modelId), ProviderCall(payload)] &&
                o.0 == (if reply.ok then ParseResponse(provider, reply.body)
                        else Throw(ProviderErrorMessage(ErrorPrefix(KindOf(provider).value), reply.body)))
  {
    var lookup := [KeyLookup(userId, provider, modelId)];
    var apiKey := GetApiKey(store, userId, provider, modelId);
    if !Truthy(apiKey) then (Throw(NoKeyMessage(provider, modelId)), lookup)
    else match BuildPayload(provider, actualModelId, request)
      case Throw(message) => (Throw(message), lookup)
      case Ok(payload) =>
        var calls := lookup + [ProviderCall(payload)];
        if !reply.ok then
          (Throw(ProviderErrorMessage(ErrorPrefix(KindOf(provider).value), reply.body)), calls)
        else (ParseResponse(provider, reply.body), calls)
  }

  /** From the registry lookup on: an unknown id fails and the mock model answers, both before any call. */
  function RouteModel(table: EdgeTable, modelId: string, userId: string, request: Json, store: KeyStore, reply: HttpReply)
    : (o: (Result<StandardResponse>, seq<Call>))
    ensures EdgeLookup(table, modelId).None? ==> o == (Throw(NotFoundMessage(modelId)), [])
    ensures EdgeLookup(table, modelId).Some? && EdgeLookup(table, modelId).value.provider == "Mock" ==> o == (Ok(MockResponse), [])
    ensures EdgeLookup(table, modelId).Some? && EdgeLookup(table, modelId).value.provider != "Mock" ==>
      var d := EdgeLookup(table, modelId).value;
      o == CallProvider(d.provider, ActualModelId(d, modelId), modelId, userId, request, store, reply)
  {
    match EdgeLookup(table, modelId)
    case None => (Throw(NotFoundMessage(modelId)), [])
    case Some(descriptor) =>
      var provider := descriptor.provider;
      if provider == "Mock" then
        KindOfLabel(Mock);
        (ParseResponse(provider, Obj([("mock", Bool(true))])), [])
      else CallProvider(provider, ActualModelId(descriptor, modelId), modelId, userId, request, store, reply)
  }

  /** The body of the handler's `try`: a thrown error carries its message. */
  function Route(table: EdgeTable, body: Json, store: KeyStore, reply: HttpReply): (o: (Result<StandardResponse>, seq<Call>))
    ensures !HasParameters(body) ==> o.0.Throw? && o.1 == []
    ensures !IsNullish(body) && !HasParameters(body) ==> o.0 == Throw(MissingParametersMessage)
    ensures HasParameters(body) ==>
      o == RouteModel(table, ToText(Get(body, "modelId")), ToText(Get(body, "userId")), Get(body, "request"), store, reply)
  {
    if IsNullish(body) then
      (Throw("Cannot destructure property 'modelId' of the request body as it is " + ToText(body) + "."), [])
    else if !HasParameters(body) then (Throw(MissingParametersMessage), [])
    else RouteModel(table, ToText(Get(body, "modelId")), ToText(Get(body, "userId")), Get(body, "request"), store, reply)
  }

  /** The handler: the preflight answer for `OPTIONS`, else the routed result, a thrown error becoming a failure. */
  function Handle(table: EdgeTable, httpMethod: string, body: Json, store: KeyStore, reply: HttpReply): (o: (Answer, seq<Call>))
    ensures httpMethod == "OPTIONS" ==> o == (Preflight, [])
    ensures httpMethod != "OPTIONS" ==> o.1 == Route(table, body, store, reply).1
    ensures httpMethod != "OPTIONS" && Route(table, body, store, reply).0.Ok? ==>
              o.0 == Success(Route(table, body, store, reply).0.value)
    ensures httpMethod != "OPTIONS" && Route(table, body, store, reply).0.Throw? && Route(table, body, store, reply).0.message != "" ==>
              o.0 == Failure(Route(table, body, store, reply).0.message)
    ensures httpMethod != "OPTIONS" && Route(table, body, store, reply).0 == Throw("") ==> o.0 == Failure("Unknown error occurred")
    ensures o.0.Failure? ==> o.0.message != ""
  {
    if httpMethod == "OPTIONS" then (Preflight, [])
    else
      var (result, calls) := Route(table, body, store, reply);
      match result
      case Ok(response) => (Success(response), calls)
      case Throw(message) => (Failure(if message == "" then "Unknown error occurred" else message), calls)
  }
}

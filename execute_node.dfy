/**
 * `executeNode`: the guard chain that runs one flow node against its
 * registered adapter, then the single request to the execution endpoint.
 * The endpoint is a parameter: `fetch(request)` stands for posting the
 * request and reading the JSON reply.
 */
module ExecuteNode {
  import opened JsValues
  import opened AdapterTypes
  import opened FlowTypes
  import opened ModelAdapter

  /** A POST to `url` whose body is the serialised `body`. */
  datatype Request = Request(url: string, body: Json)

  /** What a call returns or throws, and the request it sent, if any. */
  datatype Execution = Execution(result: Result<ParsedResponse>, sent: Option<Request>)

  /** `node.config ?? {}` and `node.config || {}`, which agree since an object is truthy. */
  function ConfigOrEmpty(node: FlowNode): Json {
    Obj(node.config.GetOr([]))
  }

  /** The message thrown when no adapter is registered under `modelId`. */
  function MissingAdapterMessage(modelId: string): string {
    "Missing adapter for model: " + modelId
  }

  /** `/api/execute/${node.modelId}` */
  function EndpointFor(modelId: string): string {
    "/api/execute/" + modelId
  }

  /** The guards, in order, then the request and the parse of its reply. */
  function Execute(registry: Registry, node: FlowNode, input: Json, fetch: Request -> Json): (e: Execution)
    ensures !HasModelId(node) ==> e == Execution(Throw("Node missing modelId"), None)
    ensures HasModelId(node) && Find(registry, node.modelId.value).None? ==>
              e == Execution(Throw(MissingAdapterMessage(node.modelId.value)), None)
    ensures HasModelId(node) && Find(registry, node.modelId.value).Some? &&
            ValidateConfig(Find(registry, node.modelId.value).value, ConfigOrEmpty(node)) == Ok(false) ==>
              e == Execution(Throw("Invalid config"), None)
    ensures e.sent.Some? <==> HasModelId(node) && Find(registry, node.modelId.value).Some? &&
                              ValidateConfig(Find(registry, node.modelId.value).value, ConfigOrEmpty(node)) == Ok(true)
    ensures e.sent.Some? ==>
              var adapter := Find(registry, node.modelId.value).value;
              BuildRequest(adapter, input, ConfigOrEmpty(node)).Ok? &&
              e.sent.value == Request(EndpointFor(node.modelId.value), BuildRequest(adapter, input, ConfigOrEmpty(node)).value) &&
              e.result == ParseResponse(adapter, fetch(e.sent.value))
  {
    if !HasModelId(node) then Execution(Throw("Node missing modelId"), None)
    else
      var modelId := node.modelId.value;
      match Find(registry, modelId)
      case None => Execution(Throw(MissingAdapterMessage(modelId)), None)
      case Some(adapter) =>
        match ValidateConfig(adapter, ConfigOrEmpty(node))
        case Throw(message) => Execution(Throw(message), None)
        case Ok(valid) =>
          if !valid then Execution(Throw("Invalid config"), None)
          else
            var request := Request(EndpointFor(modelId), BuildRequest(adapter, input, ConfigOrEmpty(node)).value);
            Execution(ParseResponse(adapter, fetch(request)), Some(request))
  }

  /**
   * With the shipped registry, a "gpt-4o" node without a config always fails
   * with "Invalid config" and sends nothing: `{}` has no numeric temperature.
   */
  lemma UnconfiguredOpenAIRejected(node: FlowNode, input: Json, fetch: Request -> Json)
    requires node.modelId == Some("gpt-4o") && node.config.None?
    ensures Execute(AdapterRegistry, node, input, fetch) == Execution(Throw("Invalid config"), None)
  {
    OpenAIAdapter.EmptyConfigRejected();
  }

  /** The registry lookup is exact: a differently cased id finds no adapter. */
  lemma LookupIsCaseSensitive(node: FlowNode, input: Json, fetch: Request -> Json)
    requires node.modelId == Some("GPT-4o")
    ensures Execute(AdapterRegistry, node, input, fetch) == Execution(Throw(MissingAdapterMessage("GPT-4o")), None)
  {
    assert "GPT-4o" != "gpt-4o" by {
      assert "GPT-4o"[0] != "gpt-4o"[0];
    }
    assert AdapterRegistry[1..] == [];
  }
}

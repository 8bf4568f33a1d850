/**
 * The `validateFlowNodeConfig` copy whose adapter lookup falls back to a
 * case-insensitive match (`findAdapterForModel`).
 */
module FlowNodeValidation {
  import opened JsValues
  import opened ModelAdapter
  import opened ConfigValidation

  /** The index of the first registry key whose lower-case form is `target`. */
  function FirstLowerMatch(registry: Registry, target: string): (i: Option<nat>)
    ensures i.Some? ==> i.value < |registry| && ToLower(registry[i.value].0) == target &&
                        forall j :: 0 <= j < i.value ==> ToLower(registry[j].0) != target
    ensures i.None? ==> forall j :: 0 <= j < |registry| ==> ToLower(registry[j].0) != target
  {
    if registry == [] then None
    else if ToLower(registry[0].0) == target then Some(0)
    else
      match FirstLowerMatch(registry[1..], target)
      case None => None
      case Some(i) => Some(i + 1)
  }

  /** The first entry under a key is the one found by a case-insensitive scan that stops at that key. */
  lemma FindAtFirstLowerMatch(registry: Registry, i: nat)
    requires i < |registry| && forall j :: 0 <= j < i ==> ToLower(registry[j].0) != ToLower(registry[i].0)
    ensures Find(registry, registry[i].0) == Some(registry[i].1)
    decreases i
  {
    if i > 0 {
      FindAtFirstLowerMatch(registry[1..], i - 1);
    }
  }

  /**
   * `findAdapterForModel(modelId)`: the exact entry when there is one;
   * otherwise the entry of the first key equal to `modelId` up to case,
   * unless that key is "" (which is falsy); otherwise nothing.
   */
  function FindAdapterForModel(registry: Registry, modelId: string): (r: Option<Adapter>)
    ensures Find(registry, modelId).Some? ==> r == Find(registry, modelId)
    ensures Find(registry, modelId).None? ==>
              (r.Some? <==> exists i :: 0 <= i < |registry| && ToLower(registry[i].0) == ToLower(modelId) &&
                                         registry[i].0 != "" &&
                                         forall j :: 0 <= j < i ==> ToLower(registry[j].0) != ToLower(modelId))
    ensures Find(registry, modelId).None? && r.Some? ==>
              exists i :: 0 <= i < |registry| && registry[i] == (registry[i].0, r.value) &&
                          ToLower(registry[i].0) == ToLower(modelId) &&
                          forall j :: 0 <= j < i ==> ToLower(registry[j].0) != ToLower(modelId)
  {
    match Find(registry, modelId)
    case Some(adapter) => Some(adapter)
    case None =>
      match FirstLowerMatch(registry, ToLower(modelId))
      case None => None
      case Some(i) =>
        if registry[i].0 == "" then None
        else
          FindAtFirstLowerMatch(registry, i);
          Find(registry, registry[i].0)
  }

  /** The spec of this copy of `validateFlowNodeConfig`. */
  function FlowNodeVerdict(registry: Registry, modelId: Option<string>, config: Option<Fields>): Result<Verdict> {
    var found := if modelId.Some? then FindAdapterForModel(registry, modelId.value) else None;
    NodeVerdict(found, modelId, config)
  }

  /** `validateFlowNodeConfig(modelId, config)` with the case-insensitive lookup. */
  method ValidateFlowNodeConfig(registry: Registry, modelId: Option<string>, config: Option<Fields>)
    returns (r: Result<Verdict>)
    ensures r == FlowNodeVerdict(registry, modelId, config)
    ensures r.Ok? ==> (r.value.isValid <==> r.value.errors == [])
  {
    if modelId.None? || modelId.value == "" {
      return Ok(Verdict(false, [MissingModelIdMessage]));
    }
    var adapter := FindAdapterForModel(registry, modelId.value);
    if adapter.None? {
      return Ok(Verdict(false, [InvalidModelIdMessage(modelId.value)]));
    }
    r := CheckWithAdapter(adapter.value, modelId.value, config);
  }

  /** Unlike `executeNode`, this lookup finds "gpt-4o" under "GPT-4O". */
  lemma FindsDifferentlyCasedId()
    ensures FindAdapterForModel(AdapterRegistry, "GPT-4O") == Some(OpenAI)
  {
    assert ToLower("GPT-4O") == "gpt-4o";
    assert ToLower("gpt-4o") == "gpt-4o";
    assert "GPT-4O" != "gpt-4o" by { assert "GPT-4O"[0] != "gpt-4o"[0]; }
    assert AdapterRegistry[1..] == [];
  }

  /**
   * A rejected config for the shipped "gpt-4o" adapter makes the validator
   * throw, since `OpenAIAdapter` has no `getDefaultConfig`.
   */
  lemma RejectedOpenAIConfigThrows()
    ensures FlowNodeVerdict(AdapterRegistry, Some("gpt-4o"), Some([])) == Throw(NoDefaultConfigMessage)
  {
    OpenAIAdapter.EmptyConfigRejected();
  }
}

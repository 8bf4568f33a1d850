/** The vertices of a flow graph, as the graph editor hands them to the engine. */
module FlowTypes {
  import opened JsValues

  datatype NodeType = InputNode | ModelNode | ActionNode | OutputNode | InputPromptNode

  /**
   * A flow node. `config` is an open key/value object; `inputNodeIds` lists
   * the ids of the nodes whose output feeds this one.
   */
  datatype FlowNode = FlowNode(
    id: string,
    nodeType: NodeType,
    modelId: Option<string>,
    config: Option<Fields>,
    inputNodeIds: Option<seq<string>>,
    prompt: Option<string>)

  /** `node.inputNodeIds || []` */
  function Inputs(n: FlowNode): seq<string> {
    n.inputNodeIds.GetOr([])
  }

  /** `!n.inputNodeIds || n.inputNodeIds.length === 0` */
  predicate IsRoot(n: FlowNode) {
    Inputs(n) == []
  }

  /** The truthiness test `!node.modelId`: an absent or empty id counts as missing. */
  predicate HasModelId(n: FlowNode) {
    n.modelId.Some? && n.modelId.value != ""
  }
}

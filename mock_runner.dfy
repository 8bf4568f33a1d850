/**
 * `runSimulatedFlow`: runs the levels produced by `resolveDAG` in order,
 * and the nodes of each level in list order. Each node reads its inputs
 * from a context map, asks its adapter to parse the payload `{ input }`
 * built from them, and stores the parsed `output` under its own id.
 * `JSON.stringify` is the parameter `stringify`.
 */
module MockRunner {
  import opened JsValues
  import opened AdapterTypes
  import opened FlowTypes
  import opened ModelAdapter
  import opened ResolveDag

  /** The run's context: node id to that node's value. */
  type Context = map<string, Json>

  /** The registry key of the fallback adapter. */
  const MockModelId := "mock-model"

  /** The TypeError raised when the chosen adapter is `undefined`. */
  const NoAdapterMessage := "Cannot read properties of undefined (reading 'parseResponse')"

  /** `context[id]`, which is `undefined` for an absent key. */
  function Read(ctx: Context, id: string): Json {
    if id in ctx then ctx[id] else Undefined
  }

  /** `(node.inputNodeIds || []).map(id => context[id])` */
  function InputData(ctx: Context, node: FlowNode): seq<Json> {
    seq(|Inputs(node)|, i requires 0 <= i < |Inputs(node)| => Read(ctx, Inputs(node)[i]))
  }

  /** `(node.modelId && registry[node.modelId]) || registry["mock-model"]` */
  function PickAdapter(registry: Registry, node: FlowNode): Option<Adapter> {
    if HasModelId(node) && Find(registry, node.modelId.value).Some? then Find(registry, node.modelId.value)
    else Find(registry, MockModelId)
  }

  /** The payload handed to the adapter: `{ input: JSON.stringify(inputData) }`. */
  function Payload(ctx: Context, node: FlowNode, stringify: Json -> string): Json {
    Obj([("input", Str(stringify(Arr(InputData(ctx, node)))))])
  }

  /** One iteration of the inner loop. */
  function Step(ctx: Context, node: FlowNode, registry: Registry, stringify: Json -> string): Result<Context> {
    match PickAdapter(registry, node)
    case None => Throw(NoAdapterMessage)
    case Some(adapter) =>
      var fakeResponse :- ParseResponse(adapter, Payload(ctx, node, stringify));
      Ok(ctx[node.id := fakeResponse.output])
  }

  /** The inner loop over one level, from the state `st`; a throw ends the run. */
  function RunLevel(st: Result<Context>, level: seq<FlowNode>, registry: Registry, stringify: Json -> string): Result<Context>
    decreases |level|
  {
    if level == [] then st
    else
      var ctx :- RunLevel(st, level[..|level| - 1], registry, stringify);
      Step(ctx, level[|level| - 1], registry, stringify)
  }

  /** The outer loop over the levels. */
  function RunLevels(st: Result<Context>, levels: Levels, registry: Registry, stringify: Json -> string): Result<Context>
    decreases |levels|
  {
    if levels == [] then st
    else
      var ctx :- RunLevels(st, levels[..|levels| - 1], registry, stringify);
      RunLevel(Ok(ctx), levels[|levels| - 1], registry, stringify)
  }

  /** Once a prefix of a level throws, the whole level throws the same error. */
  lemma {:induction false} RunLevelThrowSticks(st: Result<Context>, level: seq<FlowNode>, j: nat,
                                               registry: Registry, stringify: Json -> string)
    requires j <= |level| && RunLevel(st, level[..j], registry, stringify).Throw?
    ensures RunLevel(st, level, registry, stringify) == RunLevel(st, level[..j], registry, stringify)
    decreases |level|
  {
    if j < |level| {
      var init := level[..|level| - 1];
      assert init[..j] == level[..j];
      RunLevelThrowSticks(st, init, j, registry, stringify);
    } else {
      assert level[..j] == level;
    }
  }

  /** Once a prefix of the levels throws, the whole run throws the same error. */
  lemma {:induction false} RunLevelsThrowSticks(st: Result<Context>, levels: Levels, i: nat,
                                                registry: Registry, stringify: Json -> string)
    requires i <= |levels| && RunLevels(st, levels[..i], registry, stringify).Throw?
    ensures RunLevels(st, levels, registry, stringify) == RunLevels(st, levels[..i], registry, stringify)
    decreases |levels|
  {
    if i < |levels| {
      var init := levels[..|levels| - 1];
      assert init[..i] == levels[..i];
      RunLevelsThrowSticks(st, init, i, registry, stringify);
    } else {
      assert levels[..i] == levels;
    }
  }

  /** `ctx` with every id of `ids` set to "": the shape of a finished run. */
  function Blank(ctx: Context, ids: set<string>): Context {
    map k | k in ctx.Keys + ids :: if k in ids then Str("") else ctx[k]
  }

  /** Every node of the level finds an adapter. */
  predicate LevelAdapted(registry: Registry, level: seq<FlowNode>) {
    forall n :: n in level ==> PickAdapter(registry, n).Some?
  }

  /** Every node of every level finds an adapter. */
  predicate AllAdapted(registry: Registry, levels: Levels) {
    forall k :: 0 <= k < |levels| ==> LevelAdapted(registry, levels[k])
  }

  /**
   * One node's step either stores "" under its id or throws the TypeError
   * for a missing adapter: the `{ input }` payload has no provider fields.
   */
  lemma StepStoresEmpty(ctx: Context, node: FlowNode, registry: Registry, stringify: Json -> string)
    ensures Step(ctx, node, registry, stringify) ==
      if PickAdapter(registry, node).Some? then Ok(ctx[node.id := Str("")]) else Throw(NoAdapterMessage)
  {
    if PickAdapter(registry, node).Some? {
      ParseInputOnly(PickAdapter(registry, node).value, stringify(Arr(InputData(ctx, node))));
    }
  }

  lemma BlankNone(ctx: Context)
    ensures Blank(ctx, {}) == ctx
  {
  }

  lemma BlankOne(ctx: Context, ids: set<string>, id: string)
    ensures Blank(ctx, ids)[id := Str("")] == Blank(ctx, ids + {id})
  {
  }

  lemma BlankTwice(ctx: Context, a: set<string>, b: set<string>)
    ensures Blank(Blank(ctx, a), b) == Blank(ctx, a + b)
  {
  }

  lemma LevelIdsSnoc(level: seq<FlowNode>)
    requires level != []
    ensures LevelIds(level) == LevelIds(level[..|level| - 1]) + {level[|level| - 1].id}
  {
    assert level == level[..|level| - 1] + [level[|level| - 1]];
  }

  lemma PlacedSnoc(levels: Levels)
    requires levels != []
    ensures Placed(levels) == Placed(levels[..|levels| - 1]) + LevelIds(levels[|levels| - 1])
  {
    var init, last := levels[..|levels| - 1], levels[|levels| - 1];
    forall id | id in Placed(levels) ensures id in Placed(init) + LevelIds(last) {
      var k, j :| 0 <= k < |levels| && 0 <= j < |levels[k]| && levels[k][j].id == id;
      if k < |levels| - 1 {
        assert init[k][j].id == id;
      } else {
        assert last[j] in last;
      }
    }
    forall id | id in LevelIds(last) ensures id in Placed(levels) {
      var n :| n in last && n.id == id;
      var j :| 0 <= j < |last| && last[j] == n;
      assert levels[|levels| - 1][j].id == id;
    }
    forall id | id in Placed(init) ensures id in Placed(levels) {
      var k, j :| 0 <= k < |init| && 0 <= j < |init[k]| && init[k][j].id == id;
      assert levels[k][j].id == id;
    }
  }

  /** A level either throws the missing-adapter error or stores "" under each of its ids. */
  lemma {:induction false} RunLevelOutcome(ctx: Context, level: seq<FlowNode>, registry: Registry, stringify: Json -> string)
    ensures RunLevel(Ok(ctx), level, registry, stringify) ==
      if LevelAdapted(registry, level) then Ok(Blank(ctx, LevelIds(level))) else Throw(NoAdapterMessage)
    decreases |level|
  {
    if level == [] {
      BlankNone(ctx);
      assert LevelIds(level) == {};
    } else {
      var init, last := level[..|level| - 1], level[|level| - 1];
      RunLevelOutcome(ctx, init, registry, stringify);
      LevelIdsSnoc(level);
      if LevelAdapted(registry, init) {
        var ctx' := Blank(ctx, LevelIds(init));
        StepStoresEmpty(ctx', last, registry, stringify);
        BlankOne(ctx, LevelIds(init), last.id);
        assert last in level;
      } else {
        var n :| n in init && PickAdapter(registry, n).None?;
        assert n in level;
      }
    }
  }

  /** The levels either throw the missing-adapter error or store "" under every placed id. */
  lemma {:induction false} RunLevelsOutcome(ctx: Context, levels: Levels, registry: Registry, stringify: Json -> string)
    ensures RunLevels(Ok(ctx), levels, registry, stringify) ==
      if AllAdapted(registry, levels) then Ok(Blank(ctx, Placed(levels))) else Throw(NoAdapterMessage)
    decreases |levels|
  {
    if levels == [] {
      BlankNone(ctx);
      assert Placed(levels) == {};
    } else {
      var init, last := levels[..|levels| - 1], levels[|levels| - 1];
      RunLevelsOutcome(ctx, init, registry, stringify);
      PlacedSnoc(levels);
      if AllAdapted(registry, init) {
        RunLevelOutcome(Blank(ctx, Placed(init)), last, registry, stringify);
        BlankTwice(ctx, Placed(init), LevelIds(last));
        if LevelAdapted(registry, last) {
          forall k | 0 <= k < |levels| ensures LevelAdapted(registry, levels[k]) {
            if k < |levels| - 1 {
              assert levels[k] == init[k];
            }
          }
        } else {
          assert !LevelAdapted(registry, levels[|levels| - 1]);
        }
      } else {
        var k :| 0 <= k < |init| && !LevelAdapted(registry, init[k]);
        assert levels[k] == init[k];
      }
    }
  }

  /**
   * The outcome of a simulated run: it throws exactly when some placed node
   * finds no adapter; otherwise every placed node id maps to "" and every
   * other key of `inputs` keeps its value.
   */
  lemma SimulatedFlowOutcome(flowNodes: seq<FlowNode>, inputs: Context, registry: Registry, stringify: Json -> string)
    ensures var r := RunLevels(Ok(inputs), Resolve(flowNodes), registry, stringify);
            (r.Ok? <==> AllAdapted(registry, Resolve(flowNodes))) &&
            (r.Throw? ==> r.message == NoAdapterMessage) &&
            (r.Ok? ==> r.value.Keys == inputs.Keys + Placed(Resolve(flowNodes)) &&
                       (forall id :: id in Placed(Resolve(flowNodes)) ==> r.value[id] == Str("")) &&
                       (forall k :: k in inputs && k !in Placed(Resolve(flowNodes)) ==> r.value[k] == inputs[k]))
  {
    RunLevelsOutcome(inputs, Resolve(flowNodes), registry, stringify);
  }

  /**
   * With the shipped registry, which has no "mock-model" entry, a node finds
   * an adapter exactly when its `modelId` is "gpt-4o".
   */
  lemma ShippedRegistryAdapter(node: FlowNode)
    ensures PickAdapter(AdapterRegistry, node).Some? <==> node.modelId == Some("gpt-4o")
  {
    assert AdapterRegistry[1..] == [];
    assert Find(AdapterRegistry, MockModelId) == None;
    if node.modelId == Some("gpt-4o") {
      assert HasModelId(node) && Find(AdapterRegistry, node.modelId.value) == Some(OpenAI);
    } else if HasModelId(node) {
      assert Find(AdapterRegistry, node.modelId.value) == None;
    }
  }

  /** The inner loop `for (const node of level)`, which overwrites one context entry per node. */
  method RunLevelInPlace(level: seq<FlowNode>, context: Context, registry: Registry, stringify: Json -> string)
    returns (r: Result<Context>)
    ensures r == RunLevel(Ok(context), level, registry, stringify)
  {
    var ctx := context;
    for j := 0 to |level|
      invariant RunLevel(Ok(context), level[..j], registry, stringify) == Ok(ctx)
    {
      var node := level[j];
      assert level[..j + 1][..j] == level[..j];
      var inputData := InputData(ctx, node);
      var adapter := PickAdapter(registry, node);
      if adapter.None? {
        r := Throw(NoAdapterMessage);
        RunLevelThrowSticks(Ok(context), level, j + 1, registry, stringify);
        return;
      }
      var fakeResponse := ParseResponse(adapter.value, Obj([("input", Str(stringify(Arr(inputData))))]));
      if fakeResponse.Throw? {
        r := Throw(fakeResponse.message);
        RunLevelThrowSticks(Ok(context), level, j + 1, registry, stringify);
        return;
      }
      ctx := ctx[node.id := fakeResponse.value.output];
    }
    assert level[..|level|] == level;
    r := Ok(ctx);
  }

  /** The outer loop `for (const level of dagLevels)`, starting from a copy of `inputs`. */
  method RunLevelsInPlace(dagLevels: Levels, inputs: Context, registry: Registry, stringify: Json -> string)
    returns (r: Result<Context>)
    ensures r == RunLevels(Ok(inputs), dagLevels, registry, stringify)
  {
    var context := inputs;
    for i := 0 to |dagLevels|
      invariant RunLevels(Ok(inputs), dagLevels[..i], registry, stringify) == Ok(context)
    {
      assert dagLevels[..i + 1][..i] == dagLevels[..i];
      r := RunLevelInPlace(dagLevels[i], context, registry, stringify);
      if r.Throw? {
        RunLevelsThrowSticks(Ok(inputs), dagLevels, i + 1, registry, stringify);
        return;
      }
      context := r.value;
    }
    assert dagLevels[..|dagLevels|] == dagLevels;
    r := Ok(context);
  }

  /**
   * `runSimulatedFlow(flowNodes, inputs)`. The context starts as a copy of
   * `inputs` (a map value here, so the caller's map cannot change).
   */
  method RunSimulatedFlow(flowNodes: seq<FlowNode>, inputs: Context, registry: Registry, stringify: Json -> string)
    returns (r: Result<Context>)
    ensures r == RunLevels(Ok(inputs), Resolve(flowNodes), registry, stringify)
  {
    var dagLevels := ResolveDAG(flowNodes);
    r := RunLevelsInPlace(dagLevels, inputs, registry, stringify);
  }
}

/**
 * `resolveDAG`: a depth-first walk from the roots along "is an input of"
 * edges that puts each node id into the level at which it is first reached.
 * The walk keeps a `visited` set, so each id is expanded at most once and
 * the walk ends on every graph, cyclic ones included. The order it produces
 * is NOT topological in general (see `NotTopological`).
 */
module ResolveDag {
  import opened JsValues
  import opened FlowTypes

  type Levels = seq<seq<FlowNode>>

  /** What the inner `visit` closes over and mutates: the `levels` array and the `visited` set. */
  datatype DfsState = DfsState(levels: Levels, visited: set<string>)

  function Ids(nodes: seq<FlowNode>): set<string> {
    set n | n in nodes :: n.id
  }

  /** Node ids are unique, as the graph editor guarantees. */
  ghost predicate UniqueIds(nodes: seq<FlowNode>) {
    forall i, j :: 0 <= i < j < |nodes| ==> nodes[i].id != nodes[j].id
  }

  /**
   * `idToNode`, i.e. `Object.fromEntries(flowNodes.map(n => [n.id, n]))`:
   * every id maps to a node carrying it; a later node overwrites an earlier one.
   */
  function IdIndex(nodes: seq<FlowNode>): (m: map<string, FlowNode>)
    ensures m.Keys == Ids(nodes)
    ensures forall id :: id in m ==> m[id] in nodes && m[id].id == id
    ensures nodes != [] ==> m[nodes[|nodes| - 1].id] == nodes[|nodes| - 1]
  {
    if nodes == [] then map[]
    else
      var init, last := nodes[..|nodes| - 1], nodes[|nodes| - 1];
      assert nodes == init + [last];
      assert Ids(nodes) == Ids(init) + {last.id};
      IdIndex(init)[last.id := last]
  }

  lemma IndexOfUnique(nodes: seq<FlowNode>, n: FlowNode)
    requires UniqueIds(nodes) && n in nodes
    ensures IdIndex(nodes)[n.id] == n
  {
    var m := IdIndex(nodes)[n.id];
    var i :| 0 <= i < |nodes| && nodes[i] == n;
    var j :| 0 <= j < |nodes| && nodes[j] == m;
    if i < j || j < i {
      assert false;
    }
  }

  /** `flowNodes.filter(n => n.inputNodeIds?.includes(nodeId))`, in list order. */
  function Dependents(nodes: seq<FlowNode>, id: string): (deps: seq<FlowNode>)
    ensures forall d :: d in deps <==> d in nodes && id in Inputs(d)
  {
    if nodes == [] then []
    else (if id in Inputs(nodes[0]) then [nodes[0]] else []) + Dependents(nodes[1..], id)
  }

  /** `flowNodes.filter(n => !n.inputNodeIds || n.inputNodeIds.length === 0)`, in list order. */
  function Roots(nodes: seq<FlowNode>): (roots: seq<FlowNode>)
    ensures forall r :: r in roots <==> r in nodes && IsRoot(r)
  {
    if nodes == [] then []
    else (if IsRoot(nodes[0]) then [nodes[0]] else []) + Roots(nodes[1..])
  }

  function LevelIds(level: seq<FlowNode>): set<string> {
    set n | n in level :: n.id
  }

  /** Every id that has been placed in some level. */
  ghost function Placed(levels: Levels): set<string> {
    set k, j | 0 <= k < |levels| && 0 <= j < |levels[k]| :: levels[k][j].id
  }

  ghost predicate IsRootId(nodes: seq<FlowNode>, id: string) {
    exists n :: n in nodes && n.id == id && IsRoot(n)
  }

  /** Some node with id `x` lists `p` among its `inputNodeIds`. */
  ghost predicate IsInputOf(nodes: seq<FlowNode>, p: string, x: string) {
    exists n :: n in nodes && n.id == x && p in Inputs(n)
  }

  /** Why `id` may sit at level `k`: level 0 holds roots, a deeper level a dependent of an id one level up. */
  ghost predicate Justified(nodes: seq<FlowNode>, levels: Levels, id: string, k: nat) {
    if k == 0 then IsRootId(nodes, id)
    else k - 1 < |levels| && exists p :: p in LevelIds(levels[k - 1]) && IsInputOf(nodes, p, id)
  }

  /** No id occurs at two positions of the levels. */
  ghost predicate PlacedOnce(levels: Levels) {
    forall k1, j1, k2, j2 ::
      0 <= k1 < |levels| && 0 <= j1 < |levels[k1]| && 0 <= k2 < |levels| && 0 <= j2 < |levels[k2]| &&
      levels[k1][j1].id == levels[k2][j2].id ==>
        k1 == k2 && j1 == j2
  }

  /** Each placed entry is the node `idToNode` holds for its id, and is justified at its level. */
  ghost predicate EntriesWellPlaced(nodes: seq<FlowNode>, levels: Levels) {
    forall k, j :: 0 <= k < |levels| && 0 <= j < |levels[k]| ==>
      levels[k][j].id in Ids(nodes) && levels[k][j] == IdIndex(nodes)[levels[k][j].id] &&
      Justified(nodes, levels, levels[k][j].id, k)
  }

  /** The invariant of the walk: entries are well placed, placed once, and exactly the visited ids. */
  ghost predicate Inv(nodes: seq<FlowNode>, st: DfsState) {
    EntriesWellPlaced(nodes, st.levels) && PlacedOnce(st.levels) && Placed(st.levels) == st.visited
  }

  /** `b` arises from `a` by appending levels and pushing onto levels: nothing is removed or moved. */
  ghost predicate Extends(a: Levels, b: Levels) {
    |a| <= |b| && forall k :: 0 <= k < |a| ==> a[k] <= b[k]
  }

  /**
   * Every id that became visited between `before` and `after` had all its
   * dependents visited by then: its `visit` call ran to completion.
   */
  ghost predicate ClosedFrom(nodes: seq<FlowNode>, before: set<string>, after: set<string>) {
    forall y, d :: y in after && y !in before && d in nodes && y in Inputs(d) ==> d.id in after
  }

  lemma CardDiffMono(all: set<string>, a: set<string>, b: set<string>)
    requires a <= b
    ensures |all - b| <= |all - a|
  {
    var s, t := all - a, all - b;
    assert s * t == t;
    assert |s - t| == |s| - |s * t|;
  }

  lemma CardDiffStrict(all: set<string>, a: set<string>, x: string)
    requires x in all && x !in a
    ensures |all - (a + {x})| < |all - a|
  {
    assert all - a == (all - (a + {x})) + {x};
  }

  lemma ExtendsKeepsLevels(nodes: seq<FlowNode>, a: Levels, b: Levels)
    requires Extends(a, b)
    ensures forall k :: 0 <= k < |a| ==> LevelIds(a[k]) <= LevelIds(b[k])
    ensures forall id, k :: Justified(nodes, a, id, k) ==> Justified(nodes, b, id, k)
  {
    forall k | 0 <= k < |a| ensures LevelIds(a[k]) <= LevelIds(b[k]) {
      forall x | x in LevelIds(a[k]) ensures x in LevelIds(b[k]) {
        var n :| n in a[k] && n.id == x;
        var j :| 0 <= j < |a[k]| && a[k][j] == n;
        assert b[k][j] == n;
      }
    }
  }

  /** An entry of the levels with one more empty level at the end sits where it sat before. */
  lemma GrowOld(levels: Levels, k: nat, j: nat)
    requires k < |levels + [[]]| && j < |(levels + [[]])[k]|
    ensures k < |levels| && (levels + [[]])[k][j] == levels[k][j]
  {
  }

  lemma GrowWellPlaced(nodes: seq<FlowNode>, levels: Levels)
    requires EntriesWellPlaced(nodes, levels)
    ensures EntriesWellPlaced(nodes, levels + [[]])
  {
    var ls: Levels := levels + [[]];
    ExtendsKeepsLevels(nodes, levels, ls);
    forall k: nat, j: nat | k < |ls| && j < |ls[k]|
      ensures ls[k][j].id in Ids(nodes) && ls[k][j] == IdIndex(nodes)[ls[k][j].id]
      ensures Justified(nodes, ls, ls[k][j].id, k)
    {
      GrowOld(levels, k, j);
    }
  }

  lemma GrowPlacedOnce(levels: Levels)
    requires PlacedOnce(levels)
    ensures PlacedOnce(levels + [[]])
  {
    var ls: Levels := levels + [[]];
    forall k1: nat, j1: nat, k2: nat, j2: nat |
      k1 < |ls| && j1 < |ls[k1]| && k2 < |ls| && j2 < |ls[k2]| && ls[k1][j1].id == ls[k2][j2].id
      ensures k1 == k2 && j1 == j2
    {
      GrowOld(levels, k1, j1);
      GrowOld(levels, k2, j2);
    }
  }

  lemma GrowPlaced(levels: Levels)
    ensures Placed(levels + [[]]) == Placed(levels)
  {
    var ls: Levels := levels + [[]];
    forall x | x in Placed(ls) ensures x in Placed(levels) {
      var k, j :| 0 <= k < |ls| && 0 <= j < |ls[k]| && ls[k][j].id == x;
      GrowOld(levels, k, j);
    }
    forall x | x in Placed(levels) ensures x in Placed(ls) {
      var k, j :| 0 <= k < |levels| && 0 <= j < |levels[k]| && levels[k][j].id == x;
      assert ls[k][j] == levels[k][j];
    }
  }

  /** Adding an empty level at the end (`levels[level] = []`) keeps the invariant. */
  lemma GrowKeepsInv(nodes: seq<FlowNode>, st: DfsState)
    requires Inv(nodes, st)
    ensures Inv(nodes, DfsState(st.levels + [[]], st.visited))
    ensures Extends(st.levels, st.levels + [[]])
  {
    GrowWellPlaced(nodes, st.levels);
    GrowPlacedOnce(st.levels);
    GrowPlaced(st.levels);
  }

  lemma ExtendsTrans(a: Levels, b: Levels, c: Levels)
    requires Extends(a, b) && Extends(b, c)
    ensures Extends(a, c)
  {
    forall k | 0 <= k < |a| ensures a[k] <= c[k] {
      assert a[k] <= b[k] && b[k] <= c[k];
    }
  }

  /** `levels[level].push(e)` */
  function Push(levels: Levels, level: nat, e: FlowNode): (ls: Levels)
    requires level < |levels|
    ensures |ls| == |levels| && ls[level] == levels[level] + [e]
    ensures forall k :: 0 <= k < |levels| && k != level ==> ls[k] == levels[k]
    ensures Extends(levels, ls)
  {
    levels[level := levels[level] + [e]]
  }

  /** Each pushed entry except the new one sits where it sat before. */
  lemma PushOld(levels: Levels, level: nat, e: FlowNode, k: nat, j: nat)
    requires level < |levels| && k < |levels| && j < |Push(levels, level, e)[k]|
    requires !(k == level && j == |levels[level]|)
    ensures j < |levels[k]| && Push(levels, level, e)[k][j] == levels[k][j]
  {
  }

  lemma PushWellPlaced(nodes: seq<FlowNode>, levels: Levels, id: string, level: nat)
    requires EntriesWellPlaced(nodes, levels) && level < |levels|
    requires id in Ids(nodes) && Justified(nodes, levels, id, level)
    ensures EntriesWellPlaced(nodes, Push(levels, level, IdIndex(nodes)[id]))
  {
    var e := IdIndex(nodes)[id];
    var ls := Push(levels, level, e);
    ExtendsKeepsLevels(nodes, levels, ls);
    forall k, j | 0 <= k < |ls| && 0 <= j < |ls[k]|
      ensures ls[k][j].id in Ids(nodes) && ls[k][j] == IdIndex(nodes)[ls[k][j].id]
      ensures Justified(nodes, ls, ls[k][j].id, k)
    {
      if !(k == level && j == |levels[level]|) {
        PushOld(levels, level, e, k, j);
      }
    }
  }

  lemma PushPlacedOnce(levels: Levels, level: nat, e: FlowNode)
    requires PlacedOnce(levels) && level < |levels| && e.id !in Placed(levels)
    ensures PlacedOnce(Push(levels, level, e))
  {
    var ls: Levels := Push(levels, level, e);
    forall k1: int, j1: int, k2: int, j2: int |
      0 <= k1 < |ls| && 0 <= j1 < |ls[k1]| && 0 <= k2 < |ls| && 0 <= j2 < |ls[k2]| &&
      ls[k1][j1].id == ls[k2][j2].id
      ensures k1 == k2 && j1 == j2
    {
      var new1 := k1 == level && j1 == |levels[level]|;
      var new2 := k2 == level && j2 == |levels[level]|;
      if !new1 { PushOld(levels, level, e, k1, j1); assert levels[k1][j1].id in Placed(levels); }
      if !new2 { PushOld(levels, level, e, k2, j2); assert levels[k2][j2].id in Placed(levels); }
    }
  }

  lemma PushPlaced(levels: Levels, level: nat, e: FlowNode)
    requires level < |levels|
    ensures Placed(Push(levels, level, e)) == Placed(levels) + {e.id}
  {
    var ls := Push(levels, level, e);
    assert ls[level][|levels[level]|] == e;
    forall x | x in Placed(ls) ensures x in Placed(levels) + {e.id} {
      var k, j :| 0 <= k < |ls| && 0 <= j < |ls[k]| && ls[k][j].id == x;
      if !(k == level && j == |levels[level]|) {
        PushOld(levels, level, e, k, j);
      }
    }
    forall x | x in Placed(levels) ensures x in Placed(ls) {
      var k, j :| 0 <= k < |levels| && 0 <= j < |levels[k]| && levels[k][j].id == x;
      assert ls[k][j] == levels[k][j];
    }
  }

  /** Pushing an unvisited, justified id at `level` keeps the invariant. */
  lemma PushKeepsInv(nodes: seq<FlowNode>, st: DfsState, id: string, level: nat)
    requires Inv(nodes, st) && level < |st.levels|
    requires id in Ids(nodes) && id !in st.visited && Justified(nodes, st.levels, id, level)
    ensures Inv(nodes, DfsState(Push(st.levels, level, IdIndex(nodes)[id]), st.visited + {id}))
    ensures id in LevelIds(Push(st.levels, level, IdIndex(nodes)[id])[level])
  {
    var e := IdIndex(nodes)[id];
    var ls := Push(st.levels, level, e);
    PushWellPlaced(nodes, st.levels, id, level);
    PushPlacedOnce(st.levels, level, e);
    PushPlaced(st.levels, level, e);
    assert ls[level][|st.levels[level]|] == e;
  }

  /** `if (!levels[level]) levels[level] = []`, for a `level` at most one past the end. */
  function Grow(levels: Levels, level: nat): (ls: Levels)
    requires level <= |levels|
    ensures level < |ls| && |levels| <= |ls|
  {
    if level < |levels| then levels else levels + [[]]
  }

  lemma GrowExtends(levels: Levels, level: nat)
    requires level <= |levels|
    ensures Extends(levels, Grow(levels, level))
  {
  }

  /** The first visit of `id`: make sure `levels[level]` exists, mark `id` and push its node there. */
  function Enter(nodes: seq<FlowNode>, st: DfsState, id: string, level: nat): (r: DfsState)
    requires id in Ids(nodes) && level <= |st.levels|
    ensures level < |r.levels| && |st.levels| <= |r.levels|
    ensures r.visited == st.visited + {id}
  {
    DfsState(Push(Grow(st.levels, level), level, IdIndex(nodes)[id]), st.visited + {id})
  }

  lemma EnterExtends(nodes: seq<FlowNode>, st: DfsState, id: string, level: nat)
    requires id in Ids(nodes) && level <= |st.levels|
    ensures Extends(st.levels, Enter(nodes, st, id, level).levels)
  {
    GrowExtends(st.levels, level);
    ExtendsTrans(st.levels, Grow(st.levels, level), Enter(nodes, st, id, level).levels);
  }

  /** Entering an unvisited, justified id keeps the invariant. */
  lemma EnterInv(nodes: seq<FlowNode>, st: DfsState, id: string, level: nat)
    requires id in Ids(nodes) && level <= |st.levels| && id !in st.visited
    requires Inv(nodes, st) && Justified(nodes, st.levels, id, level)
    ensures Inv(nodes, Enter(nodes, st, id, level))
    ensures id in LevelIds(Enter(nodes, st, id, level).levels[level])
  {
    GrowInv(nodes, st, id, level);
    PushKeepsInv(nodes, DfsState(Grow(st.levels, level), st.visited), id, level);
  }

  /**
   * `visit(id, level)`: ensure `levels[level]` exists, stop if `id` was
   * visited, otherwise mark it, push its node onto `levels[level]` and visit
   * its dependents one level deeper. The measure is the number of ids not
   * yet visited: every first visit marks one more.
   */
  function VisitFrom(nodes: seq<FlowNode>, st: DfsState, id: string, level: nat): (r: DfsState)
    requires id in Ids(nodes) && level <= |st.levels|
    ensures level < |r.levels| && |st.levels| <= |r.levels|
    ensures st.visited <= r.visited
    decreases |Ids(nodes) - st.visited|, 0
  {
    if id in st.visited then DfsState(Grow(st.levels, level), st.visited)
    else
      CardDiffStrict(Ids(nodes), st.visited, id);
      VisitEach(nodes, Enter(nodes, st, id, level), Dependents(nodes, id), level + 1)
  }

  /** The `for (const dep of dependents) visit(dep.id, level)` loop of one visit. */
  function VisitEach(nodes: seq<FlowNode>, st: DfsState, deps: seq<FlowNode>, level: nat): (r: DfsState)
    requires 1 <= level <= |st.levels|
    requires forall d :: d in deps ==> d in nodes
    ensures |st.levels| <= |r.levels|
    ensures st.visited <= r.visited
    decreases |Ids(nodes) - st.visited|, |deps| + 1
  {
    if deps == [] then st
    else
      var next := VisitFrom(nodes, st, deps[0].id, level);
      CardDiffMono(Ids(nodes), st.visited, next.visited);
      VisitEach(nodes, next, deps[1..], level)
  }

  /** The `for (const root of roots) visit(root.id, 0)` loop. */
  function VisitRoots(nodes: seq<FlowNode>, st: DfsState, roots: seq<FlowNode>): (r: DfsState)
    requires forall n :: n in roots ==> n in nodes
    ensures |st.levels| <= |r.levels|
    ensures st.visited <= r.visited
    decreases |roots|
  {
    if roots == [] then st
    else VisitRoots(nodes, VisitFrom(nodes, st, roots[0].id, 0), roots[1..])
  }

  /** A visit only appends levels and pushes onto them; nothing placed is removed or moved. */
  lemma {:induction false} VisitFromExtends(nodes: seq<FlowNode>, st: DfsState, id: string, level: nat)
    requires id in Ids(nodes) && level <= |st.levels|
    ensures Extends(st.levels, VisitFrom(nodes, st, id, level).levels)
    decreases |Ids(nodes) - st.visited|, 1
  {
    if id in st.visited {
      GrowExtends(st.levels, level);
    } else {
      EnteredExtends(nodes, st, id, level);
    }
  }

  /** The first visit of an id extends the levels it started from. */
  lemma {:induction false} EnteredExtends(nodes: seq<FlowNode>, st: DfsState, id: string, level: nat)
    requires id in Ids(nodes) && level <= |st.levels| && id !in st.visited
    ensures Extends(st.levels, VisitFrom(nodes, st, id, level).levels)
    decreases |Ids(nodes) - st.visited|, 0
  {
    CardDiffStrict(Ids(nodes), st.visited, id);
    VisitEachExtends(nodes, Enter(nodes, st, id, level), Dependents(nodes, id), level + 1);
    VisitFromUnfold(nodes, st, id, level);
    EnterExtends(nodes, st, id, level);
    var entered := Enter(nodes, st, id, level);
    ExtendsTrans(st.levels, entered.levels, VisitEach(nodes, entered, Dependents(nodes, id), level + 1).levels);
  }

  lemma {:induction false} VisitEachExtends(nodes: seq<FlowNode>, st: DfsState, deps: seq<FlowNode>, level: nat)
    requires 1 <= level <= |st.levels|
    requires forall d :: d in deps ==> d in nodes
    ensures Extends(st.levels, VisitEach(nodes, st, deps, level).levels)
    decreases |Ids(nodes) - st.visited|, |deps| + 2
  {
    if deps != [] {
      assert deps[0] in deps;
      var next := VisitFrom(nodes, st, deps[0].id, level);
      VisitFromExtends(nodes, st, deps[0].id, level);
      CardDiffMono(Ids(nodes), st.visited, next.visited);
      VisitEachExtends(nodes, next, deps[1..], level);
      ExtendsTrans(st.levels, next.levels, VisitEach(nodes, st, deps, level).levels);
    }
  }

  lemma GrowInv(nodes: seq<FlowNode>, st: DfsState, id: string, level: nat)
    requires level <= |st.levels| && Inv(nodes, st) && Justified(nodes, st.levels, id, level)
    ensures Inv(nodes, DfsState(Grow(st.levels, level), st.visited))
    ensures Justified(nodes, Grow(st.levels, level), id, level)
  {
    if level == |st.levels| {
      GrowKeepsInv(nodes, st);
    }
    GrowExtends(st.levels, level);
    ExtendsKeepsLevels(nodes, st.levels, Grow(st.levels, level));
  }

  /** Marking `id` and then closing over all its dependents closes `id` itself. */
  lemma CloseOver(nodes: seq<FlowNode>, before: set<string>, id: string, after: set<string>)
    requires ClosedFrom(nodes, before + {id}, after) && id in after
    requires forall d :: d in Dependents(nodes, id) ==> d.id in after
    ensures ClosedFrom(nodes, before, after)
  {
    forall y, d | y in after && y !in before && d in nodes && y in Inputs(d)
      ensures d.id in after
    {
      if y == id {
        assert d in Dependents(nodes, id);
      }
    }
  }

  lemma VisitFromUnfold(nodes: seq<FlowNode>, st: DfsState, id: string, level: nat)
    requires id in Ids(nodes) && level <= |st.levels| && id !in st.visited
    ensures VisitFrom(nodes, st, id, level) == VisitEach(nodes, Enter(nodes, st, id, level), Dependents(nodes, id), level + 1)
  {
  }

  /** A visit from a justified id keeps the invariant. */
  lemma {:induction false} VisitFromInv(nodes: seq<FlowNode>, st: DfsState, id: string, level: nat)
    requires id in Ids(nodes) && level <= |st.levels|
    requires Inv(nodes, st) && Justified(nodes, st.levels, id, level)
    ensures Inv(nodes, VisitFrom(nodes, st, id, level))
    decreases |Ids(nodes) - st.visited|, 1
  {
    if id in st.visited {
      GrowInv(nodes, st, id, level);
    } else {
      EnterInv(nodes, st, id, level);
      EnteredInv(nodes, st, id, level);
    }
  }

  /** The rest of a first visit: once `id` is entered, visiting its dependents keeps the invariant. */
  lemma {:induction false} EnteredInv(nodes: seq<FlowNode>, st: DfsState, id: string, level: nat)
    requires id in Ids(nodes) && level <= |st.levels| && id !in st.visited
    requires Inv(nodes, Enter(nodes, st, id, level))
    requires id in LevelIds(Enter(nodes, st, id, level).levels[level])
    ensures Inv(nodes, VisitFrom(nodes, st, id, level))
    decreases |Ids(nodes) - st.visited|, 0
  {
    CardDiffStrict(Ids(nodes), st.visited, id);
    VisitEachInv(nodes, Enter(nodes, st, id, level), id, Dependents(nodes, id), level + 1);
    VisitFromUnfold(nodes, st, id, level);
  }

  lemma {:induction false} VisitEachInv(nodes: seq<FlowNode>, st: DfsState, parent: string, deps: seq<FlowNode>, level: nat)
    requires 1 <= level <= |st.levels|
    requires Inv(nodes, st) && parent in LevelIds(st.levels[level - 1])
    requires forall d :: d in deps ==> d in nodes && parent in Inputs(d)
    ensures Inv(nodes, VisitEach(nodes, st, deps, level))
    decreases |Ids(nodes) - st.visited|, |deps| + 2
  {
    if deps != [] {
      assert deps[0] in deps && IsInputOf(nodes, parent, deps[0].id);
      VisitFromInv(nodes, st, deps[0].id, level);
      var next := VisitFrom(nodes, st, deps[0].id, level);
      VisitFromExtends(nodes, st, deps[0].id, level);
      ExtendsKeepsLevels(nodes, st.levels, next.levels);
      CardDiffMono(Ids(nodes), st.visited, next.visited);
      VisitEachInv(nodes, next, parent, deps[1..], level);
    }
  }

  lemma {:induction false} VisitRootsInv(nodes: seq<FlowNode>, st: DfsState, roots: seq<FlowNode>)
    requires Inv(nodes, st)
    requires forall n :: n in roots ==> n in nodes && IsRoot(n)
    ensures Inv(nodes, VisitRoots(nodes, st, roots))
    decreases |roots|
  {
    if roots != [] {
      assert roots[0] in roots && IsRootId(nodes, roots[0].id);
      VisitFromInv(nodes, st, roots[0].id, 0);
      VisitRootsInv(nodes, VisitFrom(nodes, st, roots[0].id, 0), roots[1..]);
    }
  }

  /**
   * Closing over the dependents of a freshly entered id closes the whole
   * visit, and marks the id.
   */
  lemma EnterClosed(nodes: seq<FlowNode>, st: DfsState, id: string, level: nat)
    requires id in Ids(nodes) && level <= |st.levels| && id !in st.visited
    requires ClosedFrom(nodes, Enter(nodes, st, id, level).visited,
                        VisitEach(nodes, Enter(nodes, st, id, level), Dependents(nodes, id), level + 1).visited)
    requires forall d :: d in Dependents(nodes, id) ==>
      d.id in VisitEach(nodes, Enter(nodes, st, id, level), Dependents(nodes, id), level + 1).visited
    ensures id in VisitFrom(nodes, st, id, level).visited
    ensures ClosedFrom(nodes, st.visited, VisitFrom(nodes, st, id, level).visited)
  {
    VisitFromUnfold(nodes, st, id, level);
    var r := VisitEach(nodes, Enter(nodes, st, id, level), Dependents(nodes, id), level + 1);
    CloseOver(nodes, st.visited, id, r.visited);
  }

  /** A visit marks its id, and every id it marks has had all its dependents visited by the end. */
  lemma {:induction false} VisitFromClosed(nodes: seq<FlowNode>, st: DfsState, id: string, level: nat)
    requires id in Ids(nodes) && level <= |st.levels|
    ensures id in VisitFrom(nodes, st, id, level).visited
    ensures ClosedFrom(nodes, st.visited, VisitFrom(nodes, st, id, level).visited)
    decreases |Ids(nodes) - st.visited|, 0
  {
    if id !in st.visited {
      CardDiffStrict(Ids(nodes), st.visited, id);
      VisitEachClosed(nodes, Enter(nodes, st, id, level), Dependents(nodes, id), level + 1);
      EnterClosed(nodes, st, id, level);
    }
  }

  lemma {:induction false} VisitEachClosed(nodes: seq<FlowNode>, st: DfsState, deps: seq<FlowNode>, level: nat)
    requires 1 <= level <= |st.levels|
    requires forall d :: d in deps ==> d in nodes
    ensures forall d :: d in deps ==> d.id in VisitEach(nodes, st, deps, level).visited
    ensures ClosedFrom(nodes, st.visited, VisitEach(nodes, st, deps, level).visited)
    decreases |Ids(nodes) - st.visited|, |deps| + 1
  {
    if deps != [] {
      assert deps[0] in deps;
      VisitFromClosed(nodes, st, deps[0].id, level);
      var next := VisitFrom(nodes, st, deps[0].id, level);
      CardDiffMono(Ids(nodes), st.visited, next.visited);
      VisitEachClosed(nodes, next, deps[1..], level);
      assert forall d :: d in deps ==> d == deps[0] || d in deps[1..];
    }
  }

  lemma {:induction false} VisitRootsClosed(nodes: seq<FlowNode>, st: DfsState, roots: seq<FlowNode>)
    requires forall n :: n in roots ==> n in nodes
    ensures forall n :: n in roots ==> n.id in VisitRoots(nodes, st, roots).visited
    ensures ClosedFrom(nodes, st.visited, VisitRoots(nodes, st, roots).visited)
    decreases |roots|
  {
    if roots != [] {
      assert roots[0] in roots;
      VisitFromClosed(nodes, st, roots[0].id, 0);
      VisitRootsClosed(nodes, VisitFrom(nodes, st, roots[0].id, 0), roots[1..]);
      assert forall n :: n in roots ==> n == roots[0] || n in roots[1..];
    }
  }

  /**
   * The levels `resolveDAG` returns: the walk from every root, in list
   * order, starting from no levels and nothing visited. Its entries are well
   * placed and placed once, the placed ids include every root and are closed
   * under "is an input of".
   */
  function Resolve(nodes: seq<FlowNode>): (levels: Levels)
    ensures EntriesWellPlaced(nodes, levels) && PlacedOnce(levels)
    ensures forall n :: n in nodes && IsRoot(n) ==> n.id in Placed(levels)
    ensures ClosedFrom(nodes, {}, Placed(levels))
  {
    ResolveInv(nodes);
    VisitRoots(nodes, DfsState([], {}), Roots(nodes)).levels
  }

  /** The walk from the roots ends in a state satisfying the invariant, closed under dependents. */
  lemma ResolveInv(nodes: seq<FlowNode>)
    ensures Inv(nodes, VisitRoots(nodes, DfsState([], {}), Roots(nodes)))
    ensures forall n :: n in Roots(nodes) ==> n.id in VisitRoots(nodes, DfsState([], {}), Roots(nodes)).visited
    ensures ClosedFrom(nodes, {}, VisitRoots(nodes, DfsState([], {}), Roots(nodes)).visited)
  {
    VisitRootsInv(nodes, DfsState([], {}), Roots(nodes));
    VisitRootsClosed(nodes, DfsState([], {}), Roots(nodes));
  }

  /** Each entry of the result is a node of the graph, the one registered under its id. */
  lemma ResolveEntries(nodes: seq<FlowNode>)
    ensures forall k, j :: 0 <= k < |Resolve(nodes)| && 0 <= j < |Resolve(nodes)[k]| ==>
      Resolve(nodes)[k][j] in nodes && Resolve(nodes)[k][j] == IdIndex(nodes)[Resolve(nodes)[k][j].id]
  {
    var ls := Resolve(nodes);
    forall k, j | 0 <= k < |ls| && 0 <= j < |ls[k]|
      ensures ls[k][j] in nodes && ls[k][j] == IdIndex(nodes)[ls[k][j].id]
    {
      assert ls[k][j].id in Ids(nodes);
    }
  }

  /** The placed ids are closed under "is an input of": every dependent of a placed id is placed. */
  lemma ResolveClosed(nodes: seq<FlowNode>)
    ensures forall y, d :: y in Placed(Resolve(nodes)) && d in nodes && y in Inputs(d) ==> d.id in Placed(Resolve(nodes))
  {
    var ls := Resolve(nodes);
    assert ClosedFrom(nodes, {}, Placed(ls));
  }

  /** Some id one level above the entry at `levels[k][j]` is among that entry's inputs. */
  ghost predicate HasParentAbove(nodes: seq<FlowNode>, levels: Levels, k: nat, j: nat)
    requires 1 <= k < |levels| && j < |levels[k]|
  {
    exists p :: p in LevelIds(levels[k - 1]) && IsInputOf(nodes, p, levels[k][j].id)
  }

  /** A level-0 entry is a root; an entry at level k >= 1 lists some id placed at level k-1. */
  lemma ResolveJustified(nodes: seq<FlowNode>)
    ensures forall j :: 0 < |Resolve(nodes)| && 0 <= j < |Resolve(nodes)[0]| ==> IsRootId(nodes, Resolve(nodes)[0][j].id)
    ensures forall k: nat, j: nat :: 1 <= k < |Resolve(nodes)| && j < |Resolve(nodes)[k]| ==>
      HasParentAbove(nodes, Resolve(nodes), k, j)
  {
    WellPlacedJustified(nodes, Resolve(nodes));
  }

  lemma WellPlacedJustified(nodes: seq<FlowNode>, levels: Levels)
    requires EntriesWellPlaced(nodes, levels)
    ensures forall j :: 0 < |levels| && 0 <= j < |levels[0]| ==> IsRootId(nodes, levels[0][j].id)
    ensures forall k: nat, j: nat :: 1 <= k < |levels| && j < |levels[k]| ==> HasParentAbove(nodes, levels, k, j)
  {
    forall j | 0 < |levels| && 0 <= j < |levels[0]| ensures IsRootId(nodes, levels[0][j].id) {
      assert Justified(nodes, levels, levels[0][j].id, 0);
    }
    forall k: nat, j: nat | 1 <= k < |levels| && j < |levels[k]| ensures HasParentAbove(nodes, levels, k, j) {
      assert Justified(nodes, levels, levels[k][j].id, k);
    }
  }

  /** One step of the dependents loop: visit the first dependent, then the rest. */
  lemma VisitEachStep(nodes: seq<FlowNode>, st: DfsState, deps: seq<FlowNode>, level: nat)
    requires 1 <= level <= |st.levels| && deps != []
    requires forall d :: d in deps ==> d in nodes
    ensures VisitEach(nodes, st, deps, level) ==
      VisitEach(nodes, VisitFrom(nodes, st, deps[0].id, level), deps[1..], level)
  {
  }

  /**
   * The inner `visit`. The closure's captured `levels` and `visited` are
   * passed in and handed back; `idToNode` is the index built once up front.
   */
  method Visit(nodes: seq<FlowNode>, idToNode: map<string, FlowNode>, levels: Levels, visited: set<string>,
               nodeId: string, level: nat)
    returns (levels': Levels, visited': set<string>)
    requires idToNode == IdIndex(nodes)
    requires nodeId in Ids(nodes) && level <= |levels|
    ensures DfsState(levels', visited') == VisitFrom(nodes, DfsState(levels, visited), nodeId, level)
    decreases |Ids(nodes) - visited|, 0
  {
    levels', visited' := Grow(levels, level), visited;
    if nodeId in visited' {
      return;
    }
    visited' := visited' + {nodeId};
    levels' := levels'[level := levels'[level] + [idToNode[nodeId]]];
    assert DfsState(levels', visited') == Enter(nodes, DfsState(levels, visited), nodeId, level);
    CardDiffStrict(Ids(nodes), visited, nodeId);
    levels', visited' := VisitDependents(nodes, idToNode, levels', visited', Dependents(nodes, nodeId), level + 1);
    VisitFromUnfold(nodes, DfsState(levels, visited), nodeId, level);
  }

  /** The loop `for (const dep of dependents) visit(dep.id, level + 1)` inside `visit`. */
  method VisitDependents(nodes: seq<FlowNode>, idToNode: map<string, FlowNode>, levels: Levels, visited: set<string>,
                         deps: seq<FlowNode>, level: nat)
    returns (levels': Levels, visited': set<string>)
    requires idToNode == IdIndex(nodes)
    requires 1 <= level <= |levels|
    requires forall d :: d in deps ==> d in nodes
    ensures DfsState(levels', visited') == VisitEach(nodes, DfsState(levels, visited), deps, level)
    decreases |Ids(nodes) - visited|, |deps| + 1
  {
    levels', visited' := levels, visited;
    for i := 0 to |deps|
      invariant level <= |levels'| && visited <= visited'
      invariant VisitEach(nodes, DfsState(levels', visited'), deps[i..], level) ==
                VisitEach(nodes, DfsState(levels, visited), deps, level)
    {
      VisitEachStep(nodes, DfsState(levels', visited'), deps[i..], level);
      assert deps[i..][1..] == deps[i + 1..];
      CardDiffMono(Ids(nodes), visited, visited');
      levels', visited' := Visit(nodes, idToNode, levels', visited', deps[i].id, level);
    }
  }

  /** `resolveDAG`: visit every root at level 0, in list order. */
  method ResolveDAG(flowNodes: seq<FlowNode>) returns (levels: Levels)
    ensures levels == Resolve(flowNodes)
  {
    levels := [];
    var visited: set<string> := {};
    var idToNode := IdIndex(flowNodes);
    var roots := Roots(flowNodes);
    for i := 0 to |roots|
      invariant VisitRoots(flowNodes, DfsState(levels, visited), roots[i..]) ==
                VisitRoots(flowNodes, DfsState([], {}), roots)
    {
      assert roots[i] in roots;
      assert roots[i..][1..] == roots[i + 1..];
      levels, visited := Visit(flowNodes, idToNode, levels, visited, roots[i].id, 0);
    }
  }

  // ---------------------------------------------------------------------
  // Reachability

  /**
   * `path` is a walk along "is an input of" edges that starts at a root:
   * each id after the first belongs to a node listing the previous id.
   */
  ghost predicate IsPath(nodes: seq<FlowNode>, path: seq<string>) {
    |path| >= 1 && IsRootId(nodes, path[0]) &&
    forall i :: 1 <= i < |path| ==> IsInputOf(nodes, path[i - 1], path[i])
  }

  ghost predicate Reachable(nodes: seq<FlowNode>, id: string) {
    exists path :: IsPath(nodes, path) && path[|path| - 1] == id
  }

  /** The end of every path from a root is placed. */
  lemma {:induction false} PathPlaced(nodes: seq<FlowNode>, path: seq<string>)
    requires IsPath(nodes, path)
    ensures path[|path| - 1] in Placed(Resolve(nodes))
    decreases |path|
  {
    if |path| == 1 {
      var n :| n in nodes && n.id == path[0] && IsRoot(n);
    } else {
      var prefix := path[..|path| - 1];
      assert IsPath(nodes, prefix) by {
        forall i | 1 <= i < |prefix| ensures IsInputOf(nodes, prefix[i - 1], prefix[i]) {
          assert prefix[i - 1] == path[i - 1] && prefix[i] == path[i];
        }
      }
      PathPlaced(nodes, prefix);
      assert IsInputOf(nodes, path[|path| - 2], path[|path| - 1]);
      var d :| d in nodes && d.id == path[|path| - 1] && path[|path| - 2] in Inputs(d);
      ResolveClosed(nodes);
    }
  }

  /** An entry at level k >= 1 has an input placed at some position of level k-1. */
  lemma ParentEntry(nodes: seq<FlowNode>, levels: Levels, k: nat, j: nat) returns (j': nat)
    requires EntriesWellPlaced(nodes, levels)
    requires 1 <= k < |levels| && j < |levels[k]|
    ensures j' < |levels[k - 1]| && IsInputOf(nodes, levels[k - 1][j'].id, levels[k][j].id)
  {
    assert Justified(nodes, levels, levels[k][j].id, k);
    var p :| p in LevelIds(levels[k - 1]) && IsInputOf(nodes, p, levels[k][j].id);
    var n :| n in levels[k - 1] && n.id == p;
    j' :| 0 <= j' < |levels[k - 1]| && levels[k - 1][j'] == n;
  }

  /** Some path from a root with exactly `len` edges ends in `id`. */
  ghost predicate PathOfLength(nodes: seq<FlowNode>, id: string, len: nat) {
    exists path :: IsPath(nodes, path) && |path| == len + 1 && path[len] == id
  }

  /** A root id is the end of the path of no edges. */
  lemma RootPath(nodes: seq<FlowNode>, id: string)
    requires IsRootId(nodes, id)
    ensures PathOfLength(nodes, id, 0)
  {
    assert IsPath(nodes, [id]);
  }

  /** A path followed by an edge to a dependent of its end is one edge longer. */
  lemma ExtendPath(nodes: seq<FlowNode>, p: string, x: string, len: nat)
    requires PathOfLength(nodes, p, len) && IsInputOf(nodes, p, x)
    ensures PathOfLength(nodes, x, len + 1)
  {
    var path :| IsPath(nodes, path) && |path| == len + 1 && path[len] == p;
    var longer := path + [x];
    forall i | 1 <= i < |longer| ensures IsInputOf(nodes, longer[i - 1], longer[i]) {
      if i < |path| {
        assert longer[i - 1] == path[i - 1] && longer[i] == path[i];
      }
    }
    assert IsPath(nodes, longer) && longer[len + 1] == x;
  }

  /** An entry placed at level k ends a path from a root with exactly k edges. */
  lemma {:induction false} PlacedAtLevelHasPath(nodes: seq<FlowNode>, levels: Levels, k: nat, j: nat)
    requires EntriesWellPlaced(nodes, levels)
    requires k < |levels| && j < |levels[k]|
    ensures PathOfLength(nodes, levels[k][j].id, k)
    decreases k
  {
    if k == 0 {
      assert Justified(nodes, levels, levels[0][j].id, 0);
      RootPath(nodes, levels[0][j].id);
    } else {
      var j' := ParentEntry(nodes, levels, k, j);
      PlacedAtLevelHasPath(nodes, levels, k - 1, j');
      ExtendPath(nodes, levels[k - 1][j'].id, levels[k][j].id, k - 1);
    }
  }

  /** The ids `resolveDAG` places are exactly the ids reachable from some root. */
  lemma PlacedIffReachable(nodes: seq<FlowNode>, id: string)
    ensures id in Placed(Resolve(nodes)) <==> Reachable(nodes, id)
  {
    var ls := Resolve(nodes);
    if id in Placed(ls) {
      var k, j :| 0 <= k < |ls| && 0 <= j < |ls[k]| && ls[k][j].id == id;
      PlacedAtLevelHasPath(nodes, ls, k, j);
      var path :| IsPath(nodes, path) && |path| == k + 1 && path[k] == id;
    }
    if Reachable(nodes, id) {
      var path :| IsPath(nodes, path) && path[|path| - 1] == id;
      PathPlaced(nodes, path);
    }
  }

  // ---------------------------------------------------------------------
  // Properties that rely on unique node ids

  lemma SameIdSameNode(nodes: seq<FlowNode>, a: FlowNode, b: FlowNode)
    requires UniqueIds(nodes) && a in nodes && b in nodes && a.id == b.id
    ensures a == b
  {
    var i :| 0 <= i < |nodes| && nodes[i] == a;
    var j :| 0 <= j < |nodes| && nodes[j] == b;
    if i < j || j < i {
      assert false;
    }
  }

  /** With unique ids, the id of an entry below level 0 belongs to no root. */
  lemma EntryBelowTopNotRoot(nodes: seq<FlowNode>, levels: Levels, k: nat, j: nat)
    requires UniqueIds(nodes) && EntriesWellPlaced(nodes, levels)
    requires 1 <= k < |levels| && j < |levels[k]|
    ensures forall n :: n in nodes && n.id == levels[k][j].id ==> !IsRoot(n)
  {
    assert Justified(nodes, levels, levels[k][j].id, k);
    var p :| p in LevelIds(levels[k - 1]) && IsInputOf(nodes, p, levels[k][j].id);
    var m :| m in nodes && m.id == levels[k][j].id && p in Inputs(m);
    forall n | n in nodes && n.id == levels[k][j].id ensures !IsRoot(n) {
      SameIdSameNode(nodes, m, n);
    }
  }

  /**
   * With unique ids, level 0 holds exactly the roots: a root is never a
   * dependent, so its first visit is the one from the roots loop.
   */
  lemma RootsAtLevelZero(nodes: seq<FlowNode>)
    requires UniqueIds(nodes)
    ensures forall n :: n in nodes && IsRoot(n) ==> |Resolve(nodes)| > 0 && n.id in LevelIds(Resolve(nodes)[0])
    ensures forall j :: 0 < |Resolve(nodes)| && 0 <= j < |Resolve(nodes)[0]| ==> IsRoot(Resolve(nodes)[0][j])
  {
    var ls := Resolve(nodes);
    forall n | n in nodes && IsRoot(n) ensures |ls| > 0 && n.id in LevelIds(ls[0]) {
      forall k: nat, j: nat | 1 <= k < |ls| && j < |ls[k]| ensures ls[k][j].id != n.id {
        EntryBelowTopNotRoot(nodes, ls, k, j);
      }
      var k, j :| 0 <= k < |ls| && 0 <= j < |ls[k]| && ls[k][j].id == n.id;
      assert k == 0;
      assert ls[0][j] in ls[0];
    }
    WellPlacedJustified(nodes, ls);
    forall j | 0 < |ls| && 0 <= j < |ls[0]| ensures IsRoot(ls[0][j]) {
      var r :| r in nodes && r.id == ls[0][j].id && IsRoot(r);
      assert ls[0][j] in nodes;
      SameIdSameNode(nodes, r, ls[0][j]);
    }
  }

  /**
   * With unique ids, a node placed at level k >= 1 whose only input is `p`
   * sits exactly one level below `p`.
   */
  lemma SingleInputOneBelow(nodes: seq<FlowNode>, k: nat, j: nat, p: string)
    requires UniqueIds(nodes)
    requires 1 <= k < |Resolve(nodes)| && j < |Resolve(nodes)[k]|
    requires Inputs(Resolve(nodes)[k][j]) == [p]
    ensures p in LevelIds(Resolve(nodes)[k - 1])
  {
    var ls := Resolve(nodes);
    var n := ls[k][j];
    assert n in nodes;
    WellPlacedJustified(nodes, ls);
    assert HasParentAbove(nodes, ls, k, j);
    var q :| q in LevelIds(ls[k - 1]) && IsInputOf(nodes, q, n.id);
    var m :| m in nodes && m.id == n.id && q in Inputs(m);
    SameIdSameNode(nodes, m, n);
  }
}

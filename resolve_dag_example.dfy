/**
 * A three-node graph on which `resolveDAG` does not produce a topological
 * order: node C lists both A and B as inputs, B lists A, and the list order
 * is A, C, B.
 */
module ResolveDagExample {
  import opened JsValues
  import opened FlowTypes
  import opened ResolveDag

  const NodeA := FlowNode("A", InputNode, None, None, None, None)
  const NodeC := FlowNode("C", ModelNode, Some("gpt-4o"), None, Some(["A", "B"]), None)
  const NodeB := FlowNode("B", ModelNode, Some("gpt-4o"), None, Some(["A"]), None)
  const Graph := [NodeA, NodeC, NodeB]

  lemma DistinctIds()
    ensures "A" != "B" && "A" != "C" && "B" != "C"
  {
    assert "A"[0] != "B"[0] && "A"[0] != "C"[0] && "B"[0] != "C"[0];
  }

  lemma GraphTails()
    ensures Graph[1..] == [NodeC, NodeB] && [NodeC, NodeB][1..] == [NodeB] && [NodeB][1..] == []
  {
  }

  lemma GraphRoots()
    ensures Roots(Graph) == [NodeA]
  {
    GraphTails();
    assert Roots([NodeB]) == [];
    assert Roots([NodeC, NodeB]) == [];
  }

  lemma DependentsOfA()
    ensures Dependents(Graph, "A") == [NodeC, NodeB]
  {
    DistinctIds();
    GraphTails();
    assert "A" !in Inputs(NodeA) && "A" in Inputs(NodeC) && "A" in Inputs(NodeB);
    assert Dependents([NodeB], "A") == [NodeB];
    assert Dependents([NodeC, NodeB], "A") == [NodeC, NodeB];
  }

  lemma DependentsOfB()
    ensures Dependents(Graph, "B") == [NodeC]
  {
    DistinctIds();
    GraphTails();
    assert "B" !in Inputs(NodeA) && "B" in Inputs(NodeC) && "B" !in Inputs(NodeB);
    assert Dependents([NodeB], "B") == [];
    assert Dependents([NodeC, NodeB], "B") == [NodeC];
  }

  lemma Index()
    ensures Ids(Graph) == {"A", "B", "C"}
    ensures IdIndex(Graph)["A"] == NodeA && IdIndex(Graph)["B"] == NodeB && IdIndex(Graph)["C"] == NodeC
  {
    DistinctIds();
    assert UniqueIds(Graph);
    assert NodeA in Graph && NodeB in Graph && NodeC in Graph;
    IndexOfUnique(Graph, NodeA);
    IndexOfUnique(Graph, NodeB);
    IndexOfUnique(Graph, NodeC);
  }

  const S0 := DfsState([], {})
  const S1 := DfsState([[NodeA]], {"A"})
  const S2 := DfsState([[NodeA], [NodeC]], {"A", "C"})
  const S3 := DfsState([[NodeA], [NodeC, NodeB]], {"A", "B", "C"})
  const S4 := DfsState([[NodeA], [NodeC, NodeB], []], {"A", "B", "C"})

  lemma EnterA()
    ensures "A" in Ids(Graph) && Enter(Graph, S0, "A", 0) == S1
  {
    Index();
    assert Grow([], 0) == [[]];
    var ls := Push([[]], 0, NodeA);
    assert ls[0] == [NodeA] && |ls| == 1;
    assert ls == [[NodeA]];
  }

  lemma EnterC()
    ensures "C" in Ids(Graph) && Enter(Graph, S1, "C", 1) == S2
  {
    Index();
    assert Grow(S1.levels, 1) == [[NodeA], []];
    var ls := Push([[NodeA], []], 1, NodeC);
    assert ls[0] == [NodeA] && ls[1] == [NodeC] && |ls| == 2;
    assert ls == S2.levels;
  }

  lemma EnterB()
    ensures "B" in Ids(Graph) && Enter(Graph, S2, "B", 1) == S3
  {
    Index();
    assert Grow(S2.levels, 1) == S2.levels;
    var ls := Push(S2.levels, 1, NodeB);
    assert ls[0] == [NodeA] && ls[1] == [NodeC, NodeB] && |ls| == 2;
    assert ls == S3.levels;
  }

  /** The visit of C from B at level 2 is a revisit: it only creates `levels[2]`. */
  lemma RevisitC()
    ensures "C" in Ids(Graph) && VisitFrom(Graph, S3, "C", 2) == S4
  {
    Index();
    assert Grow(S3.levels, 2) == S4.levels;
  }

  /** C, first reached from A at level 1, has no dependents. */
  lemma VisitC()
    ensures "C" in Ids(Graph) && VisitFrom(Graph, S1, "C", 1) == S2
  {
    EnterC();
    DistinctIds();
    VisitFromUnfold(Graph, S1, "C", 1);
    GraphTails();
    assert "C" !in Inputs(NodeA) && "C" !in Inputs(NodeC) && "C" !in Inputs(NodeB);
    assert Dependents([NodeB], "C") == [];
    assert Dependents([NodeC, NodeB], "C") == [];
    assert Dependents(Graph, "C") == [];
  }

  /** B, reached at level 1, revisits C at level 2, which only creates `levels[2]`. */
  lemma VisitB()
    ensures "B" in Ids(Graph) && VisitFrom(Graph, S2, "B", 1) == S4
  {
    EnterB();
    VisitFromUnfold(Graph, S2, "B", 1);
    DependentsOfB();
    RevisitC();
    VisitEachStep(Graph, S3, [NodeC], 2);
    GraphTails();
  }

  lemma VisitA()
    ensures "A" in Ids(Graph) && VisitFrom(Graph, S0, "A", 0) == S4
  {
    EnterA();
    VisitFromUnfold(Graph, S0, "A", 0);
    DependentsOfA();
    VisitC();
    VisitB();
    GraphTails();
    VisitEachStep(Graph, S1, [NodeC, NodeB], 1);
    VisitEachStep(Graph, S2, [NodeB], 1);
  }

  /**
   * On `Graph` the levels are [[A], [C, B], []]: C sits in the same level
   * as its input B, and the last level is empty.
   */
  lemma NotTopological()
    ensures Resolve(Graph) == [[NodeA], [NodeC, NodeB], []]
    ensures "B" in Inputs(NodeC)
  {
    GraphRoots();
    VisitA();
    GraphTails();
    assert VisitRoots(Graph, S0, [NodeA]) == S4;
  }
}

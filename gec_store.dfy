/**
 * The Global Execution Context structure: three fixed nodes (the context
 * itself, its memory and its code phase) and two edges from the context to
 * the others, added to and removed from the visualiser store.
 */
module GlobalExecutionContext {
  import opened Wrappers
  import opened Visualiser

  const GecBaseId := "gec-base"
  const MemoryId := "gec-memory"
  const CodePhaseId := "gec-code-phase"

  /** The three ids the structure owns. */
  predicate IsGecId(id: string)
  {
    id == GecBaseId || id == MemoryId || id == CodePhaseId
  }

  function GecData(title: string, hasTopHandle: bool, hasBottomHandle: bool): map<string, Value>
  {
    map["title" := Str(title), "isConnectable" := Flag(true), "hasTopHandle" := Flag(hasTopHandle),
        "hasBottomHandle" := Flag(hasBottomHandle), "hasLeftHandle" := Flag(false), "hasRightHandle" := Flag(false)]
  }

  const GecBaseNode := VNode(GecBaseId, "callStackBase", Position(300, 0), GecData("GEC", false, true), true, true, 5)
  const MemoryNode := VNode(MemoryId, "callStackBase", Position(150, 250), GecData("Memory", true, false), true, true, 5)
  const CodePhaseNode := VNode(CodePhaseId, "callStackBase", Position(450, 250), GecData("Code Execution Phase", true, false), true, true, 5)

  const GecNodes := [GecBaseNode, MemoryNode, CodePhaseNode]

  const GecEdges := [VEdge("edge-gec-to-memory", GecBaseId, MemoryId, "smoothstep", false),
                     VEdge("edge-gec-to-code-phase", GecBaseId, CodePhaseId, "smoothstep", false)]

  /** `addGECStructure`: three `addNode` calls, then one `addEdge` per structure edge. */
  function AddedGec(g: Graph): (r: Graph)
    ensures r.nodes == g.nodes + GecNodes
    ensures r.edges == g.edges + GecEdges
    ensures r.selectedNodes == g.selectedNodes && r.selectedEdges == g.selectedEdges
  {
    AddedEdge(AddedEdge(AddedNode(AddedNode(AddedNode(g, GecBaseNode), MemoryNode), CodePhaseNode), GecEdges[0]), GecEdges[1])
  }

  /** `removeGECStructure`: one `removeNode` per structure node. */
  function RemovedGec(g: Graph): (r: Graph)
    ensures forall n :: n in r.nodes <==> n in g.nodes && !IsGecId(n.id)
    ensures forall e :: e in r.edges <==> e in g.edges && !IsGecId(e.source) && !IsGecId(e.target)
    ensures forall x :: x in r.selectedNodes <==> x in g.selectedNodes && !IsGecId(x)
    ensures r.selectedEdges == g.selectedEdges
  {
    RemovedNode(RemovedNode(RemovedNode(g, GecBaseId), MemoryId), CodePhaseId)
  }

  /** The store holds nothing of the structure: no node, edge end or node selection uses one of its ids. */
  predicate FreeOfGec(g: Graph)
  {
    (forall i :: 0 <= i < |g.nodes| ==> !IsGecId(g.nodes[i].id)) &&
    (forall i :: 0 <= i < |g.edges| ==> !IsGecId(g.edges[i].source) && !IsGecId(g.edges[i].target)) &&
    (forall i :: 0 <= i < |g.selectedNodes| ==> !IsGecId(g.selectedNodes[i]))
  }

  lemma GecIdsDistinct()
    ensures GecBaseId != MemoryId && GecBaseId != CodePhaseId && MemoryId != CodePhaseId
  {
    assert GecBaseId[4] == 'b' && MemoryId[4] == 'm' && CodePhaseId[4] == 'c';
  }

  lemma FilterFirstOfThree(x: VNode, y: VNode, z: VNode, id: string)
    requires x.id == id && y.id != id && z.id != id
    ensures NodesWithout([x, y, z], id) == [y, z]
  {
    NodesWithoutCons(x, [y, z], id);
    NodesWithoutCons(y, [z], id);
    NodesWithoutCons(z, [], id);
    assert [x, y, z] == [x] + [y, z] && [y, z] == [y] + [z] && [z] == [z] + [];
  }

  lemma FilterFirstOfTwo(y: VNode, z: VNode, id: string)
    requires y.id == id && z.id != id
    ensures NodesWithout([y, z], id) == [z]
  {
    NodesWithoutCons(y, [z], id);
    NodesWithoutCons(z, [], id);
    assert [y, z] == [y] + [z] && [z] == [z] + [];
  }

  lemma FilterOnly(z: VNode, id: string)
    requires z.id == id
    ensures NodesWithout([z], id) == []
  {
    NodesWithoutCons(z, [], id);
    assert [z] == [z] + [];
  }

  lemma DropBothEdges(e: VEdge, f: VEdge, id: string)
    requires e.source == id && f.source == id
    ensures EdgesNotTouching([e, f], id) == []
  {
    EdgesNotTouchingCons(e, [f], id);
    EdgesNotTouchingCons(f, [], id);
    assert [e, f] == [e] + [f] && [f] == [f] + [];
  }

  lemma RemoveBaseAfterAdd(g: Graph)
    requires FreeOfGec(g)
    ensures RemovedNode(AddedGec(g), GecBaseId) == g.(nodes := g.nodes + [MemoryNode, CodePhaseNode])
  {
    GecIdsDistinct();
    assert GecBaseId !in g.selectedNodes;
    RemoveFromAppended(g, GecNodes, GecEdges, GecBaseId);
    FilterFirstOfThree(GecBaseNode, MemoryNode, CodePhaseNode, GecBaseId);
    DropBothEdges(GecEdges[0], GecEdges[1], GecBaseId);
    assert g.edges + [] == g.edges;
  }

  lemma RemoveMemoryAfterAdd(g: Graph)
    requires FreeOfGec(g)
    ensures RemovedNode(g.(nodes := g.nodes + [MemoryNode, CodePhaseNode]), MemoryId) == g.(nodes := g.nodes + [CodePhaseNode])
  {
    GecIdsDistinct();
    assert MemoryId !in g.selectedNodes;
    assert g.edges + [] == g.edges;
    RemoveFromAppended(g, [MemoryNode, CodePhaseNode], [], MemoryId);
    FilterFirstOfTwo(MemoryNode, CodePhaseNode, MemoryId);
    assert EdgesNotTouching([], MemoryId) == [];
  }

  lemma RemoveCodePhaseAfterAdd(g: Graph)
    requires FreeOfGec(g)
    ensures RemovedNode(g.(nodes := g.nodes + [CodePhaseNode]), CodePhaseId) == g
  {
    assert CodePhaseId !in g.selectedNodes;
    assert g.edges + [] == g.edges;
    RemoveFromAppended(g, [CodePhaseNode], [], CodePhaseId);
    FilterOnly(CodePhaseNode, CodePhaseId);
    assert EdgesNotTouching([], CodePhaseId) == [];
    assert g.nodes + [] == g.nodes;
  }

  /** On a store free of the structure, adding it and removing it again gives the store back. */
  lemma AddRemoveGec(g: Graph)
    requires FreeOfGec(g)
    ensures RemovedGec(AddedGec(g)) == g
  {
    RemoveBaseAfterAdd(g);
    RemoveMemoryAfterAdd(g);
    RemoveCodePhaseAfterAdd(g);
  }

  // ----- The getters -----

  /** The outcome of a call that either returns a value or throws. */
  datatype Outcome<T> = Returns(value: T) | Throws(error: string)

  /**
   * The getters as written call `getNode` on the visualiser store, which has
   * no such member, so every call throws a TypeError whatever the store holds.
   */
  function GetNodeAsWritten(g: Graph, id: string): (r: Outcome<Option<VNode>>)
    ensures r.Throws?
  {
    Throws("visualiserStore.getNode is not a function")
  }

  /** The evidently intended lookup: the first node with the id, or null. */
  function FindNode(nodes: seq<VNode>, id: string): (r: Option<VNode>)
    ensures r.Some? ==> r.value in nodes && r.value.id == id
    ensures r.None? <==> forall i :: 0 <= i < |nodes| ==> nodes[i].id != id
  {
    if nodes == [] then None
    else if nodes[0].id == id then Some(nodes[0])
    else FindNode(nodes[1..], id)
  }

  function GetGecNode(g: Graph): Option<VNode>
  {
    FindNode(g.nodes, GecBaseId)
  }

  function GetMemoryNode(g: Graph): Option<VNode>
  {
    FindNode(g.nodes, MemoryId)
  }

  function GetCodePhaseNode(g: Graph): Option<VNode>
  {
    FindNode(g.nodes, CodePhaseId)
  }

  lemma {:induction false} FindAfter(a: seq<VNode>, b: seq<VNode>, id: string)
    requires forall i :: 0 <= i < |a| ==> a[i].id != id
    ensures FindNode(a + b, id) == FindNode(b, id)
  {
    if a != [] {
      assert (a + b)[0] == a[0] && (a + b)[1..] == a[1..] + b;
      FindAfter(a[1..], b, id);
    } else {
      assert a + b == b;
    }
  }

  lemma FindInThree(x: VNode, y: VNode, z: VNode)
    requires x.id != y.id && x.id != z.id && y.id != z.id
    ensures FindNode([x, y, z], x.id) == Some(x)
    ensures FindNode([x, y, z], y.id) == Some(y)
    ensures FindNode([x, y, z], z.id) == Some(z)
  {
    assert [x, y, z][1..] == [y, z] && [y, z][1..] == [z];
    assert FindNode([z], z.id) == Some(z);
    assert FindNode([y, z], z.id) == FindNode([z], z.id);
  }

  /**
   * After the structure is added to a store free of it, the intended getters
   * find the three structure nodes, while the getters as written throw.
   */
  lemma GettersAfterAdd(g: Graph)
    requires FreeOfGec(g)
    ensures GetGecNode(AddedGec(g)) == Some(GecBaseNode)
    ensures GetMemoryNode(AddedGec(g)) == Some(MemoryNode)
    ensures GetCodePhaseNode(AddedGec(g)) == Some(CodePhaseNode)
    ensures GetNodeAsWritten(AddedGec(g), GecBaseId).Throws?
  {
    GecIdsDistinct();
    FindAfter(g.nodes, GecNodes, GecBaseId);
    FindAfter(g.nodes, GecNodes, MemoryId);
    FindAfter(g.nodes, GecNodes, CodePhaseId);
    FindInThree(GecBaseNode, MemoryNode, CodePhaseNode);
  }

  /** After the structure is removed, the intended getters find nothing. */
  lemma GettersAfterRemove(g: Graph)
    ensures GetGecNode(RemovedGec(g)).None? && GetMemoryNode(RemovedGec(g)).None? && GetCodePhaseNode(RemovedGec(g)).None?
  {
    var r := RemovedGec(g);
    assert forall i :: 0 <= i < |r.nodes| ==> r.nodes[i] in r.nodes;
  }

  /** `addGECStructure` acting on the visualiser store. */
  method AddGecStructure(store: VisualiserStore)
    modifies store
    ensures store.State() == AddedGec(old(store.State()))
  {
    store.AddNode(GecBaseNode);
    store.AddNode(MemoryNode);
    store.AddNode(CodePhaseNode);
    ghost var withNodes := store.State();
    for k := 0 to |GecEdges|
      invariant store.State() == withNodes.(edges := withNodes.edges + GecEdges[..k])
    {
      store.AddEdge(GecEdges[k]);
      assert GecEdges[..k + 1] == GecEdges[..k] + [GecEdges[k]];
    }
    assert GecEdges[..|GecEdges|] == GecEdges;
  }

  /** `removeGECStructure` acting on the visualiser store. */
  method RemoveGecStructure(store: VisualiserStore)
    modifies store
    ensures store.State() == RemovedGec(old(store.State()))
  {
    store.RemoveNode(GecBaseId);
    store.RemoveNode(MemoryId);
    store.RemoveNode(CodePhaseId);
  }
}

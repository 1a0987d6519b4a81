/**
 * The generic graph store behind the visualiser canvas: a list of nodes, a
 * list of edges, and the ids of the selected nodes and edges.
 */
module Visualiser {
  import opened Wrappers
  import Text

  /** A value in a node's free-form `data` record. */
  datatype Value = Str(text: string) | Flag(flag: bool) | Number(number: int)

  datatype Position = Position(x: int, y: int)

  datatype VNode = VNode(id: string, kind: string, position: Position, data: map<string, Value>,
                         draggable: bool, connectable: bool, zIndex: int)

  datatype VEdge = VEdge(id: string, source: string, target: string, kind: string, animated: bool)

  /** `Partial<VisualiserNode>`: the fields an update overwrites. */
  datatype NodePatch = NodePatch(id: Option<string>, kind: Option<string>, position: Option<Position>,
                                 data: Option<map<string, Value>>, draggable: Option<bool>,
                                 connectable: Option<bool>, zIndex: Option<int>)

  datatype Graph = Graph(nodes: seq<VNode>, edges: seq<VEdge>, selectedNodes: seq<string>, selectedEdges: seq<string>)

  const EmptyGraph := Graph([], [], [], [])

  const NoChange := NodePatch(None, None, None, None, None, None, None)

  // ----- Filters -----

  function NodesWithout(nodes: seq<VNode>, id: string): (r: seq<VNode>)
    ensures forall n :: n in r <==> n in nodes && n.id != id
  {
    if nodes == [] then []
    else (if nodes[0].id == id then [] else [nodes[0]]) + NodesWithout(nodes[1..], id)
  }

  function EdgesNotTouching(edges: seq<VEdge>, id: string): (r: seq<VEdge>)
    ensures forall e :: e in r <==> e in edges && e.source != id && e.target != id
  {
    if edges == [] then []
    else (if edges[0].source == id || edges[0].target == id then [] else [edges[0]]) + EdgesNotTouching(edges[1..], id)
  }

  function EdgesWithout(edges: seq<VEdge>, id: string): (r: seq<VEdge>)
    ensures forall e :: e in r <==> e in edges && e.id != id
  {
    if edges == [] then []
    else (if edges[0].id == id then [] else [edges[0]]) + EdgesWithout(edges[1..], id)
  }

  function IdsWithout(ids: seq<string>, id: string): (r: seq<string>)
    ensures forall x :: x in r <==> x in ids && x != id
  {
    if ids == [] then []
    else (if ids[0] == id then [] else [ids[0]]) + IdsWithout(ids[1..], id)
  }

  lemma {:induction false} NodesWithoutAppend(a: seq<VNode>, b: seq<VNode>, id: string)
    ensures NodesWithout(a + b, id) == NodesWithout(a, id) + NodesWithout(b, id)
  {
    if a == [] {
      assert a + b == b;
    } else {
      assert (a + b)[0] == a[0] && (a + b)[1..] == a[1..] + b;
      NodesWithoutAppend(a[1..], b, id);
    }
  }

  lemma {:induction false} NodesWithoutAbsent(a: seq<VNode>, id: string)
    requires forall i :: 0 <= i < |a| ==> a[i].id != id
    ensures NodesWithout(a, id) == a
  {
    if a != [] {
      NodesWithoutAbsent(a[1..], id);
    }
  }

  lemma {:induction false} EdgesNotTouchingAppend(a: seq<VEdge>, b: seq<VEdge>, id: string)
    ensures EdgesNotTouching(a + b, id) == EdgesNotTouching(a, id) + EdgesNotTouching(b, id)
  {
    if a == [] {
      assert a + b == b;
    } else {
      assert (a + b)[0] == a[0] && (a + b)[1..] == a[1..] + b;
      EdgesNotTouchingAppend(a[1..], b, id);
    }
  }

  lemma {:induction false} EdgesNotTouchingAbsent(a: seq<VEdge>, id: string)
    requires forall i :: 0 <= i < |a| ==> a[i].source != id && a[i].target != id
    ensures EdgesNotTouching(a, id) == a
  {
    if a != [] {
      EdgesNotTouchingAbsent(a[1..], id);
    }
  }

  lemma {:induction false} EdgesWithoutAppend(a: seq<VEdge>, b: seq<VEdge>, id: string)
    ensures EdgesWithout(a + b, id) == EdgesWithout(a, id) + EdgesWithout(b, id)
  {
    if a == [] {
      assert a + b == b;
    } else {
      assert (a + b)[0] == a[0] && (a + b)[1..] == a[1..] + b;
      EdgesWithoutAppend(a[1..], b, id);
    }
  }

  lemma {:induction false} EdgesWithoutAbsent(a: seq<VEdge>, id: string)
    requires forall i :: 0 <= i < |a| ==> a[i].id != id
    ensures EdgesWithout(a, id) == a
  {
    if a != [] {
      EdgesWithoutAbsent(a[1..], id);
    }
  }

  lemma {:induction false} IdsWithoutAbsent(a: seq<string>, id: string)
    requires id !in a
    ensures IdsWithout(a, id) == a
  {
    if a != [] {
      IdsWithoutAbsent(a[1..], id);
    }
  }

  lemma {:induction false} IdsWithoutAppend(a: seq<string>, b: seq<string>, id: string)
    ensures IdsWithout(a + b, id) == IdsWithout(a, id) + IdsWithout(b, id)
  {
    if a == [] {
      assert a + b == b;
    } else {
      assert (a + b)[0] == a[0] && (a + b)[1..] == a[1..] + b;
      IdsWithoutAppend(a[1..], b, id);
    }
  }

  lemma NodesWithoutCons(x: VNode, rest: seq<VNode>, id: string)
    ensures NodesWithout([x] + rest, id) == (if x.id == id then [] else [x]) + NodesWithout(rest, id)
  {
    assert ([x] + rest)[0] == x && ([x] + rest)[1..] == rest;
  }

  lemma EdgesNotTouchingCons(x: VEdge, rest: seq<VEdge>, id: string)
    ensures EdgesNotTouching([x] + rest, id) == (if x.source == id || x.target == id then [] else [x]) + EdgesNotTouching(rest, id)
  {
    assert ([x] + rest)[0] == x && ([x] + rest)[1..] == rest;
  }

  // ----- The actions -----

  function AddedNode(g: Graph, node: VNode): (r: Graph)
    ensures r.nodes == g.nodes + [node]
    ensures r.edges == g.edges && r.selectedNodes == g.selectedNodes && r.selectedEdges == g.selectedEdges
  {
    g.(nodes := g.nodes + [node])
  }

  /** `{ ...node, ...updates }`: each field given in the patch replaces the node's own. */
  function Patched(node: VNode, p: NodePatch): VNode
  {
    VNode(p.id.GetOr(node.id), p.kind.GetOr(node.kind), p.position.GetOr(node.position), p.data.GetOr(node.data),
          p.draggable.GetOr(node.draggable), p.connectable.GetOr(node.connectable), p.zIndex.GetOr(node.zIndex))
  }

  function PatchAll(nodes: seq<VNode>, id: string, p: NodePatch): (r: seq<VNode>)
    ensures |r| == |nodes|
    ensures forall i :: 0 <= i < |nodes| ==> r[i] == if nodes[i].id == id then Patched(nodes[i], p) else nodes[i]
  {
    if nodes == [] then []
    else [if nodes[0].id == id then Patched(nodes[0], p) else nodes[0]] + PatchAll(nodes[1..], id, p)
  }

  /** `updateNode`: only the nodes carrying the id change, and only in the patched fields. */
  function UpdatedNode(g: Graph, id: string, p: NodePatch): (r: Graph)
    ensures |r.nodes| == |g.nodes|
    ensures forall i :: 0 <= i < |g.nodes| && g.nodes[i].id != id ==> r.nodes[i] == g.nodes[i]
    ensures forall i :: 0 <= i < |g.nodes| && g.nodes[i].id == id ==> r.nodes[i] == Patched(g.nodes[i], p)
    ensures r.edges == g.edges && r.selectedNodes == g.selectedNodes && r.selectedEdges == g.selectedEdges
  {
    g.(nodes := PatchAll(g.nodes, id, p))
  }

  /** `removeNode`: the node, the edges touching it and its selection go; the edge selection stays. */
  function RemovedNode(g: Graph, id: string): (r: Graph)
    ensures forall n :: n in r.nodes <==> n in g.nodes && n.id != id
    ensures forall e :: e in r.edges <==> e in g.edges && e.source != id && e.target != id
    ensures forall x :: x in r.selectedNodes <==> x in g.selectedNodes && x != id
    ensures r.selectedEdges == g.selectedEdges
  {
    g.(nodes := NodesWithout(g.nodes, id), edges := EdgesNotTouching(g.edges, id), selectedNodes := IdsWithout(g.selectedNodes, id))
  }

  function AddedEdge(g: Graph, edge: VEdge): (r: Graph)
    ensures r.edges == g.edges + [edge]
    ensures r.nodes == g.nodes && r.selectedNodes == g.selectedNodes && r.selectedEdges == g.selectedEdges
  {
    g.(edges := g.edges + [edge])
  }

  /** `removeEdge`: the edge and its selection go. */
  function RemovedEdge(g: Graph, id: string): (r: Graph)
    ensures forall e :: e in r.edges <==> e in g.edges && e.id != id
    ensures forall x :: x in r.selectedEdges <==> x in g.selectedEdges && x != id
    ensures r.nodes == g.nodes && r.selectedNodes == g.selectedNodes
  {
    g.(edges := EdgesWithout(g.edges, id), selectedEdges := IdsWithout(g.selectedEdges, id))
  }

  /** `selectNode`: appended only when not already selected. */
  function SelectedNode(g: Graph, id: string): (r: Graph)
    ensures id in r.selectedNodes
    ensures id in g.selectedNodes ==> r == g
    ensures id !in g.selectedNodes ==> r.selectedNodes == g.selectedNodes + [id]
    ensures r.nodes == g.nodes && r.edges == g.edges && r.selectedEdges == g.selectedEdges
  {
    g.(selectedNodes := if id in g.selectedNodes then g.selectedNodes else g.selectedNodes + [id])
  }

  function SelectionCleared(g: Graph): (r: Graph)
    ensures r.selectedNodes == [] && r.selectedEdges == [] && r.nodes == g.nodes && r.edges == g.edges
  {
    g.(selectedNodes := [], selectedEdges := [])
  }

  function ClearedAll(g: Graph): (r: Graph)
    ensures r == EmptyGraph
  {
    Graph([], [], [], [])
  }

  function WithNodesAndEdges(g: Graph, nodes: seq<VNode>, edges: seq<VEdge>): (r: Graph)
    ensures r.nodes == nodes && r.edges == edges && r.selectedNodes == [] && r.selectedEdges == []
  {
    Graph(nodes, edges, [], [])
  }

  /** The id `onConnect` gives a user-drawn edge. */
  function ConnectionId(source: string, target: string, now: int): string
  {
    "edge-" + source + "-to-" + target + "-" + Text.IntToString(now)
  }

  /**
   * `onConnect`: an edge between the two handles, added only when both ends
   * are present (an absent end is the empty string).
   */
  function Connected(g: Graph, source: string, target: string, now: int): (r: Graph)
    ensures source != "" && target != "" ==>
              r.edges == g.edges + [VEdge(ConnectionId(source, target, now), source, target, "default", false)]
    ensures source == "" || target == "" ==> r == g
    ensures r.nodes == g.nodes && r.selectedNodes == g.selectedNodes && r.selectedEdges == g.selectedEdges
  {
    if source != "" && target != "" then AddedEdge(g, VEdge(ConnectionId(source, target, now), source, target, "default", false))
    else g
  }

  // ----- Properties -----

  predicate NoDuplicates(ids: seq<string>)
  {
    forall i, j :: 0 <= i < j < |ids| ==> ids[i] != ids[j]
  }

  /** `selectNode` keeps the selection free of duplicates and is idempotent. */
  lemma SelectNodeNoDuplicates(g: Graph, id: string)
    requires NoDuplicates(g.selectedNodes)
    ensures NoDuplicates(SelectedNode(g, id).selectedNodes)
    ensures SelectedNode(SelectedNode(g, id), id) == SelectedNode(g, id)
  {
  }

  /** Adding a node under a fresh id and removing that id gives the graph back. */
  lemma AddRemoveNode(g: Graph, node: VNode)
    requires forall i :: 0 <= i < |g.nodes| ==> g.nodes[i].id != node.id
    requires forall i :: 0 <= i < |g.edges| ==> g.edges[i].source != node.id && g.edges[i].target != node.id
    requires node.id !in g.selectedNodes
    ensures RemovedNode(AddedNode(g, node), node.id) == g
  {
    NodesWithoutAppend(g.nodes, [node], node.id);
    NodesWithoutAbsent(g.nodes, node.id);
    EdgesNotTouchingAbsent(g.edges, node.id);
    IdsWithoutAbsent(g.selectedNodes, node.id);
  }

  /** Adding an edge under a fresh id and removing that id gives the graph back. */
  lemma AddRemoveEdge(g: Graph, edge: VEdge)
    requires forall i :: 0 <= i < |g.edges| ==> g.edges[i].id != edge.id
    requires edge.id !in g.selectedEdges
    ensures RemovedEdge(AddedEdge(g, edge), edge.id) == g
  {
    EdgesWithoutAppend(g.edges, [edge], edge.id);
    EdgesWithoutAbsent(g.edges, edge.id);
    IdsWithoutAbsent(g.selectedEdges, edge.id);
  }

  /** Removing an id the graph does not use only filters what was appended after it. */
  lemma RemoveFromAppended(g: Graph, moreNodes: seq<VNode>, moreEdges: seq<VEdge>, id: string)
    requires forall i :: 0 <= i < |g.nodes| ==> g.nodes[i].id != id
    requires forall i :: 0 <= i < |g.edges| ==> g.edges[i].source != id && g.edges[i].target != id
    requires id !in g.selectedNodes
    ensures RemovedNode(g.(nodes := g.nodes + moreNodes, edges := g.edges + moreEdges), id)
         == g.(nodes := g.nodes + NodesWithout(moreNodes, id), edges := g.edges + EdgesNotTouching(moreEdges, id))
  {
    NodesWithoutAppend(g.nodes, moreNodes, id);
    NodesWithoutAbsent(g.nodes, id);
    EdgesNotTouchingAppend(g.edges, moreEdges, id);
    EdgesNotTouchingAbsent(g.edges, id);
    IdsWithoutAbsent(g.selectedNodes, id);
  }

  /** An update of an id no node carries, or with an empty patch, changes nothing. */
  lemma {:induction false} UpdateNoop(g: Graph, id: string, p: NodePatch)
    requires p == NoChange || forall i :: 0 <= i < |g.nodes| ==> g.nodes[i].id != id
    ensures UpdatedNode(g, id, p) == g
  {
    var r := UpdatedNode(g, id, p);
    forall i | 0 <= i < |g.nodes| ensures r.nodes[i] == g.nodes[i] {
      if g.nodes[i].id == id {
        assert p == NoChange;
      }
    }
  }

  /** Two edges drawn between the same handles at different times get different ids. */
  lemma ConnectionIdInjective(source: string, target: string, now: int, later: int)
    ensures ConnectionId(source, target, now) == ConnectionId(source, target, later) ==> now == later
  {
    var prefix := "edge-" + source + "-to-" + target + "-";
    assert ConnectionId(source, target, now) == prefix + Text.IntToString(now);
    assert ConnectionId(source, target, later) == prefix + Text.IntToString(later);
    if ConnectionId(source, target, now) == ConnectionId(source, target, later) {
      assert Text.IntToString(now) == (prefix + Text.IntToString(now))[|prefix|..];
      assert Text.IntToString(later) == (prefix + Text.IntToString(later))[|prefix|..];
      Text.IntToStringInjective(now, later);
    }
  }

  /** `onConnect` adds an edge exactly when both ends are present. */
  lemma ConnectAddsOneEdge(g: Graph, source: string, target: string, now: int)
    ensures |Connected(g, source, target, now).edges| == |g.edges| + 1 <==> source != "" && target != ""
    ensures |Connected(g, source, target, now).edges| == |g.edges| <==> source == "" || target == ""
  {
  }

  // ----- The store -----

  class VisualiserStore {
    var nodes: seq<VNode>
    var edges: seq<VEdge>
    var selectedNodes: seq<string>
    var selectedEdges: seq<string>

    function State(): Graph
      reads this
    {
      Graph(nodes, edges, selectedNodes, selectedEdges)
    }

    constructor ()
      ensures State() == EmptyGraph
    {
      nodes, edges, selectedNodes, selectedEdges := [], [], [], [];
    }

    method AddNode(node: VNode)
      modifies this
      ensures State() == AddedNode(old(State()), node)
    {
      nodes := nodes + [node];
    }

    method UpdateNode(nodeId: string, updates: NodePatch)
      modifies this
      ensures State() == UpdatedNode(old(State()), nodeId, updates)
    {
      nodes := PatchAll(nodes, nodeId, updates);
    }

    method RemoveNode(nodeId: string)
      modifies this
      ensures State() == RemovedNode(old(State()), nodeId)
    {
      nodes := NodesWithout(nodes, nodeId);
      edges := EdgesNotTouching(edges, nodeId);
      selectedNodes := IdsWithout(selectedNodes, nodeId);
    }

    method AddEdge(edge: VEdge)
      modifies this
      ensures State() == AddedEdge(old(State()), edge)
    {
      edges := edges + [edge];
    }

    method RemoveEdge(edgeId: string)
      modifies this
      ensures State() == RemovedEdge(old(State()), edgeId)
    {
      edges := EdgesWithout(edges, edgeId);
      selectedEdges := IdsWithout(selectedEdges, edgeId);
    }

    method SelectNode(nodeId: string)
      modifies this
      ensures State() == SelectedNode(old(State()), nodeId)
    {
      if nodeId !in selectedNodes {
        selectedNodes := selectedNodes + [nodeId];
      }
    }

    method ClearSelection()
      modifies this
      ensures State() == SelectionCleared(old(State()))
    {
      selectedNodes, selectedEdges := [], [];
    }

    method ClearAll()
      modifies this
      ensures State() == ClearedAll(old(State()))
    {
      nodes, edges, selectedNodes, selectedEdges := [], [], [], [];
    }

    method SetNodesAndEdges(newNodes: seq<VNode>, newEdges: seq<VEdge>)
      modifies this
      ensures State() == WithNodesAndEdges(old(State()), newNodes, newEdges)
    {
      nodes, edges, selectedNodes, selectedEdges := newNodes, newEdges, [], [];
    }

    method OnConnect(source: string, target: string, now: int)
      modifies this
      ensures State() == Connected(old(State()), source, target, now)
    {
      if source != "" && target != "" {
        var newEdge := VEdge(ConnectionId(source, target, now), source, target, "default", false);
        edges := edges + [newEdge];
      }
    }
  }
}

/**
 * The call-stack store: a base node, one node per pushed frame, edges from
 * every frame to the one below it, the number of frames and the id of the
 * current top (`nodeBelow`).
 *
 * Node ids are the strings "base" and "node-<n>"; here they are the datatype
 * `Id`, whose `Base` and `Node(n)` play those parts (`IdName` gives the string).
 */
module CallStack {
  import opened Wrappers
  import Text

  datatype Id = Base | Node(n: nat)

  datatype NodeType = CallStackNode | CallStackBase

  datatype Position = Position(x: int, y: int)

  datatype NodeData = NodeData(functionName: Option<string>, isTop: Option<bool>, isBottom: Option<bool>,
                               isConnectable: Option<bool>)

  datatype StackNode = StackNode(id: Id, kind: NodeType, position: Position, data: NodeData,
                                 zIndex: int, draggable: bool, connectable: bool)

  datatype StackEdge = StackEdge(id: string, source: Id, target: Id, kind: string, animated: bool)

  /** The store's four fields: `nodes`, `edges`, `noOfElementsInStack`, `nodeBelow`. */
  datatype Stack = Stack(nodes: seq<StackNode>, edges: seq<StackEdge>, count: nat, nodeBelow: Id)

  /** The label `push` uses when it is given no function name. */
  const DefaultFunctionName := "Function"

  /** Vertical distance between two frames. */
  const NodeSpacing := 170

  const InitialBaseNode := StackNode(Base, CallStackBase, Position(0, 0), NodeData(None, None, None, Some(false)), 10, true, false)

  function IdName(id: Id): string
  {
    match id
    case Base => "base"
    case Node(n) => "node-" + Text.NatToString(n)
  }

  function EdgeId(source: Id, target: Id): string
  {
    "edge-" + IdName(source) + "-to-" + IdName(target)
  }

  /** The initial state, and the state `clearStack` and `initializeStack` set. */
  function InitialStack(): Stack
  {
    Stack([InitialBaseNode], [], 0, Base)
  }

  // ----- List helpers (`find`, `map`, `filter`) -----

  /** `nodes.find(node => node.id === id)`: the first node with that id. */
  function FindNode(nodes: seq<StackNode>, id: Id): (r: Option<StackNode>)
    ensures r.Some? ==> r.value in nodes && r.value.id == id
    ensures r.None? <==> forall i :: 0 <= i < |nodes| ==> nodes[i].id != id
  {
    if nodes == [] then None
    else if nodes[0].id == id then Some(nodes[0])
    else FindNode(nodes[1..], id)
  }

  /** A node with its `isTop`/`isBottom` flags set for being the top frame (`top`) or a frame under it. */
  function Flagged(node: StackNode, top: bool): StackNode
  {
    node.(data := node.data.(isTop := Some(top), isBottom := Some(!top)))
  }

  /** `nodes.map(...)` that re-flags every node with the given id and leaves the others alone. */
  function Retag(nodes: seq<StackNode>, id: Id, top: bool): (r: seq<StackNode>)
    ensures |r| == |nodes|
    ensures forall i :: 0 <= i < |nodes| ==> r[i] == if nodes[i].id == id then Flagged(nodes[i], top) else nodes[i]
  {
    if nodes == [] then []
    else [if nodes[0].id == id then Flagged(nodes[0], top) else nodes[0]] + Retag(nodes[1..], id, top)
  }

  /** `nodes.filter(node => node.id !== id)`. */
  function WithoutNode(nodes: seq<StackNode>, id: Id): seq<StackNode>
  {
    if nodes == [] then []
    else (if nodes[0].id == id then [] else [nodes[0]]) + WithoutNode(nodes[1..], id)
  }

  /** `edges.filter(edge => edge.source !== id && edge.target !== id)`. */
  function WithoutTouching(edges: seq<StackEdge>, id: Id): seq<StackEdge>
  {
    if edges == [] then []
    else (if edges[0].source == id || edges[0].target == id then [] else [edges[0]]) + WithoutTouching(edges[1..], id)
  }

  lemma {:induction false} WithoutNodeMembers(nodes: seq<StackNode>, id: Id)
    ensures forall n :: n in WithoutNode(nodes, id) <==> n in nodes && n.id != id
  {
    if nodes != [] {
      WithoutNodeMembers(nodes[1..], id);
      assert nodes == [nodes[0]] + nodes[1..];
    }
  }

  lemma {:induction false} WithoutTouchingMembers(edges: seq<StackEdge>, id: Id)
    ensures forall e :: e in WithoutTouching(edges, id) <==> e in edges && e.source != id && e.target != id
  {
    if edges != [] {
      WithoutTouchingMembers(edges[1..], id);
      assert edges == [edges[0]] + edges[1..];
    }
  }

  /** What `Retag` keeps and what it re-flags, stated on membership. */
  lemma RetagMembers(nodes: seq<StackNode>, id: Id, top: bool)
    ensures forall n :: n in nodes && n.id != id ==> n in Retag(nodes, id, top)
    ensures forall n :: n in nodes && n.id == id ==> Flagged(n, top) in Retag(nodes, id, top)
    ensures forall n :: n in Retag(nodes, id, top) ==>
              (n.id != id && n in nodes) || (n.id == id && exists m :: m in nodes && m.id == id && n == Flagged(m, top))
  {
  }

  // ----- The actions -----

  /** The node `push` creates for frame number `k`. */
  function FrameNode(k: nat, name: string, basePosition: Position, top: bool): StackNode
  {
    StackNode(Node(k), CallStackNode, Position(basePosition.x, basePosition.y - k * NodeSpacing),
              NodeData(Some(name + " " + Text.NatToString(k)), Some(top), Some(!top), Some(false)), 10, true, false)
  }

  /** The edge `push` creates from a new frame to the node below it. */
  function FrameEdge(source: Id, target: Id): StackEdge
  {
    StackEdge(EdgeId(source, target), source, target, "smoothstep", true)
  }

  /** `push(functionName = "Function")`. */
  function Pushed(s: Stack, name: Option<string>): (r: Stack)
    ensures r.count == s.count + 1 && r.nodeBelow == Node(s.count + 1)
    ensures |r.nodes| == |s.nodes| + 1
    ensures r.nodes[|s.nodes|].id == Node(s.count + 1)
    ensures r.nodes[|s.nodes|].data.functionName == Some(name.GetOr(DefaultFunctionName) + " " + Text.NatToString(s.count + 1))
    ensures r.nodes[|s.nodes|].data.isTop == Some(true)
    ensures forall i :: 0 <= i < |s.nodes| && s.nodes[i].id == s.nodeBelow && s.nodeBelow != Base ==>
              r.nodes[i] == Flagged(s.nodes[i], false)
    ensures forall i :: 0 <= i < |s.nodes| && (s.nodes[i].id != s.nodeBelow || s.nodeBelow == Base) ==>
              r.nodes[i] == s.nodes[i]
    ensures r.edges == s.edges + [FrameEdge(Node(s.count + 1), s.nodeBelow)]
  {
    var newCount := s.count + 1;
    var basePosition := match FindNode(s.nodes, Base) case Some(b) => b.position case None => Position(0, 0);
    var newNode := FrameNode(newCount, name.GetOr(DefaultFunctionName), basePosition, true);
    var updated := if s.nodeBelow != Base then Retag(s.nodes, s.nodeBelow, false) else s.nodes;
    Stack(updated + [newNode], s.edges + [FrameEdge(Node(newCount), s.nodeBelow)], newCount, Node(newCount))
  }

  /** `pop()`: drops the top frame, its edges, and re-flags the frame under it. */
  function Popped(s: Stack): (r: Stack)
    ensures s.count == 0 ==> r == s
    ensures s.count > 0 ==> r.count == s.count - 1
    ensures s.count > 0 ==> r.nodeBelow == if s.count > 1 then Node(s.count - 1) else Base
    ensures s.count > 0 ==> forall n :: n in r.nodes ==> n.id != Node(s.count)
    ensures s.count > 0 ==> forall n :: n in s.nodes && n.id != Node(s.count) && (n.id != r.nodeBelow || r.nodeBelow == Base) ==>
              n in r.nodes
    ensures s.count > 1 ==> forall n :: n in s.nodes && n.id == Node(s.count - 1) ==> Flagged(n, true) in r.nodes
    ensures s.count > 0 ==> forall n :: n in r.nodes ==>
              (n in s.nodes && (s.count == 1 || n.id != Node(s.count - 1))) ||
              (s.count > 1 && exists m :: m in s.nodes && m.id == Node(s.count - 1) && n == Flagged(m, true))
    ensures s.count > 0 ==> forall e :: e in r.edges <==> e in s.edges && e.source != Node(s.count) && e.target != Node(s.count)
  {
    if s.count == 0 then s
    else
      var newCount := s.count - 1;
      var removed := Node(s.count);
      var newTop := if newCount > 0 then Node(newCount) else Base;
      var filtered := WithoutNode(s.nodes, removed);
      WithoutNodeMembers(s.nodes, removed);
      WithoutTouchingMembers(s.edges, removed);
      RetagMembers(filtered, newTop, true);
      var updated := if newTop != Base then Retag(filtered, newTop, true) else filtered;
      Stack(updated, WithoutTouching(s.edges, removed), newCount, newTop)
  }

  // ----- The getters -----

  /** `getTopNode()`. */
  function TopNode(s: Stack): (r: Option<StackNode>)
    ensures s.count == 0 ==> r.None?
    ensures r.Some? ==> r.value in s.nodes && r.value.id == Node(s.count)
  {
    if s.count == 0 then None else FindNode(s.nodes, Node(s.count))
  }

  /** `getBottomNode()`. */
  function BottomNode(s: Stack): (r: Option<StackNode>)
    ensures r.Some? ==> r.value in s.nodes && r.value.id == Base
  {
    FindNode(s.nodes, Base)
  }

  predicate IsEmpty(s: Stack)
  {
    s.count == 0
  }

  function StackSize(s: Stack): nat
  {
    s.count
  }

  // ----- The representation invariant -----

  function BelowOf(k: nat): Id
  {
    if k == 0 then Base else Node(k)
  }

  /** The nodes of the frames `frames[0]` (bottom) to the last one (top). */
  function FrameNodes(frames: seq<string>): (r: seq<StackNode>)
    ensures |r| == |frames|
  {
    seq(|frames|, i requires 0 <= i < |frames| => FrameNode(i + 1, frames[i], Position(0, 0), i == |frames| - 1))
  }

  /** The chain of edges from frame `k` to frame `k - 1` (or the base), for k = 1..n. */
  function FrameEdges(n: nat): (r: seq<StackEdge>)
    ensures |r| == n
  {
    seq(n, i requires 0 <= i < n => FrameEdge(Node(i + 1), BelowOf(i)))
  }

  /**
   * The state after pushing the function names `frames` from the initial state
   * (with nothing popped in between): the base, then frames 1..n with only the
   * last flagged as top, the chain of edges, `count` = n, `nodeBelow` the
   * last frame. Every state the actions reach is of this shape.
   */
  function Canonical(frames: seq<string>): Stack
  {
    Stack([InitialBaseNode] + FrameNodes(frames), FrameEdges(|frames|), |frames|, BelowOf(|frames|))
  }

  /** The initial state is the canonical state of no frames. */
  lemma InitialIsCanonical()
    ensures InitialStack() == Canonical([])
  {
    assert FrameNodes([]) == [];
    assert FrameEdges(0) == [];
  }

  lemma {:induction false} FindFirst(nodes: seq<StackNode>, id: Id, i: nat)
    requires i < |nodes| && nodes[i].id == id
    requires forall j :: 0 <= j < i ==> nodes[j].id != id
    ensures FindNode(nodes, id) == Some(nodes[i])
  {
    if i > 0 {
      FindFirst(nodes[1..], id, i - 1);
    }
  }

  lemma {:induction false} WithoutNodeAppend(a: seq<StackNode>, b: seq<StackNode>, id: Id)
    ensures WithoutNode(a + b, id) == WithoutNode(a, id) + WithoutNode(b, id)
  {
    if a == [] {
      assert a + b == b;
    } else {
      assert (a + b)[0] == a[0] && (a + b)[1..] == a[1..] + b;
      WithoutNodeAppend(a[1..], b, id);
    }
  }

  lemma {:induction false} WithoutNodeAbsent(a: seq<StackNode>, id: Id)
    requires forall i :: 0 <= i < |a| ==> a[i].id != id
    ensures WithoutNode(a, id) == a
  {
    if a != [] {
      WithoutNodeAbsent(a[1..], id);
    }
  }

  lemma {:induction false} WithoutTouchingAppend(a: seq<StackEdge>, b: seq<StackEdge>, id: Id)
    ensures WithoutTouching(a + b, id) == WithoutTouching(a, id) + WithoutTouching(b, id)
  {
    if a == [] {
      assert a + b == b;
    } else {
      assert (a + b)[0] == a[0] && (a + b)[1..] == a[1..] + b;
      WithoutTouchingAppend(a[1..], b, id);
    }
  }

  lemma {:induction false} WithoutTouchingAbsent(a: seq<StackEdge>, id: Id)
    requires forall i :: 0 <= i < |a| ==> a[i].source != id && a[i].target != id
    ensures WithoutTouching(a, id) == a
  {
    if a != [] {
      WithoutTouchingAbsent(a[1..], id);
    }
  }

  /** Frames 1..n, none of them flagged as the top. */
  function PlainNodes(frames: seq<string>): (r: seq<StackNode>)
    ensures |r| == |frames|
  {
    seq(|frames|, i requires 0 <= i < |frames| => FrameNode(i + 1, frames[i], Position(0, 0), false))
  }

  lemma {:induction false} DemoteTop(frames: seq<string>)
    requires |frames| > 0
    ensures Retag([InitialBaseNode] + FrameNodes(frames), Node(|frames|), false) == [InitialBaseNode] + PlainNodes(frames)
  {
    var a := [InitialBaseNode] + FrameNodes(frames);
    var r := Retag(a, Node(|frames|), false);
    forall i | 0 <= i < |a| ensures r[i] == ([InitialBaseNode] + PlainNodes(frames))[i] {
      if i > 0 {
        assert a[i] == FrameNode(i, frames[i - 1], Position(0, 0), i == |frames|);
      }
    }
  }

  lemma {:induction false} PromoteTop(frames: seq<string>)
    requires |frames| > 0
    ensures Retag([InitialBaseNode] + PlainNodes(frames), Node(|frames|), true) == [InitialBaseNode] + FrameNodes(frames)
  {
    var a := [InitialBaseNode] + PlainNodes(frames);
    var r := Retag(a, Node(|frames|), true);
    forall i | 0 <= i < |a| ensures r[i] == ([InitialBaseNode] + FrameNodes(frames))[i] {
      if i > 0 {
        assert a[i] == FrameNode(i, frames[i - 1], Position(0, 0), false);
      }
    }
  }

  lemma {:induction false} ExtendNodes(frames: seq<string>, top: string)
    ensures [InitialBaseNode] + FrameNodes(frames + [top])
         == ([InitialBaseNode] + PlainNodes(frames)) + [FrameNode(|frames| + 1, top, Position(0, 0), true)]
  {
    var a := [InitialBaseNode] + FrameNodes(frames + [top]);
    var b := ([InitialBaseNode] + PlainNodes(frames)) + [FrameNode(|frames| + 1, top, Position(0, 0), true)];
    assert |a| == |b|;
    forall i | 0 < i < |a| ensures a[i] == b[i] {
      assert a[i] == FrameNode(i, (frames + [top])[i - 1], Position(0, 0), i == |frames| + 1);
    }
  }

  lemma {:induction false} ExtendEdges(n: nat)
    ensures FrameEdges(n) + [FrameEdge(Node(n + 1), BelowOf(n))] == FrameEdges(n + 1)
  {
  }

  /** Pushing onto a canonical state gives the canonical state with one more frame. */
  lemma PushCanonical(frames: seq<string>, name: Option<string>)
    ensures Pushed(Canonical(frames), name) == Canonical(frames + [name.GetOr(DefaultFunctionName)])
  {
    var s := Canonical(frames);
    var n := |frames|;
    var fname := name.GetOr(DefaultFunctionName);
    FindFirst(s.nodes, Base, 0);
    if n > 0 {
      DemoteTop(frames);
    } else {
      assert FrameNodes(frames) == PlainNodes(frames) == [];
    }
    ExtendNodes(frames, fname);
    ExtendEdges(n);
  }

  /** The same, for a non-empty frame list given whole. */
  lemma PopLastCanonical(frames: seq<string>)
    requires |frames| > 0
    ensures Popped(Canonical(frames)) == Canonical(frames[..|frames| - 1])
  {
    assert frames[..|frames| - 1] + [frames[|frames| - 1]] == frames;
    PopCanonical(frames[..|frames| - 1], frames[|frames| - 1]);
  }

  /** Popping a canonical state with at least one frame gives the canonical state without its last frame. */
  lemma PopCanonical(frames: seq<string>, top: string)
    ensures Popped(Canonical(frames + [top])) == Canonical(frames)
  {
    var n := |frames|;
    var removed := Node(n + 1);
    var kept := [InitialBaseNode] + PlainNodes(frames);
    var topNode := FrameNode(n + 1, top, Position(0, 0), true);
    ExtendNodes(frames, top);
    WithoutNodeAppend(kept, [topNode], removed);
    WithoutNodeAbsent(kept, removed);
    assert WithoutNode([topNode], removed) == [];
    assert WithoutNode(kept + [topNode], removed) == kept;
    if n > 0 {
      PromoteTop(frames);
    } else {
      assert FrameNodes(frames) == PlainNodes(frames) == [];
    }
    ExtendEdges(n);
    var lastEdge := FrameEdge(removed, BelowOf(n));
    WithoutTouchingAppend(FrameEdges(n), [lastEdge], removed);
    WithoutTouchingAbsent(FrameEdges(n), removed);
    assert WithoutTouching([lastEdge], removed) == [];
  }

  /** From every reachable state, a push followed by a pop restores nodes, edges, count and top exactly. */
  lemma PushPopRoundTrip(frames: seq<string>, name: Option<string>)
    ensures Popped(Pushed(Canonical(frames), name)) == Canonical(frames)
  {
    PushCanonical(frames, name);
    PopCanonical(frames, name.GetOr(DefaultFunctionName));
  }

  /** In a reachable state the top node is missing exactly when the stack is empty; otherwise it is the last frame. */
  lemma TopNodeCanonical(frames: seq<string>)
    ensures TopNode(Canonical(frames)).None? <==> |frames| == 0
    ensures |frames| > 0 ==> TopNode(Canonical(frames)) == Some(FrameNode(|frames|, frames[|frames| - 1], Position(0, 0), true))
  {
    var s := Canonical(frames);
    var n := |frames|;
    if n > 0 {
      FindFirst(s.nodes, Node(n), n);
    }
  }

  /** In a reachable state the bottom node is the base node. */
  lemma BottomNodeCanonical(frames: seq<string>)
    ensures BottomNode(Canonical(frames)) == Some(InitialBaseNode)
  {
    FindFirst(Canonical(frames).nodes, Base, 0);
  }

  /** The store itself: its fields are updated in place by the actions. */
  class CallStackStore {
    var nodes: seq<StackNode>
    var edges: seq<StackEdge>
    var count: nat
    var nodeBelow: Id
    /** The function names of the frames on the stack, bottom first. */
    ghost var frames: seq<string>

    function State(): Stack
      reads this
    {
      Stack(nodes, edges, count, nodeBelow)
    }

    ghost predicate Valid()
      reads this
    {
      State() == Canonical(frames)
    }

    constructor ()
      ensures Valid() && frames == [] && State() == InitialStack()
    {
      nodes, edges, count, nodeBelow := [InitialBaseNode], [], 0, Base;
      frames := [];
      InitialIsCanonical();
    }

    method Push(name: Option<string>)
      requires Valid()
      modifies this
      ensures Valid() && frames == old(frames) + [name.GetOr(DefaultFunctionName)]
      ensures State() == Pushed(old(State()), name)
    {
      ghost var before := State();
      PushCanonical(frames, name);
      var newCount := count + 1;
      var newNodeId := Node(newCount);
      var basePosition := match FindNode(nodes, Base) case Some(b) => b.position case None => Position(0, 0);
      var newNode := FrameNode(newCount, name.GetOr(DefaultFunctionName), basePosition, true);
      var updatedNodes := if nodeBelow != Base then Retag(nodes, nodeBelow, false) else nodes;
      var newEdge := FrameEdge(newNodeId, nodeBelow);
      nodes, edges, count, nodeBelow := updatedNodes + [newNode], edges + [newEdge], newCount, newNodeId;
      assert State() == Pushed(before, name);
      frames := frames + [name.GetOr(DefaultFunctionName)];
    }

    method Pop()
      requires Valid()
      modifies this
      ensures Valid() && frames == if old(count) == 0 then old(frames) else old(frames)[..|old(frames)| - 1]
      ensures State() == Popped(old(State()))
    {
      if count == 0 {
        return;
      }
      ghost var before := State();
      var newCount := count - 1;
      var nodeToRemove := Node(count);
      var newTopNodeId := if newCount > 0 then Node(newCount) else Base;
      var filteredNodes := WithoutNode(nodes, nodeToRemove);
      var updatedNodes := if newTopNodeId != Base then Retag(filteredNodes, newTopNodeId, true) else filteredNodes;
      var filteredEdges := WithoutTouching(edges, nodeToRemove);
      nodes, edges, count, nodeBelow := updatedNodes, filteredEdges, newCount, newTopNodeId;
      assert State() == Popped(before);
      PopLastCanonical(frames);
      frames := frames[..|frames| - 1];
    }

    method ClearStack()
      modifies this
      ensures Valid() && frames == [] && State() == InitialStack()
    {
      nodes, edges, count, nodeBelow := [InitialBaseNode], [], 0, Base;
      frames := [];
      InitialIsCanonical();
    }

    method InitializeStack()
      modifies this
      ensures Valid() && frames == [] && State() == InitialStack()
    {
      nodes, edges, count, nodeBelow := [InitialBaseNode], [], 0, Base;
      frames := [];
      InitialIsCanonical();
    }
  }
}

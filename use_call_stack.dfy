/**
 * The call-stack hook: wrappers around the call-stack store that report a
 * status (true on success, null when there is nothing to pop), and a summary
 * of the stack.
 */
module UseCallStack {
  import opened Wrappers
  import opened CallStack

  /** What `pop` reports and the stack it leaves: null on an empty stack, otherwise true. */
  function PopReport(s: Stack): (r: (Option<bool>, Stack))
    ensures s.count == 0 <==> r.0.None?
    ensures r.0.Some? ==> r.0.value
    ensures r.1 == Popped(s)
  {
    if s.count == 0 then (None, s) else (Some(true), Popped(s))
  }

  /** The result of `getStackInfo`. */
  datatype StackInfo = StackInfo(size: nat, isEmpty: bool, topNode: Option<StackNode>, bottomNode: Option<StackNode>,
                                 totalElements: nat, topNodeId: Id)

  function GetStackInfo(s: Stack): (r: StackInfo)
    ensures r.size == s.count && r.totalElements == s.count
    ensures r.isEmpty <==> s.count == 0
    ensures r.topNodeId == s.nodeBelow
    ensures r.topNode == TopNode(s) && r.bottomNode == BottomNode(s)
  {
    StackInfo(StackSize(s), IsEmpty(s), TopNode(s), BottomNode(s), s.count, s.nodeBelow)
  }

  /**
   * In every reachable state the summary is consistent: the size is the
   * number of frames, the top id is the last frame (or the base), the top node
   * is missing exactly when the stack is empty, and the bottom node is the base.
   */
  lemma StackInfoCanonical(frames: seq<string>)
    ensures var info := GetStackInfo(Canonical(frames));
            info.size == |frames| &&
            (info.isEmpty <==> frames == []) &&
            info.topNodeId == (if frames == [] then Base else Node(|frames|)) &&
            (info.topNode.None? <==> info.isEmpty) &&
            (info.topNode.Some? ==> info.topNode.value.id == info.topNodeId) &&
            info.bottomNode == Some(InitialBaseNode)
  {
    TopNodeCanonical(frames);
    BottomNodeCanonical(frames);
  }

  /** `push`: pushes and reports true. */
  method Push(store: CallStackStore, functionName: Option<string>) returns (ok: bool)
    requires store.Valid()
    modifies store
    ensures store.Valid() && ok
    ensures store.State() == Pushed(old(store.State()), functionName)
  {
    store.Push(functionName);
    ok := true;
  }

  /** `pop`: null and no change on an empty stack, otherwise pops and reports true. */
  method Pop(store: CallStackStore) returns (result: Option<bool>)
    requires store.Valid()
    modifies store
    ensures store.Valid()
    ensures (result, store.State()) == PopReport(old(store.State()))
  {
    if IsEmpty(store.State()) {
      return None;
    }
    store.Pop();
    result := Some(true);
  }

  /** `clear`: empties the stack and reports true. */
  method Clear(store: CallStackStore) returns (ok: bool)
    modifies store
    ensures store.Valid() && ok
    ensures store.State() == InitialStack()
  {
    store.ClearStack();
    ok := true;
  }
}

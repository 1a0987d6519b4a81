# js-visualizer core in Dafny

js-visualizer is a browser tool that shows how a JavaScript program's call
stack grows and shrinks. It parses the program to an ESTree AST and
synthesizes a call-stack operation log (`push name` / `pop name`) from the
AST without running the code. It then replays the log against a call-stack
store, and the visualiser draws that store as a graph of nodes and edges.
An execution queue of commands can drive the same store step by step.

This project models that core as Dafny modules, one per source file:

- `Synthesizer` and `AstStore` (`ASTStore.tsx`).
  - The two phases of `buildCallStackOperationLog`: the function table and the depth-first walk.
  - Each phase appears both as functions (`BuildTable`, `Walk`, `Synthesize`) and as methods with loops and an accumulator, the way the source runs them (`CollectFunctions`, `Simulate`, `BuildLog`).
  - The store that keeps the parsed AST and the log.
- `CallStack` (`CallStackStore.tsx`).
  - The stack as a value: the count, the top id, and the node and edge lists, with ids `Base | Node(n)`.
  - One function per action.
  - A reachable-state description `Canonical(frames)`.
  - A class with the store's fields.
- `ExecutionQueue` (`VisualiserExecutionQueue.tsx`).
  - The queue state machine as functions.
  - The drain loop of `start` as a recursive function over the commands.
  - A class whose `Start` runs the source's loop against a `CallStackStore`.
  - The command factories.
- `Visualiser` (`VisualiserStore.tsx`): the graph store.
- `GlobalExecutionContext` (`GlobalExecutionContextStore.tsx`): the three structure nodes and two edges, added to and removed from the graph store.
- `UseCallStack` (`useCallStack.ts`): the wrappers that return status values, and the stack summary.
- `Controller` (`CodeEditorController.tsx`): the replay loop, the play/pause toggle and the step handlers.
- `CodeEditor` (`CodeEditorStore.tsx`): the editor store and the default program's trace.
- `Wrappers` and `Text`: a small `Option` type and decimal rendering of numbers.

**Shape of the model.** Each store has three parts:

- a state datatype;
- one function per action, which is the specification;
- a class with the store's own fields, whose methods ensure `State() == F(old(State()))`.

The properties are proved about the functions. The headline results are:

- the synthesized log is always well nested (`SynthesizeWellNested`);
- replaying any synthesized log from any reachable stack never pops an empty stack, and it returns the stack to where it was (`ReplaySynthesized`, `PlayRestoresStack`);
- push then pop is the identity on every reachable stack (`PushPopRoundTrip`);
- the class `Start` follows the source's loop exactly (`ExecutionQueue.ExecutionQueueStore.Start`);
- the drain lemmas describe what that loop does.

**Inputs the model takes as parameters.** Some things the source gets from outside become parameters:

- the parser, `string -> Option<Program>`, with `None` for a syntax error;
- the "fuel" that bounds how deeply callee bodies are entered;
- the ids and timestamps that the source draws from `Date.now()` and `Math.random()`;
- the `pause`/`stop` calls that arrive while a drain is under way. These are a sequence of `Signal`s, one observed at each command boundary.

## Model

| member | source | states |
|---|---|---|
| Synthesizer.CalleeName | js-visualizer/src/Store/ASTStore.tsx:53-65 | an identifier callee gives its name; a member callee gives `obj.prop` when both parts are named and `prop` when only the property is; anything else gives `anonymous` |
| Synthesizer.BuildTable | js-visualizer/src/Store/ASTStore.tsx:38-45 | every entry of the function table maps a name to a top-level function declaration of exactly that name |
| Synthesizer.BuildTableKeys | js-visualizer/src/Store/ASTStore.tsx:38-45 | a name is in the table if and only if some top-level statement declares a named function of that name |
| Synthesizer.BuildTableLastWins | js-visualizer/src/Store/ASTStore.tsx:38-45 | the table holds the last declaration of a name: a later declaration with the same name overwrites an earlier one |
| Synthesizer.CollectFunctions | js-visualizer/src/Store/ASTStore.tsx:38-45 | the loop over the top-level statements fills the table with exactly the value of `BuildTable` |
| Synthesizer.Walk | js-visualizer/src/Store/ASTStore.tsx:48-137 | specification of `simulateExecution` for one node (a function without a contract of its own): a call gives push of the callee name, the resolved body when fuel remains, the arguments and the pop; a block or expression statement its children; a declaration its initialisers; a function declaration nothing; any other node its node-valued children in field order. `Simulate` is proved to compute it, and `WalkNested` and `CallFrame` prove it well nested and framed |
| Synthesizer.WalkAll | js-visualizer/src/Store/ASTStore.tsx:84-92 | specification of walking a statement or child list: the elements' events concatenated in list order; `SimulateAll` computes it and `WalkAllNested` proves it well nested |
| Synthesizer.WalkInits | js-visualizer/src/Store/ASTStore.tsx:106-111 | specification of a variable declaration: its declarators' initialiser events in order; `SimulateInits` computes it and `WalkInitsNested` proves it well nested |
| Synthesizer.WalkInit | js-visualizer/src/Store/ASTStore.tsx:108-110 | specification of one declarator: its initialiser's events, or none; `SimulateInit` computes it and `WalkInitNested` proves it well nested |
| Synthesizer.TopLevel | js-visualizer/src/Store/ASTStore.tsx:140-144 | specification of the top-level loop: every statement that is not a function declaration walked in order; `DeclarationsAloneFrom` and `AppendStatement` state how declarations and a trailing statement contribute, and `TopLevelNested` proves it well nested |
| Synthesizer.Synthesize | js-visualizer/src/Store/ASTStore.tsx:34-147 | specification of `buildCallStackOperationLog`: the table, then the top-level loop; `BuildLog` is proved to compute it and `SynthesizeWellNested` proves the result well nested |
| Synthesizer.Simulate | js-visualizer/src/Store/ASTStore.tsx:48-137 | `simulateExecution` appends to the shared log exactly the events the walk specifies for the node, and leaves the earlier log untouched |
| Synthesizer.SimulateCall | js-visualizer/src/Store/ASTStore.tsx:52-82 | the call case appends push of the callee name, the resolved body's events (only when the callee is an identifier found in the table and fuel remains), the arguments' events, then the pop |
| Synthesizer.SimulateIf | js-visualizer/src/Store/ASTStore.tsx:99-104 | an `if` appends the events of the test, then the consequent, then the alternate when present |
| Synthesizer.SimulateMember | js-visualizer/src/Store/ASTStore.tsx:118-135 | a member expression falls to the generic case and appends the events of its object, then its property |
| Synthesizer.SimulateDeclarator | js-visualizer/src/Store/ASTStore.tsx:118-135 | a declarator met outside a declaration falls to the generic case: its target's events, then its initialiser's |
| Synthesizer.SimulateInits | js-visualizer/src/Store/ASTStore.tsx:106-111 | a variable declaration appends the events of its declarators' initialisers, in order |
| Synthesizer.SimulateInit | js-visualizer/src/Store/ASTStore.tsx:108-110 | one declarator contributes the events of its initialiser, or nothing when it has none |
| Synthesizer.SimulateAll | js-visualizer/src/Store/ASTStore.tsx:84-87 | walking a statement or child list appends each element's events in list order |
| Synthesizer.BuildLog | js-visualizer/src/Store/ASTStore.tsx:34-147 | the two phases as run (table, then the loop over the top-level statements that skips declarations) compute exactly `Synthesize` |
| Synthesizer.MatchAppend | js-visualizer/src/Store/ASTStore.tsx:67-80 | stack matching of push/pop events composes over concatenation |
| Synthesizer.Match | js-visualizer/src/Store/ASTStore.tsx:67-80 | reference definition of the push/pop discipline the call case produces: a push opens its name, and a pop must close the most recently opened frame with the identical name; `MatchAppend`, `MatchBalancedPair` and `MatchFailsOnward` state how it composes |
| Synthesizer.WellNested | js-visualizer/src/Store/ASTStore.tsx:34-147 | a log is well nested when matching it from no open frames succeeds and leaves none open; `SynthesizeWellNested` proves every synthesized log is |
| Synthesizer.MatchBalancedPair | js-visualizer/src/Store/ASTStore.tsx:67-80 | two balanced event sequences concatenate to a balanced one |
| Synthesizer.WalkNested | js-visualizer/src/Store/ASTStore.tsx:48-137 | the events of any node, from any open frames, close every push they open and pop nothing they did not push |
| Synthesizer.WalkAllNested | js-visualizer/src/Store/ASTStore.tsx:84-92 | the same for a node list |
| Synthesizer.WalkInitsNested | js-visualizer/src/Store/ASTStore.tsx:106-111 | the same for the initialisers of a declaration |
| Synthesizer.WalkInitNested | js-visualizer/src/Store/ASTStore.tsx:108-110 | the same for one declarator |
| Synthesizer.TopLevelNested | js-visualizer/src/Store/ASTStore.tsx:140-144 | the same for the top-level loop |
| Synthesizer.SynthesizeWellNested | js-visualizer/src/Store/ASTStore.tsx:34-147 | the whole operation log of any program is well nested: every pop closes the most recent open push of the same name, and nothing is left open |
| Synthesizer.CallFrame | js-visualizer/src/Store/ASTStore.tsx:67-80 | a call's events start with push of the callee name and end with the pop of that identical name, and what lies between is well nested |
| Synthesizer.UnresolvedCallSkipsBodies | js-visualizer/src/Store/ASTStore.tsx:69-75 | when the callee is not a plain identifier in the table (for example `x.a()`), no declared body is entered: only push, the arguments' events and pop |
| Synthesizer.AppendStatement | js-visualizer/src/Store/ASTStore.tsx:140-144 | a trailing non-declaration statement leaves the table unchanged and appends its own events after those of the earlier statements, so statements are walked in source order |
| Synthesizer.DeclarationsAlone | js-visualizer/src/Store/ASTStore.tsx:140-144 | a program made only of function declarations yields the empty log |
| Synthesizer.DeclarationsAloneFrom | js-visualizer/src/Store/ASTStore.tsx:113-116 | function declarations met by the top-level loop emit nothing |
| AstStore.Generated | js-visualizer/src/Store/ASTStore.tsx:162-180 | a parse failure returns the empty log and leaves the stored AST and log unchanged; a parse stores the AST and its synthesized log and returns that log; the returned log is always well nested |
| AstStore.AstStoreState.GenerateAndStoreAst | js-visualizer/src/Store/ASTStore.tsx:162-180 | the store's fields and the returned log are those `Generated` specifies for the parser's outcome on the code |
| AstStore.AstStoreState.ClearAst | js-visualizer/src/Store/ASTStore.tsx:188 | AST and log are reset to their initial empty values |
| AstStore.AstStoreState.constructor | js-visualizer/src/Store/ASTStore.tsx:158-160 | the store starts with no AST and an empty log |
| CallStack.FindNode | js-visualizer/src/Store/CallStackStore.tsx:189-198 | `find` returns a node with the id that is in the list, and returns null exactly when no node has that id |
| CallStack.Retag | js-visualizer/src/Store/CallStackStore.tsx:96-108 | the `map` over the nodes changes only the node with the given id, whose flags are set, and keeps every other node and the order |
| CallStack.WithoutNodeMembers | js-visualizer/src/Store/CallStackStore.tsx:140 | the node filter keeps exactly the nodes whose id differs |
| CallStack.WithoutTouchingMembers | js-visualizer/src/Store/CallStackStore.tsx:158-160 | the edge filter keeps exactly the edges with neither end at the id |
| CallStack.RetagMembers | js-visualizer/src/Store/CallStackStore.tsx:96-108 | the re-flagging `map` keeps every node with another id, contains the re-flagged version of every node with the id, and contains nothing else |
| CallStack.WithoutNodeAppend | js-visualizer/src/Store/CallStackStore.tsx:140 | the node filter distributes over concatenation, so the kept nodes stay in order |
| CallStack.WithoutNodeAbsent | js-visualizer/src/Store/CallStackStore.tsx:140 | when no node has the id, the node filter returns the list unchanged |
| CallStack.WithoutTouchingAppend | js-visualizer/src/Store/CallStackStore.tsx:158-160 | the edge filter distributes over concatenation, so the kept edges stay in order |
| CallStack.WithoutTouchingAbsent | js-visualizer/src/Store/CallStackStore.tsx:158-160 | when no edge touches the id, the edge filter returns the list unchanged |
| CallStack.FindFirst | js-visualizer/src/Store/CallStackStore.tsx:189-198 | `find` returns the first node with the id, whatever follows it |
| CallStack.Pushed | js-visualizer/src/Store/CallStackStore.tsx:67-125 | push increments the count, appends `node-(n+1)` labelled with the name, a space and n+1 (default name `Function`) and marked top, marks the previous top (unless base) not-top and bottom without changing any other node, appends exactly one edge from the new node to the old top, and makes the new node the top |
| CallStack.Popped | js-visualizer/src/Store/CallStackStore.tsx:127-168 | pop on an empty stack changes nothing; otherwise it decrements the count, removes `node-n` and every edge touching it, and makes `node-(n-1)` (or base) the top; every other node is kept, the new top frame appears only re-flagged as top and not bottom (its old unflagged version does not survive), and no other node appears; the order and multiplicity of the nodes are pinned on reachable stacks by `PopCanonical` |
| CallStack.TopNode | js-visualizer/src/Store/CallStackStore.tsx:189-193 | null on an empty stack; otherwise the found node is in the stack and has id `node-count` |
| CallStack.BottomNode | js-visualizer/src/Store/CallStackStore.tsx:195-198 | a found bottom node is the stack's base node |
| CallStack.InitialStack | js-visualizer/src/Store/CallStackStore.tsx:47-64 | the initial state (a function without a contract of its own): only the base node, no edges, count 0 and top `base`; `InitialIsCanonical` proves it is the reachable state with no frames |
| CallStack.IsEmpty | js-visualizer/src/Store/CallStackStore.tsx:200-203 | `isEmpty` is `count === 0` (no contract of its own); `UseCallStack.GetStackInfo` and `UseCallStack.StackInfoCanonical` state it holds exactly when no frame is on a reachable stack |
| CallStack.StackSize | js-visualizer/src/Store/CallStackStore.tsx:205-208 | `getStackSize` is the count (no contract of its own); `UseCallStack.StackInfoCanonical` states it is the number of frames on every reachable stack |
| CallStack.Canonical | js-visualizer/src/Store/CallStackStore.tsx:47-125 | the reachable state for the frames `fs` (no contract of its own): the base node, frame nodes 1..n with only the last flagged top, the chain of edges, count n and top `node-n` or `base`; `InitialIsCanonical`, `PushCanonical` and `PopCanonical` prove every action keeps the stack of this form |
| CallStack.InitialIsCanonical | js-visualizer/src/Store/CallStackStore.tsx:47-64 | the initial stack (only the base node, no edges, count 0, top base) is the reachable state with no frames |
| CallStack.PushCanonical | js-visualizer/src/Store/CallStackStore.tsx:67-125 | push keeps the representation invariant: from the state for frames `fs` it gives the state for `fs + [name]` (nodes base, node-1..node-n; edges a chain) |
| CallStack.PopCanonical | js-visualizer/src/Store/CallStackStore.tsx:127-168 | pop keeps the representation invariant: from the state for `fs + [top]` it gives the state for `fs` |
| CallStack.PopLastCanonical | js-visualizer/src/Store/CallStackStore.tsx:127-168 | pop maps the reachable state for a non-empty frame list to the state for that list without its last frame |
| CallStack.FrameNodes | js-visualizer/src/Store/CallStackStore.tsx:67-125 | one node per frame, in frame order |
| CallStack.FrameEdges | js-visualizer/src/Store/CallStackStore.tsx:110-118 | one edge per frame, from frame k to the node below it |
| CallStack.PlainNodes | js-visualizer/src/Store/CallStackStore.tsx:96-108 | one node per frame, all flagged as not top |
| CallStack.DemoteTop | js-visualizer/src/Store/CallStackStore.tsx:96-108 | on a reachable stack, push's re-flagging turns the top frame into a plain frame and touches no other node |
| CallStack.PromoteTop | js-visualizer/src/Store/CallStackStore.tsx:143-155 | on a reachable stack with its top removed, pop's re-flagging turns the new top frame back into a top frame |
| CallStack.ExtendNodes | js-visualizer/src/Store/CallStackStore.tsx:67-125 | the nodes for `fs + [top]` are the plain nodes for `fs` followed by the new top frame |
| CallStack.ExtendEdges | js-visualizer/src/Store/CallStackStore.tsx:110-118 | the edges for n + 1 frames are those for n followed by the edge from frame n + 1 to frame n (or the base) |
| CallStack.PushPopRoundTrip | js-visualizer/src/Store/CallStackStore.tsx:96-167 | from every reachable state, push then pop restores nodes, edges, count and top exactly |
| CallStack.TopNodeCanonical | js-visualizer/src/Store/CallStackStore.tsx:189-193 | in a reachable state the top node is null if and only if there are no frames; otherwise it is the last frame's node, marked top |
| CallStack.BottomNodeCanonical | js-visualizer/src/Store/CallStackStore.tsx:195-198 | in every reachable state the bottom node is the initial base node |
| CallStack.CallStackStore.constructor | js-visualizer/src/Store/CallStackStore.tsx:59-64 | the store starts in the initial stack with no frames |
| CallStack.CallStackStore.Push | js-visualizer/src/Store/CallStackStore.tsx:67-125 | the fields become `Pushed` of the old state, and the store stays reachable with one more frame |
| CallStack.CallStackStore.Pop | js-visualizer/src/Store/CallStackStore.tsx:127-168 | the fields become `Popped` of the old state, and the store stays reachable with the last frame dropped (none on an empty stack) |
| CallStack.CallStackStore.ClearStack | js-visualizer/src/Store/CallStackStore.tsx:170-177 | the fields become the initial stack |
| CallStack.CallStackStore.InitializeStack | js-visualizer/src/Store/CallStackStore.tsx:179-186 | the fields become the initial stack |
| ExecutionQueue.Perform | js-visualizer/src/Store/VisualiserExecutionQueue.tsx:254-314 | a command's `execute` pushes, pops, clears the call stack or does nothing (delay), and only a failing command fails |
| ExecutionQueue.RunCommandsSnoc | js-visualizer/src/Store/VisualiserExecutionQueue.tsx:128-151 | running a command list then one more command equals running that command on the intermediate stack |
| ExecutionQueue.RunCommands | js-visualizer/src/Store/VisualiserExecutionQueue.tsx:128-151 | reference definition of running a command list: each `execute` in order, stopping at the first that throws; `RunCommandsSnoc`, `RunCommandsHead`, `RunCommandsPrefix` and `RunCommandsSplit` state how it composes |
| ExecutionQueue.MergeMetadata | js-visualizer/src/Store/VisualiserExecutionQueue.tsx:79-82 | the merged metadata keeps source and description and keeps a given timestamp; a missing timestamp becomes `now` |
| ExecutionQueue.WithDefaults | js-visualizer/src/Store/VisualiserExecutionQueue.tsx:77-85 | an empty id is replaced by the fresh id, a given id is kept, type and action are unchanged, and metadata gets its timestamp |
| ExecutionQueue.Enqueued | js-visualizer/src/Store/VisualiserExecutionQueue.tsx:75-88 | enqueue appends the defaulted command at the end and leaves index, state and speed unchanged |
| ExecutionQueue.WithDefaultsAllAt | js-visualizer/src/Store/VisualiserExecutionQueue.tsx:91-98 | the batch's k-th command gets the k-th fresh id and timestamp |
| ExecutionQueue.WithDefaultsAll | js-visualizer/src/Store/VisualiserExecutionQueue.tsx:91-98 | the batch `map` gives one defaulted command per command of the batch |
| ExecutionQueue.BatchEnqueued | js-visualizer/src/Store/VisualiserExecutionQueue.tsx:90-103 | the batch keeps the old commands as a prefix, appends each defaulted command in order, and leaves index, state and speed unchanged |
| ExecutionQueue.BatchIsEnqueueEach | js-visualizer/src/Store/VisualiserExecutionQueue.tsx:75-103 | an empty batch changes nothing, and a batch equals enqueueing its first command and then the rest of the batch |
| ExecutionQueue.Cleared | js-visualizer/src/Store/VisualiserExecutionQueue.tsx:105-109 | clear leaves an empty queue, index 0 and state idle, and keeps the speed |
| ExecutionQueue.ResetState | js-visualizer/src/Store/VisualiserExecutionQueue.tsx:203-211 | reset leaves an empty queue, index 0 and state idle, and keeps the speed |
| ExecutionQueue.ResetIdempotent | js-visualizer/src/Store/VisualiserExecutionQueue.tsx:203-211 | reset twice equals reset once, and reset equals clear |
| ExecutionQueue.WithoutId | js-visualizer/src/Store/VisualiserExecutionQueue.tsx:112 | the filter keeps exactly the commands with another id; `WithoutIdAppend`, `WithoutIdAbsent` and `WithoutIdSingle` pin down the order |
| ExecutionQueue.WithoutIdAppend | js-visualizer/src/Store/VisualiserExecutionQueue.tsx:112 | the filter distributes over concatenation, so the kept commands stay in queue order |
| ExecutionQueue.WithoutIdAbsent | js-visualizer/src/Store/VisualiserExecutionQueue.tsx:112 | when no command has the id, the filter returns the queue unchanged, order and repetitions included |
| ExecutionQueue.WithoutIdSingle | js-visualizer/src/Store/VisualiserExecutionQueue.tsx:112 | a single command is dropped exactly when it has the id |
| ExecutionQueue.Removed | js-visualizer/src/Store/VisualiserExecutionQueue.tsx:111-114 | remove's commands are the `WithoutId` filter of the old ones, so every command with the id is dropped and the rest keep their order; the index becomes min(index, old length - 1); state and speed are unchanged |
| ExecutionQueue.RemoveOnEmptyBreaksWf | js-visualizer/src/Store/VisualiserExecutionQueue.tsx:111-114 | on the initial empty queue, remove sets the index to -1, outside the queue |
| ExecutionQueue.NegativeIndexStalls | js-visualizer/src/Store/VisualiserExecutionQueue.tsx:128-164 | after that, enqueueing a command and starting runs nothing and leaves the queue paused |
| ExecutionQueue.RemovedIntended | js-visualizer/src/Store/VisualiserExecutionQueue.tsx:111-114 | the corrected remove keeps the same filtered commands in the same order, keeps the index inside the new queue, and keeps it unchanged whenever it was already inside |
| ExecutionQueue.PauseState | js-visualizer/src/Store/VisualiserExecutionQueue.tsx:167 | pause sets the state to paused unconditionally and changes nothing else |
| ExecutionQueue.Stopped | js-visualizer/src/Store/VisualiserExecutionQueue.tsx:213-216 | stop sets state idle and index 0 and keeps the commands and speed |
| ExecutionQueue.SetSpeed | js-visualizer/src/Store/VisualiserExecutionQueue.tsx:219 | the stored speed is max(0, speed); nothing else changes |
| ExecutionQueue.Interrupt | js-visualizer/src/Store/VisualiserExecutionQueue.tsx:128-151 | a pause or stop arriving between commands changes only index and state, never the commands or speed |
| ExecutionQueue.EndCheck | js-visualizer/src/Store/VisualiserExecutionQueue.tsx:153-160 | after the loop, an index at or beyond length - 1 ends idle with index = length, whatever made the loop exit; otherwise the state is left as it is |
| ExecutionQueue.Drain | js-visualizer/src/Store/VisualiserExecutionQueue.tsx:128-160 | specification of the loop of `start` as written (no contract of its own): run the commands from the loop index, stop on a pause, a stop or a throw, then the end check; the `Drain…` lemmas state what it does |
| ExecutionQueue.Started | js-visualizer/src/Store/VisualiserExecutionQueue.tsx:117-165 | specification of `start` (no contract of its own): nothing on an empty queue, otherwise running and the drain from the current index; `StartUninterrupted`, `StartedSettles` and `StepsMatchStart` state what it does |
| ExecutionQueue.Resumed | js-visualizer/src/Store/VisualiserExecutionQueue.tsx:169-174 | specification of `resume`: `start` only from paused, otherwise nothing; `ExecutionQueue.ExecutionQueueStore.Resume` follows it and `ActionsPreserveWf` shows it keeps the queue well formed |
| ExecutionQueue.DrainSettles | js-visualizer/src/Store/VisualiserExecutionQueue.tsx:128-160 | whatever interrupts it, the loop as written ends idle or paused, so `isExecuting` is false afterwards |
| ExecutionQueue.StartedSettles | js-visualizer/src/Store/VisualiserExecutionQueue.tsx:117-165 | `start` on a non-empty queue never leaves the queue running or stepping |
| ExecutionQueue.Stepped | js-visualizer/src/Store/VisualiserExecutionQueue.tsx:176-201 | with index at or beyond length nothing changes; otherwise exactly the command at the index runs, and on success the index advances with state idle at the end and paused before it; on failure the state becomes paused with the index unchanged |
| ExecutionQueue.StepTimes | js-visualizer/src/Store/VisualiserExecutionQueue.tsx:176-201 | `step` called m times (no contract of its own); `StepsMatchDrain` and `StepsMatchStart` relate it to the drain |
| ExecutionQueue.QueueLength | js-visualizer/src/Store/VisualiserExecutionQueue.tsx:222 | the queue length is the number of commands |
| ExecutionQueue.CurrentCommand | js-visualizer/src/Store/VisualiserExecutionQueue.tsx:224-227 | the current command is null exactly when the index is out of range, and otherwise the command at the index |
| ExecutionQueue.Progress | js-visualizer/src/Store/VisualiserExecutionQueue.tsx:234-240 | the progress is the pair (index, length) |
| ExecutionQueue.CanStepForward | js-visualizer/src/Store/VisualiserExecutionQueue.tsx:229-232 | `canStepForward` is index < length (no contract of its own); `CanStepMeansCurrent` relates it to the current command |
| ExecutionQueue.IsExecuting | js-visualizer/src/Store/VisualiserExecutionQueue.tsx:242-245 | `isExecuting` is running or stepping (no contract of its own); `StartedSettles` proves it is false once `start` returns |
| ExecutionQueue.CanStepMeansCurrent | js-visualizer/src/Store/VisualiserExecutionQueue.tsx:229-232 | on a well-formed queue, `canStepForward` (index < length) holds exactly when there is a current command, and when it fails a step changes nothing |
| ExecutionQueue.DelayCommand | js-visualizer/src/Store/VisualiserExecutionQueue.tsx:300-314 | the delay factory builds a `DELAY` command whose action waits `ms`, with the given description or a default one |
| ExecutionQueue.PushCommand | js-visualizer/src/Store/VisualiserExecutionQueue.tsx:254-268 | the push factory's command (no contract of its own); `FactoryEffects` states its `execute` pushes the name |
| ExecutionQueue.PopCommand | js-visualizer/src/Store/VisualiserExecutionQueue.tsx:270-283 | the pop factory's command (no contract of its own); `FactoryEffects` states its `execute` pops |
| ExecutionQueue.ClearCommand | js-visualizer/src/Store/VisualiserExecutionQueue.tsx:285-298 | the clear factory's command (no contract of its own); `FactoryEffects` states its `execute` resets the stack |
| ExecutionQueue.FactoryEffects | js-visualizer/src/Store/VisualiserExecutionQueue.tsx:254-314 | the push, pop, clear and delay factories build commands whose `execute` pushes that name, pops, resets or leaves the stack unchanged, and a factory-made id survives enqueueing |
| ExecutionQueue.DrainUninterrupted | js-visualizer/src/Store/VisualiserExecutionQueue.tsx:128-160 | a drain from index k with no interruption and no failure runs commands k..n-1 in order and ends idle with index = n |
| ExecutionQueue.StartUninterrupted | js-visualizer/src/Store/VisualiserExecutionQueue.tsx:117-165 | `start` on a well-formed non-empty queue with no interruption and no failure runs the remaining commands in order and ends idle with index = length |
| ExecutionQueue.DrainFails | js-visualizer/src/Store/VisualiserExecutionQueue.tsx:161-164 | when a command fails, the drain stops there, paused, with the index at that command and the stack as the earlier commands left it |
| ExecutionQueue.StepsMatchDrain | js-visualizer/src/Store/VisualiserExecutionQueue.tsx:176-201 | stepping once per remaining command reaches the same final queue and stack as an uninterrupted run |
| ExecutionQueue.StepsMatchStart | js-visualizer/src/Store/VisualiserExecutionQueue.tsx:117-201 | that final state is exactly what `start` with no interruption gives |
| ExecutionQueue.RunCommandsHead | js-visualizer/src/Store/VisualiserExecutionQueue.tsx:128-151 | a successful run of a list starts with a successful first command and continues with the rest |
| ExecutionQueue.DrainAdvance | js-visualizer/src/Store/VisualiserExecutionQueue.tsx:128-151 | one loop iteration: a failing command ends paused at its index; a successful one records the index, observes the next signal, and continues from the next index |
| ExecutionQueue.DrainIntendedAdvance | js-visualizer/src/Store/VisualiserExecutionQueue.tsx:128-151 | the same iteration for the corrected drain |
| ExecutionQueue.DrainIntended | js-visualizer/src/Store/VisualiserExecutionQueue.tsx:128-160 | the corrected loop: as written, except that a drain broken off by pause or stop is left as it stands; `DrainIntendedUninterrupted` and `DrainIntendedPaused` state what it does |
| ExecutionQueue.StartedIntended | js-visualizer/src/Store/VisualiserExecutionQueue.tsx:117-165 | `start` with the corrected loop; `PauseResumeIntended` states pause then resume completes the run |
| ExecutionQueue.ResumedIntended | js-visualizer/src/Store/VisualiserExecutionQueue.tsx:169-174 | `resume` with the corrected loop; `PauseResumeIntended` states it completes a paused run |
| ExecutionQueue.SignalsShift | js-visualizer/src/Store/VisualiserExecutionQueue.tsx:128-139 | removing an observed `Continue` shifts the position of a later interruption down by one |
| ExecutionQueue.DrainStopped | js-visualizer/src/Store/VisualiserExecutionQueue.tsx:128-160 | a stop observed after command j (well before the end) leaves the queue idle at index 0 with the stack as commands up to j left it |
| ExecutionQueue.PauseBeforeLastSkipsIt | js-visualizer/src/Store/VisualiserExecutionQueue.tsx:153-160 | as written, a pause observed after the first of two commands ends idle with index 2: the second command is never run, and `resume` does not run it either |
| ExecutionQueue.DrainIntendedUninterrupted | js-visualizer/src/Store/VisualiserExecutionQueue.tsx:128-160 | the corrected drain agrees with the source when nothing interrupts it |
| ExecutionQueue.DrainIntendedPaused | js-visualizer/src/Store/VisualiserExecutionQueue.tsx:128-160 | the corrected drain paused after command j stays paused with index j + 1 |
| ExecutionQueue.RunCommandsSplit | js-visualizer/src/Store/VisualiserExecutionQueue.tsx:128-151 | running a list equals running its suffix from the state its prefix left |
| ExecutionQueue.PauseResumeIntended | js-visualizer/src/Store/VisualiserExecutionQueue.tsx:117-174 | with the corrected end check, pausing anywhere before the last command and then resuming gives the same final queue and stack as a run that was never paused |
| ExecutionQueue.RunCommandsPrefix | js-visualizer/src/Store/VisualiserExecutionQueue.tsx:128-151 | if a list runs successfully, so does every prefix |
| ExecutionQueue.DrainWf | js-visualizer/src/Store/VisualiserExecutionQueue.tsx:117-165 | every drain ends with an index inside 0..length and a non-negative speed |
| ExecutionQueue.ActionsPreserveWf | js-visualizer/src/Store/VisualiserExecutionQueue.tsx:75-219 | enqueue, batch, clear, reset, pause, stop, set-speed, corrected remove, step, start and resume all keep the index inside 0..length and the speed non-negative |
| ExecutionQueue.Execute | js-visualizer/src/Store/VisualiserExecutionQueue.tsx:254-314 | `await command.execute()` acting on the call-stack store: it succeeds exactly when `Perform` does, and a failure leaves the store unchanged |
| ExecutionQueue.ExecutionQueueStore.constructor | js-visualizer/src/Store/VisualiserExecutionQueue.tsx:66-72 | the store starts empty, at index 0, idle, with the default speed |
| ExecutionQueue.ExecutionQueueStore.EnqueueCommand | js-visualizer/src/Store/VisualiserExecutionQueue.tsx:75-88 | the fields become `Enqueued` of the old state |
| ExecutionQueue.ExecutionQueueStore.EnqueueBatch | js-visualizer/src/Store/VisualiserExecutionQueue.tsx:90-103 | the fields become `BatchEnqueued` of the old state |
| ExecutionQueue.ExecutionQueueStore.ClearQueue | js-visualizer/src/Store/VisualiserExecutionQueue.tsx:105-109 | the fields become `Cleared` of the old state |
| ExecutionQueue.ExecutionQueueStore.RemoveCommand | js-visualizer/src/Store/VisualiserExecutionQueue.tsx:111-114 | the fields become `Removed` of the old state, as written |
| ExecutionQueue.ExecutionQueueStore.Pause | js-visualizer/src/Store/VisualiserExecutionQueue.tsx:167 | the fields become `PauseState` of the old state |
| ExecutionQueue.ExecutionQueueStore.Stop | js-visualizer/src/Store/VisualiserExecutionQueue.tsx:213-216 | the fields become `Stopped` of the old state |
| ExecutionQueue.ExecutionQueueStore.Reset | js-visualizer/src/Store/VisualiserExecutionQueue.tsx:203-211 | the fields become `ResetState` of the old state |
| ExecutionQueue.ExecutionQueueStore.SetExecutionSpeed | js-visualizer/src/Store/VisualiserExecutionQueue.tsx:219 | the fields become `SetSpeed` of the old state |
| ExecutionQueue.ExecutionQueueStore.RunAt | js-visualizer/src/Store/VisualiserExecutionQueue.tsx:128-151 | one iteration of the loop: the index is recorded and the command at it runs on the call-stack store; a failure leaves the store unchanged and the queue paused at that index; a success updates the stack and observes the interruption signal |
| ExecutionQueue.ExecutionQueueStore.Start | js-visualizer/src/Store/VisualiserExecutionQueue.tsx:117-165 | the loop leaves the queue fields and the call-stack store exactly as the `Started` drain specifies for the interruption signals |
| ExecutionQueue.ExecutionQueueStore.Resume | js-visualizer/src/Store/VisualiserExecutionQueue.tsx:169-174 | resume runs `start` only from paused and otherwise changes nothing, as `Resumed` specifies |
| ExecutionQueue.ExecutionQueueStore.Step | js-visualizer/src/Store/VisualiserExecutionQueue.tsx:176-201 | the queue fields and the call-stack store become what `Stepped` specifies |
| ExecutionQueue.ExecutionQueueStore.GetCurrentCommand | js-visualizer/src/Store/VisualiserExecutionQueue.tsx:224-227 | the getter returns the current command of the store's state |
| Visualiser.NodesWithout | js-visualizer/src/Store/VisualiserStore.tsx:69 | the node filter keeps exactly the nodes with another id |
| Visualiser.EdgesNotTouching | js-visualizer/src/Store/VisualiserStore.tsx:70-72 | the edge filter keeps exactly the edges with neither end at the id |
| Visualiser.EdgesWithout | js-visualizer/src/Store/VisualiserStore.tsx:82 | the edge filter keeps exactly the edges with another id |
| Visualiser.IdsWithout | js-visualizer/src/Store/VisualiserStore.tsx:73 | the selection filter keeps exactly the other ids |
| Visualiser.NodesWithoutAppend | js-visualizer/src/Store/VisualiserStore.tsx:69 | the node filter distributes over concatenation, so the kept nodes stay in order |
| Visualiser.NodesWithoutAbsent | js-visualizer/src/Store/VisualiserStore.tsx:69 | when no node has the id, the node filter returns the list unchanged |
| Visualiser.NodesWithoutCons | js-visualizer/src/Store/VisualiserStore.tsx:69 | the node filter on a list with a first node drops that node exactly when it has the id |
| Visualiser.EdgesNotTouchingAppend | js-visualizer/src/Store/VisualiserStore.tsx:70-72 | the edge filter distributes over concatenation |
| Visualiser.EdgesNotTouchingAbsent | js-visualizer/src/Store/VisualiserStore.tsx:70-72 | when no edge touches the id, the edge filter returns the list unchanged |
| Visualiser.EdgesNotTouchingCons | js-visualizer/src/Store/VisualiserStore.tsx:70-72 | the edge filter on a list with a first edge drops that edge exactly when it touches the id |
| Visualiser.EdgesWithoutAppend | js-visualizer/src/Store/VisualiserStore.tsx:82 | the edge-id filter distributes over concatenation |
| Visualiser.EdgesWithoutAbsent | js-visualizer/src/Store/VisualiserStore.tsx:82 | when no edge has the id, the edge-id filter returns the list unchanged |
| Visualiser.IdsWithoutAppend | js-visualizer/src/Store/VisualiserStore.tsx:73 | the selection filter distributes over concatenation, so the kept ids stay in order |
| Visualiser.IdsWithoutAbsent | js-visualizer/src/Store/VisualiserStore.tsx:73 | when the id is not selected, the selection filter returns the selection unchanged |
| Visualiser.AddedNode | js-visualizer/src/Store/VisualiserStore.tsx:58-60 | addNode appends the node and nothing else changes |
| Visualiser.PatchAll | js-visualizer/src/Store/VisualiserStore.tsx:62-66 | the update map keeps the order and merges the patch into exactly the nodes with the id |
| Visualiser.Patched | js-visualizer/src/Store/VisualiserStore.tsx:62-66 | `{...node, ...updates}` (no contract of its own): a field the update gives replaces the node's, and every other field is kept; `UpdateNoop` proves an empty update changes nothing |
| Visualiser.UpdatedNode | js-visualizer/src/Store/VisualiserStore.tsx:62-66 | updateNode changes only nodes with the matching id, merging in the update, and leaves edges and selections alone |
| Visualiser.RemovedNode | js-visualizer/src/Store/VisualiserStore.tsx:68-74 | removeNode removes the node, every edge touching it and its id from the node selection, and leaves the edge selection untouched |
| Visualiser.AddedEdge | js-visualizer/src/Store/VisualiserStore.tsx:77-79 | addEdge appends the edge and nothing else changes |
| Visualiser.RemovedEdge | js-visualizer/src/Store/VisualiserStore.tsx:81-84 | removeEdge removes the edge and its id from the edge selection and nothing else |
| Visualiser.SelectedNode | js-visualizer/src/Store/VisualiserStore.tsx:87-91 | after selectNode the id is selected; an id already selected changes nothing, and a new one is appended |
| Visualiser.SelectionCleared | js-visualizer/src/Store/VisualiserStore.tsx:93 | both selections become empty and nodes and edges are kept |
| Visualiser.ClearedAll | js-visualizer/src/Store/VisualiserStore.tsx:96-101 | clearAll empties all four lists |
| Visualiser.WithNodesAndEdges | js-visualizer/src/Store/VisualiserStore.tsx:103-108 | setNodesAndEdges replaces nodes and edges and clears both selections |
| Visualiser.Connected | js-visualizer/src/Store/VisualiserStore.tsx:111-125 | onConnect appends one `default`-type edge between source and target when both are present, and otherwise changes nothing |
| Visualiser.ConnectionId | js-visualizer/src/Store/VisualiserStore.tsx:114 | the id of a user-drawn edge (no contract of its own); `ConnectionIdInjective` proves two edges between the same handles at different times get different ids |
| Visualiser.ConnectionIdInjective | js-visualizer/src/Store/VisualiserStore.tsx:114 | equal connection ids between the same handles mean equal timestamps |
| Visualiser.SelectNodeNoDuplicates | js-visualizer/src/Store/VisualiserStore.tsx:87-91 | selectNode never creates a duplicate in the selection, and selecting twice equals selecting once |
| Visualiser.AddRemoveNode | js-visualizer/src/Store/VisualiserStore.tsx:58-74 | adding a fresh node and then removing it restores the store |
| Visualiser.RemoveFromAppended | js-visualizer/src/Store/VisualiserStore.tsx:68-74 | removing an id that the old store does not hold removes it only from the appended nodes and edges |
| Visualiser.AddRemoveEdge | js-visualizer/src/Store/VisualiserStore.tsx:77-84 | adding an edge with a fresh id and then removing it restores the store |
| Visualiser.UpdateNoop | js-visualizer/src/Store/VisualiserStore.tsx:62-66 | an empty update, or one for an absent id, changes nothing |
| Visualiser.ConnectAddsOneEdge | js-visualizer/src/Store/VisualiserStore.tsx:111-125 | onConnect adds exactly one edge if and only if both ends are present, and none otherwise |
| Visualiser.VisualiserStore.constructor | js-visualizer/src/Store/VisualiserStore.tsx:50-55 | the store starts with four empty lists |
| Visualiser.VisualiserStore.AddNode | js-visualizer/src/Store/VisualiserStore.tsx:58-60 | the fields become `AddedNode` of the old state |
| Visualiser.VisualiserStore.UpdateNode | js-visualizer/src/Store/VisualiserStore.tsx:62-66 | the fields become `UpdatedNode` of the old state |
| Visualiser.VisualiserStore.RemoveNode | js-visualizer/src/Store/VisualiserStore.tsx:68-74 | the fields become `RemovedNode` of the old state |
| Visualiser.VisualiserStore.AddEdge | js-visualizer/src/Store/VisualiserStore.tsx:77-79 | the fields become `AddedEdge` of the old state |
| Visualiser.VisualiserStore.RemoveEdge | js-visualizer/src/Store/VisualiserStore.tsx:81-84 | the fields become `RemovedEdge` of the old state |
| Visualiser.VisualiserStore.SelectNode | js-visualizer/src/Store/VisualiserStore.tsx:87-91 | the fields become `SelectedNode` of the old state |
| Visualiser.VisualiserStore.ClearSelection | js-visualizer/src/Store/VisualiserStore.tsx:93 | the fields become `SelectionCleared` of the old state |
| Visualiser.VisualiserStore.ClearAll | js-visualizer/src/Store/VisualiserStore.tsx:96-101 | the fields become `ClearedAll` of the old state |
| Visualiser.VisualiserStore.SetNodesAndEdges | js-visualizer/src/Store/VisualiserStore.tsx:103-108 | the fields become `WithNodesAndEdges` of the old state |
| Visualiser.VisualiserStore.OnConnect | js-visualizer/src/Store/VisualiserStore.tsx:111-125 | the fields become `Connected` of the old state |
| GlobalExecutionContext.AddedGec | js-visualizer/src/Store/GlobalExecutionContextStore.tsx:120-134 | the structure appends gec-base, gec-memory and gec-code-phase in that order, then the two edges from gec-base, and leaves the selections alone |
| GlobalExecutionContext.GecIdsDistinct | js-visualizer/src/Store/GlobalExecutionContextStore.tsx:42-93 | the three structure ids are pairwise different |
| GlobalExecutionContext.RemovedGec | js-visualizer/src/Store/GlobalExecutionContextStore.tsx:136-145 | afterwards the nodes are exactly the old nodes without a structure id, the edges exactly the old edges touching none, and the structure ids leave the node selection |
| GlobalExecutionContext.AddRemoveGec | js-visualizer/src/Store/GlobalExecutionContextStore.tsx:120-145 | on a store holding none of the structure's ids, adding and then removing the structure restores nodes, edges and selections exactly |
| GlobalExecutionContext.FilterFirstOfThree | js-visualizer/src/Store/GlobalExecutionContextStore.tsx:136-145 | removing the id of the first of three nodes whose other ids differ leaves the other two |
| GlobalExecutionContext.FilterFirstOfTwo | js-visualizer/src/Store/GlobalExecutionContextStore.tsx:136-145 | the same for the first of two nodes |
| GlobalExecutionContext.FilterOnly | js-visualizer/src/Store/GlobalExecutionContextStore.tsx:136-145 | removing the id of a single node leaves nothing |
| GlobalExecutionContext.DropBothEdges | js-visualizer/src/Store/GlobalExecutionContextStore.tsx:136-145 | removing gec-base drops both structure edges, which leave from it |
| GlobalExecutionContext.RemoveBaseAfterAdd | js-visualizer/src/Store/GlobalExecutionContextStore.tsx:136-145 | on a store free of the structure, removing gec-base after the add leaves the old store plus the memory and code-phase nodes |
| GlobalExecutionContext.RemoveMemoryAfterAdd | js-visualizer/src/Store/GlobalExecutionContextStore.tsx:136-145 | removing gec-memory next leaves the old store plus the code-phase node |
| GlobalExecutionContext.RemoveCodePhaseAfterAdd | js-visualizer/src/Store/GlobalExecutionContextStore.tsx:136-145 | removing gec-code-phase last restores the old store |
| GlobalExecutionContext.GetNodeAsWritten | js-visualizer/src/Store/GlobalExecutionContextStore.tsx:148-161 | as written every getter throws, whatever the store holds |
| GlobalExecutionContext.FindNode | js-visualizer/src/Store/GlobalExecutionContextStore.tsx:148-161 | the intended lookup returns a node with the id from the store, and null exactly when there is none |
| GlobalExecutionContext.FindAfter | js-visualizer/src/Store/GlobalExecutionContextStore.tsx:148-161 | the lookup skips a prefix holding no node with the id |
| GlobalExecutionContext.FindInThree | js-visualizer/src/Store/GlobalExecutionContextStore.tsx:148-161 | among three nodes with distinct ids, the lookup finds each by its id |
| GlobalExecutionContext.GetGecNode | js-visualizer/src/Store/GlobalExecutionContextStore.tsx:148-151 | the intended `getGECNode` (no contract of its own); `GettersAfterAdd` and `GettersAfterRemove` state what it finds |
| GlobalExecutionContext.GetMemoryNode | js-visualizer/src/Store/GlobalExecutionContextStore.tsx:153-156 | the intended `getMemoryNode` (no contract of its own); `GettersAfterAdd` and `GettersAfterRemove` state what it finds |
| GlobalExecutionContext.GetCodePhaseNode | js-visualizer/src/Store/GlobalExecutionContextStore.tsx:158-161 | the intended `getCodePhaseNode` (no contract of its own); `GettersAfterAdd` and `GettersAfterRemove` state what it finds |
| GlobalExecutionContext.GettersAfterAdd | js-visualizer/src/Store/GlobalExecutionContextStore.tsx:42-161 | after the structure is added to a store free of it, the intended getters find the three structure nodes, while the getters as written throw |
| GlobalExecutionContext.GettersAfterRemove | js-visualizer/src/Store/GlobalExecutionContextStore.tsx:136-161 | after the structure is removed, the intended getters find nothing |
| GlobalExecutionContext.AddGecStructure | js-visualizer/src/Store/GlobalExecutionContextStore.tsx:120-134 | the three `addNode` calls and the loop of `addEdge` calls leave the graph store at `AddedGec` of its old state |
| GlobalExecutionContext.RemoveGecStructure | js-visualizer/src/Store/GlobalExecutionContextStore.tsx:136-145 | the three `removeNode` calls leave the graph store at `RemovedGec` of its old state |
| UseCallStack.PopReport | js-visualizer/src/hooks/useCallStack.ts:40-53 | the pop wrapper reports null exactly on an empty stack, which it leaves unchanged; otherwise it pops and reports true |
| UseCallStack.GetStackInfo | js-visualizer/src/hooks/useCallStack.ts:73-80 | size and total equal the count, isEmpty holds exactly when the count is 0, topNodeId is the top id, and the nodes are the store's getters |
| UseCallStack.StackInfoCanonical | js-visualizer/src/hooks/useCallStack.ts:73-80 | in every reachable state the summary is consistent: size is the number of frames, the top id is the last frame or base, the top node is missing exactly when empty, and the bottom node is the base |
| UseCallStack.Push | js-visualizer/src/hooks/useCallStack.ts:28-37 | the wrapper pushes onto the store and returns true |
| UseCallStack.Pop | js-visualizer/src/hooks/useCallStack.ts:40-53 | the wrapper's result and the store's new state are those `PopReport` gives |
| UseCallStack.Clear | js-visualizer/src/hooks/useCallStack.ts:56-65 | the wrapper resets the stack and returns true |
| Controller.MatchFailsOnward | js-visualizer/src/components/CodeEditorController.tsx:57-66 | a prefix that pops what it did not push spoils every extension |
| Controller.Apply | js-visualizer/src/components/CodeEditorController.tsx:60-66 | one replayed operation (no contract of its own): a push of its function name, or a pop; `PushStep`, `PopStep` and `StepCanonical` state what it does to a reachable stack |
| Controller.Replay | js-visualizer/src/components/CodeEditorController.tsx:57-66 | the replay loop as a function, one operation after the other in log order (no contract of its own); `StartCallStackSequence` is proved to compute it, and `ReplayMatched` and `ReplaySynthesized` state where it ends |
| Controller.PopsEmpty | js-visualizer/src/components/CodeEditorController.tsx:57-66 | whether some replayed pop meets an empty stack (no contract of its own); `ReplayMatched`, `ReplaySynthesized` and `PlayRestoresStack` prove it never happens for a synthesized log |
| Controller.ReplayMatched | js-visualizer/src/components/CodeEditorController.tsx:57-66 | replaying a log that matches pushes to pops from open frames never pops an empty stack, and ends in the reachable state with the frames the match leaves open |
| Controller.StepCanonical | js-visualizer/src/components/CodeEditorController.tsx:60-66 | one matched operation applied to a reachable stack gives the reachable stack with the frames the match leaves open, and a pop is never applied to an empty stack |
| Controller.PushStep | js-visualizer/src/components/CodeEditorController.tsx:60-62 | a replayed push adds one frame to a reachable stack |
| Controller.PopStep | js-visualizer/src/components/CodeEditorController.tsx:63-65 | a replayed pop on a reachable stack with frames removes the last frame |
| Controller.ReplaySynthesized | js-visualizer/src/components/CodeEditorController.tsx:57-66 | replaying the synthesized log of any program from any reachable stack never pops an empty stack and returns the stack, and so its count, to where it started |
| Controller.StartCallStackSequence | js-visualizer/src/components/CodeEditorController.tsx:54-73 | the loop applies the log's operations to the store in log order (push with the function name, pop) and leaves it at the replay of the log |
| Controller.HandlePlayPause | js-visualizer/src/components/CodeEditorController.tsx:23-51 | in run mode only the mode changes, to pause, and nothing is synthesized; otherwise the mode becomes run, the AST store gets the synthesized result of the current code, and the stack is left at the replay of the returned log |
| Controller.PlayRestoresStack | js-visualizer/src/components/CodeEditorController.tsx:29-46 | whatever the parser makes of the code, play from a reachable stack never pops an empty stack and leaves the stack as it was |
| Controller.HandleStepBack | js-visualizer/src/components/CodeEditorController.tsx:75-79 | only the mode changes, to step |
| Controller.HandleStepForward | js-visualizer/src/components/CodeEditorController.tsx:81-85 | only the mode changes, to step |
| CodeEditor.WithCode | js-visualizer/src/Store/CodeEditorStore.tsx:44-46 | setCode and clearCode replace only the code |
| CodeEditor.WithMode | js-visualizer/src/Store/CodeEditorStore.tsx:47 | changeMode sets only the mode |
| CodeEditor.WithWindow | js-visualizer/src/Store/CodeEditorStore.tsx:48 | changeWindowMode sets only the window |
| CodeEditor.CodeEditorStore.constructor | js-visualizer/src/Store/CodeEditorStore.tsx:37-41 | the store starts with the default program, mode `default` and the code editor window |
| CodeEditor.CodeEditorStore.SetCode | js-visualizer/src/Store/CodeEditorStore.tsx:44 | the fields become `WithCode` of the old state and the new code |
| CodeEditor.CodeEditorStore.ClearCode | js-visualizer/src/Store/CodeEditorStore.tsx:46 | the fields become `WithCode` of the old state and the empty code |
| CodeEditor.CodeEditorStore.ChangeMode | js-visualizer/src/Store/CodeEditorStore.tsx:47 | the fields become `WithMode` of the old state |
| CodeEditor.CodeEditorStore.ChangeWindowMode | js-visualizer/src/Store/CodeEditorStore.tsx:48 | the fields become `WithWindow` of the old state |
| CodeEditor.DefaultProgramTable | js-visualizer/src/Store/CodeEditorStore.tsx:11-20 | the function table of the default program holds `a`, `b` and `c` |
| CodeEditor.WalkCall | js-visualizer/src/Store/ASTStore.tsx:67-80 | calling a declared one-statement function gives push, that statement's events, pop |
| CodeEditor.WalkLogCall | js-visualizer/src/Store/ASTStore.tsx:53-80 | `console.log("hi")` gives push and pop of `console.log` and enters no body |
| CodeEditor.WalkA | js-visualizer/src/Store/CodeEditorStore.tsx:11-20 | with fuel for three nested bodies, the call `a()` gives push a, b, c and console.log, then the pops in reverse |
| CodeEditor.DefaultProgramTrace | js-visualizer/src/Store/CodeEditorStore.tsx:11-20 | synthesizing the default program, with enough fuel, gives push a, b, c and console.log, then the pops in reverse |
| Text.NatToString | js-visualizer/src/Store/CallStackStore.tsx:70 | the decimal rendering of a count used in node ids and labels is a non-empty string of digits with no leading zero; `NatToStringValue` proves it denotes the count |
| Text.IntToString | js-visualizer/src/Store/VisualiserStore.tsx:114 | the rendering of a timestamp is non-empty and starts with `-` exactly for a negative number; `IntToStringValue` proves it denotes the number |
| Text.DigitChar | js-visualizer/src/Store/CallStackStore.tsx:70 | a digit below ten renders as the character whose digit value it is |
| Text.NatToStringValue | js-visualizer/src/Store/CallStackStore.tsx:70 | the decimal rendering of n denotes n |
| Text.NatToStringInjective | js-visualizer/src/Store/CallStackStore.tsx:70 | distinct counts render as distinct strings, so the frame ids `node-<n>` never collide |
| Text.IntToStringValue | js-visualizer/src/Store/VisualiserStore.tsx:114 | the rendering of an integer, sign included, denotes it |
| Text.IntToStringInjective | js-visualizer/src/Store/VisualiserStore.tsx:114 | distinct integers render as distinct strings |

## Left out

- The Acorn parser (`ASTStore.tsx:17-21`) is a foreign library. `ParseCodeToAST` is a parameter that returns `Option<Program>`, and a syntax error is `None`.
- The unbounded recursion into callee bodies. On a recursive or mutually recursive program the source's walk recurses until the JavaScript engine throws a `RangeError`. The error leaves `buildCallStackOperationLog` and `GenerateAndStoreAst` before the store is set (`ASTStore.tsx:162-166`), so the AST store keeps its old value, and `handlePlayPause` catches and logs it (`CodeEditorController.tsx:33-49`) with nothing replayed. The model passes a `fuel` bound instead: each body entry uses one unit, and at fuel 0 the call still emits its push/pop pair but skips the body. So on such a program the model stores the AST and a truncated log and replays that log, where the source stores nothing and replays nothing.
- AST fields that hold no node (names aside, `computed`/`async` flags, literal values, source spans) are not represented. The generic fallback walks the node-valued fields in field order. A `PrivateIdentifier` name is treated like any other non-identifier part of a member callee.
- `logAst` and every `console.log`/`console.warn`/`console.error` call are output only. So are the zustand `devtools` middleware and the store names.
- Timers do not advance time: `setTimeout`, the delay between replayed operations, `executionSpeed` as a real wait, and the delay command's wait. The model stores the speed and treats a delay as a no-op.
- Asynchronous interleaving. External `pause`/`stop` during a drain is a sequence of signals, one observed after each successful command. Other calls arriving mid-drain (`reset`, `clearQueue`, `enqueue` while the loop runs) do not happen in the model.
- CallStack.Popped: the node clauses are stated on membership, so on an arbitrary stack they do not fix the order or the number of copies of the surviving nodes. On every reachable stack `PopCanonical` fixes the whole result, order included.
- Controller.StartCallStackSequence: the replay is one atomic loop in the model. The source awaits one second between operations (`CodeEditorController.tsx:67-70`). A click on pause during that wait only changes the mode and does not stop the replay, and a second click on play starts a second replay that interleaves with the first. Neither interleaving is modelled.
- `Date.now()` and `Math.random()` in `generateCommandId` and in the `onConnect` edge id are inputs: ids and timestamps are parameters.
- The bodies of commands' `execute` closures that a caller writes outside the factories. A command's effect is an `Action` (`PushFrame`, `PopFrame`, `ClearStack`, `Delay`, `Fail`). `Fail` stands for any `execute` that throws.
- Floating-point numbers. Node positions are integers (`y = -(n * 170)` for a stack frame). Metadata timestamps are integers. `executionSpeed` is a JavaScript number (`VisualiserExecutionQueue.tsx:32`, `219`) but an `int` in the model, so fractional and `NaN` speeds are not represented.
- A metadata field that is `undefined` and one that is absent are not told apart: both are `None`.
- `syncWithVisualizer` and the store fields that `useCallStack` re-exports are plain pass-throughs of the call-stack store to the graph store. `useAst.ts` is a pass-through of AST store fields.
- The JSX of `CodeEditorController.tsx`, including the button that toggles the window mode, and all rendering components.
- ExecutionQueue.ExecutionQueueStore.Start: the loop body is a helper method, `RunAt`, with one iteration per call. The loop reads the interruption signal from its parameter rather than from a store field changed concurrently.
- ExecutionQueue.BatchIsEnqueueEach: states that a batch equals enqueueing its first command followed by the rest of the batch. A batch equal to a fold of single enqueues follows by induction from this statement. It is not stated as a separate lemma.
- Node `data` is a record of the four fields the call-stack store writes (`functionName`, `isTop`, `isBottom`, `isConnectable`). Other keys that a `data` spread would carry along are not represented.

## Findings

| source | as written | input that shows it | evidently intended | confidence | as-written member | corrected member |
|---|---|---|---|---|---|---|
| js-visualizer/src/Store/GlobalExecutionContextStore.tsx:148-161 | the three getters call `visualiserStore.getNode`, which the visualiser store does not define, so each call throws a TypeError | `getGECNode()` right after `addGECStructure()` | return the node with the structure id from the visualiser store, or null | high, not executed | GlobalExecutionContext.GetNodeAsWritten | GlobalExecutionContext.GettersAfterAdd |
| js-visualizer/src/Store/VisualiserExecutionQueue.tsx:153-160 | after the loop, an index at or beyond length - 1 sets idle and index = length even when the loop broke off on a pause | a queue of two commands with `pause()` called while the first runs: the state ends idle at index 2, and the second command never runs, not even after `resume()` | a drain broken off by pause or stop keeps the state and index it was left with, so resume runs the rest | medium, not executed | ExecutionQueue.PauseBeforeLastSkipsIt | ExecutionQueue.PauseResumeIntended |
| js-visualizer/src/Store/VisualiserExecutionQueue.tsx:111-114 | the index becomes min(index, old length - 1), which is -1 on an empty queue | `removeCommand("x")` on the initial queue, then an enqueue and `start()`: nothing runs and the queue ends paused | keep the index within 0..length of the new queue | high, not executed | ExecutionQueue.RemoveOnEmptyBreaksWf | ExecutionQueue.RemovedIntended |

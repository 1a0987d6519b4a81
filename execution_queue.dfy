/**
 * The execution command queue: a list of commands, the index of the current
 * one, an execution phase and a delay between commands. `start` drains the
 * queue from the current index; `pause` and `stop` issued while a drain is
 * awaiting a command are observed by the drain at the next command boundary.
 *
 * A command's `execute` closure is modelled by its `Action`, which acts on the
 * call-stack model (`Fail` stands for a closure that throws). External
 * `pause`/`stop` calls during a drain are the `Signal` sequence: one entry per
 * completed command, an exhausted sequence meaning no interruption.
 */
module ExecutionQueue {
  import opened Wrappers
  import Text
  import CallStack

  datatype Phase = Idle | Running | Paused | Stepping

  datatype Action = PushFrame(functionName: string) | PopFrame | ClearStack | Delay(ms: int) | Fail

  datatype Metadata = Metadata(source: Option<string>, description: Option<string>, timestamp: Option<int>)

  datatype Command = Command(id: string, kind: string, action: Action, metadata: Option<Metadata>)

  /** The store's fields `executionQueue`, `currentExecutionIndex`, `executionState`, `executionSpeed`. */
  datatype Queue = Queue(commands: seq<Command>, index: int, phase: Phase, speed: int)

  /** What happened to the store while the drain was awaiting one command. */
  datatype Signal = Continue | PauseSignal | StopSignal

  const DefaultSpeed := 1000

  const InitialQueue := Queue([], 0, Idle, DefaultSpeed)

  /** The index points into the queue or just past it, and the delay is not negative. */
  predicate Wf(q: Queue)
  {
    0 <= q.index <= |q.commands| && q.speed >= 0
  }

  // ----- Executing one command -----

  /** `command.execute()`: the new call stack, or None when the closure throws. */
  function Perform(action: Action, st: CallStack.Stack): (r: Option<CallStack.Stack>)
    ensures r.None? <==> action.Fail?
    ensures action.PushFrame? ==> r == Some(CallStack.Pushed(st, Some(action.functionName)))
    ensures action.PopFrame? ==> r == Some(CallStack.Popped(st))
    ensures action.ClearStack? ==> r == Some(CallStack.InitialStack())
    ensures action.Delay? ==> r == Some(st)
  {
    match action
    case PushFrame(name) => Some(CallStack.Pushed(st, Some(name)))
    case PopFrame => Some(CallStack.Popped(st))
    case ClearStack => Some(CallStack.InitialStack())
    case Delay(_) => Some(st)
    case Fail => None
  }

  /**
   * What running one command does to a state of type S. The queue's own logic
   * is stated for any such runner; the store runs its commands with `Perform`.
   */
  type Run<!S> = (Action, S) -> Option<S>

  /** Executing the commands one after another, stopping at the first that throws. */
  function RunCommands<S>(cs: seq<Command>, st: S, run: Run<S>): Option<S>
  {
    if cs == [] then Some(st)
    else match run(cs[0].action, st)
      case None => None
      case Some(st') => RunCommands(cs[1..], st', run)
  }

  lemma {:induction false} RunCommandsSnoc<S>(cs: seq<Command>, c: Command, st: S, mid: S, run: Run<S>)
    requires RunCommands(cs, st, run) == Some(mid)
    ensures RunCommands(cs + [c], st, run) == run(c.action, mid)
  {
    if cs == [] {
      assert [c] == cs + [c];
      assert [c][1..] == [];
    } else {
      assert (cs + [c])[0] == cs[0] && (cs + [c])[1..] == cs[1..] + [c];
      RunCommandsSnoc(cs[1..], c, run(cs[0].action, st).value, mid, run);
    }
  }

  // ----- Queue management -----

  /** `{ timestamp: now, ...metadata }`: a timestamp given in the metadata wins over `now`. */
  function MergeMetadata(md: Option<Metadata>, now: int): (r: Metadata)
    ensures md.None? ==> r == Metadata(None, None, Some(now))
    ensures md.Some? ==> r.source == md.value.source && r.description == md.value.description
    ensures r.timestamp.Some?
    ensures md.Some? && md.value.timestamp.Some? ==> r.timestamp == md.value.timestamp
    ensures (md.None? || md.value.timestamp.None?) ==> r.timestamp == Some(now)
  {
    match md
    case None => Metadata(None, None, Some(now))
    case Some(m) => Metadata(m.source, m.description, if m.timestamp.Some? then m.timestamp else Some(now))
  }

  /** The command as it is enqueued: an empty id is replaced by `freshId`, and the metadata gets a timestamp. */
  function WithDefaults(c: Command, freshId: string, now: int): (r: Command)
    ensures r.id == if c.id == "" then freshId else c.id
    ensures r.kind == c.kind && r.action == c.action
    ensures r.metadata == Some(MergeMetadata(c.metadata, now))
  {
    c.(id := if c.id == "" then freshId else c.id, metadata := Some(MergeMetadata(c.metadata, now)))
  }

  /** `enqueueCommand`, with the id and the clock reading it would generate passed in. */
  function Enqueued(q: Queue, c: Command, freshId: string, now: int): (r: Queue)
    ensures r.commands == q.commands + [WithDefaults(c, freshId, now)]
    ensures r.index == q.index && r.phase == q.phase && r.speed == q.speed
  {
    q.(commands := q.commands + [WithDefaults(c, freshId, now)])
  }

  /** `commands.map(...)` of `enqueueBatch`: each command with its defaults filled in. */
  function WithDefaultsAll(cs: seq<Command>, freshIds: seq<string>, nows: seq<int>): (r: seq<Command>)
    requires |freshIds| == |cs| && |nows| == |cs|
    ensures |r| == |cs|
  {
    if cs == [] then [] else [WithDefaults(cs[0], freshIds[0], nows[0])] + WithDefaultsAll(cs[1..], freshIds[1..], nows[1..])
  }

  lemma {:induction false} WithDefaultsAllAt(cs: seq<Command>, freshIds: seq<string>, nows: seq<int>)
    requires |freshIds| == |cs| && |nows| == |cs|
    ensures forall k :: 0 <= k < |cs| ==> WithDefaultsAll(cs, freshIds, nows)[k] == WithDefaults(cs[k], freshIds[k], nows[k])
  {
    if cs != [] {
      WithDefaultsAllAt(cs[1..], freshIds[1..], nows[1..]);
    }
  }

  /** `enqueueBatch`: the mapped commands appended in order. */
  function BatchEnqueued(q: Queue, cs: seq<Command>, freshIds: seq<string>, nows: seq<int>): (r: Queue)
    requires |freshIds| == |cs| && |nows| == |cs|
    ensures |r.commands| == |q.commands| + |cs|
    ensures r.commands[..|q.commands|] == q.commands
    ensures forall k :: 0 <= k < |cs| ==> r.commands[|q.commands| + k] == WithDefaults(cs[k], freshIds[k], nows[k])
    ensures r.index == q.index && r.phase == q.phase && r.speed == q.speed
  {
    WithDefaultsAllAt(cs, freshIds, nows);
    q.(commands := q.commands + WithDefaultsAll(cs, freshIds, nows))
  }

  /**
   * A batch is the same as enqueueing its commands one at a time: the empty
   * batch changes nothing, and a batch is its first command enqueued followed
   * by the batch of the rest.
   */
  lemma BatchIsEnqueueEach(q: Queue, c: Command, freshId: string, now: int, cs: seq<Command>, freshIds: seq<string>, nows: seq<int>)
    requires |freshIds| == |cs| && |nows| == |cs|
    ensures BatchEnqueued(q, [], [], []) == q
    ensures BatchEnqueued(q, [c] + cs, [freshId] + freshIds, [now] + nows)
         == BatchEnqueued(Enqueued(q, c, freshId, now), cs, freshIds, nows)
  {
    assert q.commands + [] == q.commands;
    assert ([c] + cs)[1..] == cs && ([freshId] + freshIds)[1..] == freshIds && ([now] + nows)[1..] == nows;
    var head := WithDefaults(c, freshId, now);
    var rest := WithDefaultsAll(cs, freshIds, nows);
    assert WithDefaultsAll([c] + cs, [freshId] + freshIds, [now] + nows) == [head] + rest;
    assert (q.commands + [head]) + rest == q.commands + ([head] + rest);
  }

  /** `clearQueue`. */
  function Cleared(q: Queue): (r: Queue)
    ensures r.commands == [] && r.index == 0 && r.phase == Idle && r.speed == q.speed
  {
    q.(commands := [], index := 0, phase := Idle)
  }

  /** `reset`: the same fields as `clearQueue`. */
  function ResetState(q: Queue): (r: Queue)
    ensures r.commands == [] && r.index == 0 && r.phase == Idle && r.speed == q.speed
  {
    Queue([], 0, Idle, q.speed)
  }

  lemma ResetIdempotent(q: Queue)
    ensures ResetState(ResetState(q)) == ResetState(q)
    ensures ResetState(q) == Cleared(q)
  {
  }

  /** `executionQueue.filter(cmd => cmd.id !== id)`. */
  function WithoutId(cs: seq<Command>, id: string): (r: seq<Command>)
    ensures |r| <= |cs|
    ensures forall c :: c in r <==> c in cs && c.id != id
  {
    if cs == [] then []
    else (if cs[0].id == id then [] else [cs[0]]) + WithoutId(cs[1..], id)
  }

  /** The filter distributes over concatenation, so the kept commands stay in queue order. */
  lemma {:induction false} WithoutIdAppend(a: seq<Command>, b: seq<Command>, id: string)
    ensures WithoutId(a + b, id) == WithoutId(a, id) + WithoutId(b, id)
  {
    if a == [] {
      assert a + b == b;
    } else {
      assert (a + b)[0] == a[0] && (a + b)[1..] == a[1..] + b;
      WithoutIdAppend(a[1..], b, id);
    }
  }

  /** Commands with other ids are all kept, in order and with their repetitions. */
  lemma {:induction false} WithoutIdAbsent(a: seq<Command>, id: string)
    requires forall i :: 0 <= i < |a| ==> a[i].id != id
    ensures WithoutId(a, id) == a
  {
    if a != [] {
      WithoutIdAbsent(a[1..], id);
    }
  }

  /** A single command is dropped exactly when it carries the id. */
  lemma WithoutIdSingle(c: Command, id: string)
    ensures WithoutId([c], id) == if c.id == id then [] else [c]
  {
  }

  /** `removeCommand` as written: the index becomes `min(index, oldLength - 1)`. */
  function Removed(q: Queue, id: string): (r: Queue)
    ensures r.commands == WithoutId(q.commands, id)
    ensures forall c :: c in r.commands <==> c in q.commands && c.id != id
    ensures r.index <= q.index && r.index <= |q.commands| - 1
    ensures r.index == q.index || r.index == |q.commands| - 1
    ensures r.phase == q.phase && r.speed == q.speed
  {
    q.(commands := WithoutId(q.commands, id), index := if q.index <= |q.commands| - 1 then q.index else |q.commands| - 1)
  }

  /** `removeCommand` on an empty queue drives the index to -1, outside the queue. */
  lemma RemoveOnEmptyBreaksWf()
    ensures Wf(InitialQueue) && !Wf(Removed(InitialQueue, "x"))
    ensures Removed(InitialQueue, "x").index == -1
  {
  }

  /** Once the index is -1, starting a non-empty queue runs nothing and leaves it paused. */
  lemma NegativeIndexStalls<S>(c: Command, st: S, run: Run<S>)
    ensures var q := Enqueued(Removed(InitialQueue, "x"), c, "cmd", 0);
            Started(q, st, [], run) == (q.(phase := Paused), st)
  {
  }

  /** `removeCommand` with the index kept inside the shrunken queue. */
  function RemovedIntended(q: Queue, id: string): (r: Queue)
    ensures r.commands == WithoutId(q.commands, id)
    ensures forall c :: c in r.commands <==> c in q.commands && c.id != id
    ensures 0 <= r.index <= |r.commands|
    ensures 0 <= q.index <= |r.commands| ==> r.index == q.index
    ensures r.phase == q.phase && r.speed == q.speed
  {
    var cs := WithoutId(q.commands, id);
    q.(commands := cs, index := if q.index < 0 then 0 else if q.index > |cs| then |cs| else q.index)
  }

  // ----- Execution control -----

  /** `pause`: unconditional. */
  function PauseState(q: Queue): (r: Queue)
    ensures r.phase == Paused && r.commands == q.commands && r.index == q.index && r.speed == q.speed
  {
    q.(phase := Paused)
  }

  /** `stop`: idle, back to the first command, the commands kept. */
  function Stopped(q: Queue): (r: Queue)
    ensures r.phase == Idle && r.index == 0 && r.commands == q.commands && r.speed == q.speed
  {
    q.(phase := Idle, index := 0)
  }

  /** `setExecutionSpeed`. */
  function SetSpeed(q: Queue, speed: int): (r: Queue)
    ensures r.speed >= 0 && r.speed >= speed && (r.speed == 0 || r.speed == speed)
    ensures r.commands == q.commands && r.index == q.index && r.phase == q.phase
  {
    q.(speed := if speed > 0 then speed else 0)
  }

  /** The effect of one external call observed at a command boundary. */
  function Interrupt(q: Queue, s: Signal): (r: Queue)
    ensures r.commands == q.commands && r.speed == q.speed
  {
    match s
    case Continue => q
    case PauseSignal => PauseState(q)
    case StopSignal => Stopped(q)
  }

  function Head(signals: seq<Signal>): Signal
  {
    if signals == [] then Continue else signals[0]
  }

  function Tail(signals: seq<Signal>): seq<Signal>
  {
    if signals == [] then [] else signals[1..]
  }

  /** The check after the loop: an index at or past the last command ends the drain idle with index = length. */
  function EndCheck(q: Queue): (r: Queue)
    ensures q.index >= |q.commands| - 1 ==> r == q.(phase := Idle, index := |q.commands|)
    ensures q.index < |q.commands| - 1 ==> r == q
  {
    if q.index >= |q.commands| - 1 then q.(phase := Idle, index := |q.commands|) else q
  }

  /**
   * The loop of `start` from loop index `i`, as written: a break on pause or
   * stop still falls through to the end check.
   */
  function Drain<S>(q: Queue, st: S, i: int, signals: seq<Signal>, run: Run<S>): (Queue, S)
    decreases |q.commands| - i
  {
    if i >= |q.commands| then (EndCheck(q), st)
    else if q.phase == Paused then (EndCheck(q.(index := i)), st)
    else if q.phase == Idle then (EndCheck(q), st)
    else if i < 0 then (q.(phase := Paused), st)
    else
      var q1 := q.(index := i);
      match run(q.commands[i].action, st)
      case None => (q1.(phase := Paused), st)
      case Some(st') => Drain(Interrupt(q1, Head(signals)), st', i + 1, Tail(signals), run)
  }

  /** `start`: a no-op on an empty queue, otherwise running, then the drain from the current index. */
  function Started<S>(q: Queue, st: S, signals: seq<Signal>, run: Run<S>): (Queue, S)
  {
    if |q.commands| == 0 then (q, st)
    else Drain(q.(phase := Running), st, q.index, signals, run)
  }

  /** `resume`: `start` again, but only from the paused phase. */
  function Resumed<S>(q: Queue, st: S, signals: seq<Signal>, run: Run<S>): (Queue, S)
  {
    if q.phase == Paused then Started(q, st, signals, run) else (q, st)
  }

  /** `step`: runs the command at the index, then paused, or idle once the index passes the end. */
  function Stepped<S>(q: Queue, st: S, run: Run<S>): (r: (Queue, S))
    ensures q.index >= |q.commands| ==> r == (q, st)
    ensures r.0.commands == q.commands && r.0.speed == q.speed
    ensures 0 <= q.index < |q.commands| && run(q.commands[q.index].action, st).Some? ==>
              r.0.index == q.index + 1 && r.1 == run(q.commands[q.index].action, st).value &&
              r.0.phase == (if q.index + 1 >= |q.commands| then Idle else Paused)
    ensures q.index < |q.commands| && (q.index < 0 || run(q.commands[q.index].action, st).None?) ==>
              r == (q.(phase := Paused), st)
  {
    if q.index >= |q.commands| then (q, st)
    else if q.index < 0 then (q.(phase := Paused), st)
    else match run(q.commands[q.index].action, st)
      case None => (q.(phase := Paused), st)
      case Some(st') => (q.(index := q.index + 1, phase := if q.index + 1 >= |q.commands| then Idle else Paused), st')
  }

  /** `step` called `m` times. */
  function StepTimes<S>(q: Queue, st: S, m: nat, run: Run<S>): (Queue, S)
    decreases m
  {
    if m == 0 then (q, st)
    else
      var r := Stepped(q, st, run);
      StepTimes(r.0, r.1, m - 1, run)
  }

  // ----- Getters -----

  function QueueLength(q: Queue): (r: nat)
    ensures r == |q.commands|
  {
    |q.commands|
  }

  /** `executionQueue[currentExecutionIndex] || null`. */
  function CurrentCommand(q: Queue): (r: Option<Command>)
    ensures r.Some? <==> 0 <= q.index < |q.commands|
    ensures r.Some? ==> r.value == q.commands[q.index]
  {
    if 0 <= q.index < |q.commands| then Some(q.commands[q.index]) else None
  }

  predicate CanStepForward(q: Queue)
  {
    q.index < |q.commands|
  }

  function Progress(q: Queue): (r: (int, nat))
    ensures r.0 == q.index && r.1 == |q.commands|
  {
    (q.index, |q.commands|)
  }

  predicate IsExecuting(q: Queue)
  {
    q.phase == Running || q.phase == Stepping
  }

  /** Whenever a step is possible there is a current command, and in a well-formed queue the converse holds too. */
  lemma CanStepMeansCurrent<S>(q: Queue, st: S, run: Run<S>)
    requires Wf(q)
    ensures CanStepForward(q) <==> CurrentCommand(q).Some?
    ensures !CanStepForward(q) ==> Stepped(q, st, run).0 == q
  {
  }

  // ----- Command factories -----

  function PushCommand(functionName: string, id: string, now: int): Command
  {
    Command(id, "CALL_STACK_PUSH", PushFrame(functionName),
            Some(Metadata(Some("CallStackStore"), Some("Push " + functionName + " to call stack"), Some(now))))
  }

  function PopCommand(id: string, now: int): Command
  {
    Command(id, "CALL_STACK_POP", PopFrame, Some(Metadata(Some("CallStackStore"), Some("Pop from call stack"), Some(now))))
  }

  function ClearCommand(id: string, now: int): Command
  {
    Command(id, "CALL_STACK_CLEAR", ClearStack, Some(Metadata(Some("CallStackStore"), Some("Clear call stack"), Some(now))))
  }

  /** `createDelayCommand`: an absent or empty description falls back to "Delay for <ms>ms". */
  function DelayCommand(ms: int, description: Option<string>, id: string, now: int): (c: Command)
    ensures c.kind == "DELAY" && c.action == Delay(ms)
    ensures c.metadata.Some? && c.metadata.value.description.Some?
    ensures description.Some? && description.value != "" ==> c.metadata.value.description == description
    ensures (description.None? || description.value == "") ==>
              c.metadata.value.description == Some("Delay for " + Text.IntToString(ms) + "ms")
  {
    var text := if description.Some? && description.value != "" then description.value
                else "Delay for " + Text.IntToString(ms) + "ms";
    Command(id, "DELAY", Delay(ms), Some(Metadata(Some("System"), Some(text), Some(now))))
  }

  /** Executing a factory-made command does to the call stack what the factory names. */
  lemma FactoryEffects(name: string, ms: int, description: Option<string>, id: string, now: int, st: CallStack.Stack)
    ensures Perform(PushCommand(name, id, now).action, st) == Some(CallStack.Pushed(st, Some(name)))
    ensures Perform(PopCommand(id, now).action, st) == Some(CallStack.Popped(st))
    ensures Perform(ClearCommand(id, now).action, st) == Some(CallStack.InitialStack())
    ensures Perform(DelayCommand(ms, description, id, now).action, st) == Some(st)
    ensures WithDefaults(PushCommand(name, id, now), "other", now + 1) == PushCommand(name, id, now) || id == ""
  {
  }

  // ----- Properties of the drain -----

  predicate Uninterrupted(signals: seq<Signal>)
  {
    forall k :: 0 <= k < |signals| ==> signals[k] == Continue
  }

  /** A drain without interruption from `i` runs commands i..n-1 in order and ends idle with index = n. */
  lemma {:induction false} DrainUninterrupted<S>(q: Queue, st: S, i: int, signals: seq<Signal>, st': S, run: Run<S>)
    requires q.phase == Running && 0 <= i <= |q.commands|
    requires q.index == i || q.index == i - 1
    requires Uninterrupted(signals)
    requires RunCommands(q.commands[i..], st, run) == Some(st')
    ensures Drain(q, st, i, signals, run) == (q.(phase := Idle, index := |q.commands|), st')
    decreases |q.commands| - i
  {
    if i < |q.commands| {
      var st1 := run(q.commands[i].action, st).value;
      assert q.commands[i..][1..] == q.commands[i + 1..];
      assert Head(signals) == Continue;
      DrainUninterrupted(q.(index := i), st1, i + 1, Tail(signals), st', run);
    }
  }

  /** `start` without interruption on a non-empty well-formed queue whose remaining commands all succeed. */
  lemma StartUninterrupted<S>(q: Queue, st: S, signals: seq<Signal>, st': S, run: Run<S>)
    requires Wf(q) && |q.commands| > 0
    requires Uninterrupted(signals)
    requires RunCommands(q.commands[q.index..], st, run) == Some(st')
    ensures Started(q, st, signals, run) == (q.(phase := Idle, index := |q.commands|), st')
  {
    DrainUninterrupted(q.(phase := Running), st, q.index, signals, st', run);
  }

  /** A command that throws stops the drain: paused, with the index at that command. */
  lemma {:induction false} DrainFails<S>(q: Queue, st: S, i: int, j: int, signals: seq<Signal>, mid: S, run: Run<S>)
    requires q.phase == Running && 0 <= i <= j < |q.commands|
    requires Uninterrupted(signals)
    requires RunCommands(q.commands[i..j], st, run) == Some(mid) && run(q.commands[j].action, mid).None?
    ensures Drain(q, st, i, signals, run) == (q.(phase := Paused, index := j), mid)
    decreases |q.commands| - i
  {
    if i < j {
      var st1 := run(q.commands[i].action, st).value;
      assert q.commands[i..j][1..] == q.commands[i + 1..j];
      assert Head(signals) == Continue;
      DrainFails(q.(index := i), st1, i + 1, j, Tail(signals), mid, run);
    } else {
      assert q.commands[i..j] == [];
    }
  }

  /** Stepping through the rest of the queue reaches the same state as an uninterrupted `start`. */
  lemma {:induction false} StepsMatchDrain<S>(q: Queue, st: S, st': S, run: Run<S>)
    requires 0 <= q.index < |q.commands|
    requires RunCommands(q.commands[q.index..], st, run) == Some(st')
    ensures StepTimes(q, st, |q.commands| - q.index, run) == (q.(phase := Idle, index := |q.commands|), st')
    decreases |q.commands| - q.index
  {
    var i := q.index;
    var st1 := run(q.commands[i].action, st).value;
    assert q.commands[i..][1..] == q.commands[i + 1..];
    var q1 := Stepped(q, st, run).0;
    if i + 1 < |q.commands| {
      StepsMatchDrain(q1, st1, st', run);
      assert q1.(phase := Idle, index := |q.commands|) == q.(phase := Idle, index := |q.commands|);
    }
  }

  lemma StepsMatchStart<S>(q: Queue, st: S, st': S, run: Run<S>)
    requires Wf(q) && q.index < |q.commands|
    requires RunCommands(q.commands[q.index..], st, run) == Some(st')
    ensures StepTimes(q, st, |q.commands| - q.index, run) == Started(q, st, [], run)
  {
    StepsMatchDrain(q, st, st', run);
    StartUninterrupted(q, st, [], st', run);
  }

  lemma RunCommandsHead<S>(cs: seq<Command>, st: S, mid: S, run: Run<S>)
    requires cs != [] && RunCommands(cs, st, run) == Some(mid)
    ensures run(cs[0].action, st).Some?
    ensures RunCommands(cs[1..], run(cs[0].action, st).value, run) == Some(mid)
  {
  }

  /**
   * One iteration of the drain loop: a command that throws leaves the queue
   * paused at it; one that succeeds is followed by the signal observed
   * meanwhile and the loop goes on.
   */
  lemma DrainAdvance<S>(q: Queue, st: S, i: int, signals: seq<Signal>, run: Run<S>)
    requires 0 <= i < |q.commands| && q.phase != Paused && q.phase != Idle
    ensures run(q.commands[i].action, st).None? ==> Drain(q, st, i, signals, run) == (q.(index := i, phase := Paused), st)
    ensures run(q.commands[i].action, st).Some? ==>
              Drain(q, st, i, signals, run)
              == Drain(Interrupt(q.(index := i), Head(signals)), run(q.commands[i].action, st).value, i + 1, Tail(signals), run)
  {
  }

  lemma DrainIntendedAdvance<S>(q: Queue, st: S, i: int, signals: seq<Signal>, st1: S, run: Run<S>)
    requires q.phase == Running && 0 <= i < |q.commands| && run(q.commands[i].action, st) == Some(st1)
    ensures DrainIntended(q, st, i, signals, run) == DrainIntended(Interrupt(q.(index := i), Head(signals)), st1, i + 1, Tail(signals), run)
  {
  }

  /** Dropping a leading Continue keeps the position of the first other signal, one place earlier. */
  lemma SignalsShift(signals: seq<Signal>, n: int, s: Signal)
    requires 0 < n < |signals| && signals[n] == s
    requires forall k :: 0 <= k < n ==> signals[k] == Continue
    ensures Head(signals) == Continue
    ensures |Tail(signals)| > n - 1 && Tail(signals)[n - 1] == s
    ensures forall k :: 0 <= k < n - 1 ==> Tail(signals)[k] == Continue
  {
    assert signals[0] == Continue;
  }

  /**
   * `stop` while command j runs, when j is not one of the last two: the drain
   * ends idle at index 0 after running commands i..j.
   */
  lemma {:induction false} DrainStopped<S>(q: Queue, st: S, i: int, j: int, signals: seq<Signal>, mid: S, run: Run<S>)
    requires q.phase == Running && 0 <= i <= j && j + 2 < |q.commands|
    requires |signals| > j - i && signals[j - i] == StopSignal
    requires forall k :: 0 <= k < j - i ==> signals[k] == Continue
    requires RunCommands(q.commands[i..j + 1], st, run) == Some(mid)
    ensures Drain(q, st, i, signals, run) == (q.(phase := Idle, index := 0), mid)
    decreases |q.commands| - i
  {
    var cs := q.commands[i..j + 1];
    assert cs[0] == q.commands[i];
    RunCommandsHead(cs, st, mid, run);
    var st1 := run(q.commands[i].action, st).value;
    DrainAdvance(q, st, i, signals, run);
    if i < j {
      SignalsShift(signals, j - i, StopSignal);
      assert cs[1..] == q.commands[i + 1..j + 1];
      assert Interrupt(q.(index := i), Head(signals)) == q.(index := i);
      DrainStopped(q.(index := i), st1, i + 1, j, Tail(signals), mid, run);
      assert q.(index := i).(phase := Idle, index := 0) == q.(phase := Idle, index := 0);
    } else {
      assert Head(signals) == StopSignal;
      assert cs[1..] == [];
      var q2 := q.(phase := Idle, index := 0);
      assert Interrupt(q.(index := i), StopSignal) == q2;
      assert Drain(q2, st1, i + 1, Tail(signals), run) == (EndCheck(q2), st1);
    }
  }

  /**
   * As written, a `pause` issued while the second-to-last command runs ends
   * the drain idle with index = length: the last command is skipped and
   * `resume` no longer runs it.
   */
  lemma PauseBeforeLastSkipsIt(a: string, b: string)
    ensures var q := Queue([PushCommand(a, "1", 0), PushCommand(b, "2", 0)], 0, Idle, DefaultSpeed);
            var st := CallStack.InitialStack();
            var r := Started(q, st, [PauseSignal], Perform);
            r == (q.(phase := Idle, index := 2), CallStack.Pushed(st, Some(a))) &&
            Resumed(r.0, r.1, [], Perform) == r &&
            RunCommands(q.commands, st, Perform) != Some(r.1)
  {
    var q := Queue([PushCommand(a, "1", 0), PushCommand(b, "2", 0)], 0, Idle, DefaultSpeed);
    var st := CallStack.InitialStack();
    var st1 := CallStack.Pushed(st, Some(a));
    var st2 := CallStack.Pushed(st1, Some(b));
    var paused := q.(phase := Paused, index := 0);
    assert Drain(paused, st1, 1, [], Perform) == (q.(phase := Idle, index := 2), st1);
    assert Drain(q.(phase := Running), st, 0, [PauseSignal], Perform) == Drain(paused, st1, 1, [], Perform);
    assert q.commands[1..] == [PushCommand(b, "2", 0)];
    assert RunCommands(q.commands[1..][1..], st2, Perform) == Some(st2);
    assert RunCommands(q.commands[1..], st1, Perform) == Some(st2);
    assert RunCommands(q.commands, st, Perform) == Some(st2);
    assert st2.count == 2 != st1.count;
  }

  /** The end check as evidently intended: a drain that broke off on pause or stop is left as it stands. */
  function DrainIntended<S>(q: Queue, st: S, i: int, signals: seq<Signal>, run: Run<S>): (Queue, S)
    decreases |q.commands| - i
  {
    if i >= |q.commands| then (EndCheck(q), st)
    else if q.phase == Paused then (q.(index := i), st)
    else if q.phase == Idle then (q, st)
    else if i < 0 then (q.(phase := Paused), st)
    else
      var q1 := q.(index := i);
      match run(q.commands[i].action, st)
      case None => (q1.(phase := Paused), st)
      case Some(st') => DrainIntended(Interrupt(q1, Head(signals)), st', i + 1, Tail(signals), run)
  }

  function StartedIntended<S>(q: Queue, st: S, signals: seq<Signal>, run: Run<S>): (Queue, S)
  {
    if |q.commands| == 0 then (q, st)
    else DrainIntended(q.(phase := Running), st, q.index, signals, run)
  }

  function ResumedIntended<S>(q: Queue, st: S, signals: seq<Signal>, run: Run<S>): (Queue, S)
  {
    if q.phase == Paused then StartedIntended(q, st, signals, run) else (q, st)
  }

  lemma {:induction false} DrainIntendedUninterrupted<S>(q: Queue, st: S, i: int, signals: seq<Signal>, st': S, run: Run<S>)
    requires q.phase == Running && 0 <= i <= |q.commands|
    requires q.index == i || q.index == i - 1
    requires Uninterrupted(signals)
    requires RunCommands(q.commands[i..], st, run) == Some(st')
    ensures DrainIntended(q, st, i, signals, run) == (q.(phase := Idle, index := |q.commands|), st')
    decreases |q.commands| - i
  {
    if i < |q.commands| {
      var st1 := run(q.commands[i].action, st).value;
      assert q.commands[i..][1..] == q.commands[i + 1..];
      assert Head(signals) == Continue;
      DrainIntendedUninterrupted(q.(index := i), st1, i + 1, Tail(signals), st', run);
    }
  }

  /** With the intended end check, a pause after command j (not the last) stops with index j + 1, paused. */
  lemma {:induction false} DrainIntendedPaused<S>(q: Queue, st: S, i: int, j: int, signals: seq<Signal>, mid: S, run: Run<S>)
    requires q.phase == Running && 0 <= i <= j && j + 1 < |q.commands|
    requires |signals| > j - i && signals[j - i] == PauseSignal
    requires forall k :: 0 <= k < j - i ==> signals[k] == Continue
    requires RunCommands(q.commands[i..j + 1], st, run) == Some(mid)
    ensures DrainIntended(q, st, i, signals, run) == (q.(phase := Paused, index := j + 1), mid)
    decreases |q.commands| - i
  {
    var cs := q.commands[i..j + 1];
    assert cs[0] == q.commands[i];
    RunCommandsHead(cs, st, mid, run);
    var st1 := run(q.commands[i].action, st).value;
    DrainIntendedAdvance(q, st, i, signals, st1, run);
    if i < j {
      SignalsShift(signals, j - i, PauseSignal);
      assert cs[1..] == q.commands[i + 1..j + 1];
      assert Interrupt(q.(index := i), Head(signals)) == q.(index := i);
      DrainIntendedPaused(q.(index := i), st1, i + 1, j, Tail(signals), mid, run);
      assert q.(index := i).(phase := Paused, index := j + 1) == q.(phase := Paused, index := j + 1);
    } else {
      assert Head(signals) == PauseSignal;
      assert cs[1..] == [];
      var q2 := q.(phase := Paused, index := i);
      assert Interrupt(q.(index := i), PauseSignal) == q2;
      assert DrainIntended(q2, st1, i + 1, Tail(signals), run) == (q2.(index := i + 1), st1);
    }
  }

  lemma {:induction false} RunCommandsSplit<S>(cs: seq<Command>, k: int, st: S, mid: S, run: Run<S>)
    requires 0 <= k <= |cs|
    requires RunCommands(cs[..k], st, run) == Some(mid)
    ensures RunCommands(cs, st, run) == RunCommands(cs[k..], mid, run)
  {
    if k > 0 {
      var st1 := run(cs[0].action, st).value;
      assert cs[..k][1..] == cs[1..][..k - 1];
      assert cs[1..][k - 1..] == cs[k..];
      RunCommandsSplit(cs[1..], k - 1, st1, mid, run);
    }
  }

  /**
   * With the intended end check, pausing a drain between two commands and
   * resuming it runs every remaining command exactly once and reaches the
   * same state as a drain that was never paused.
   */
  lemma PauseResumeIntended<S>(q: Queue, st: S, j: int, signals: seq<Signal>, st': S, run: Run<S>)
    requires Wf(q) && q.index <= j && j + 1 < |q.commands|
    requires |signals| > j - q.index && signals[j - q.index] == PauseSignal
    requires forall k :: 0 <= k < j - q.index ==> signals[k] == Continue
    requires RunCommands(q.commands[q.index..], st, run) == Some(st')
    ensures var p := StartedIntended(q, st, signals, run);
            ResumedIntended(p.0, p.1, [], run) == StartedIntended(q, st, [], run) == (q.(phase := Idle, index := |q.commands|), st')
  {
    var cs := q.commands[q.index..];
    var k := j + 1 - q.index;
    assert cs[..k] == q.commands[q.index..j + 1];
    assert cs[k..] == q.commands[j + 1..];
    var mid :| RunCommands(cs[..k], st, run) == Some(mid) by {
      RunCommandsPrefix(cs, k, st, run);
    }
    RunCommandsSplit(cs, k, st, mid, run);
    DrainIntendedPaused(q.(phase := Running), st, q.index, j, signals, mid, run);
    var p := (q.(phase := Paused, index := j + 1), mid);
    DrainIntendedUninterrupted(p.0.(phase := Running), mid, j + 1, [], st', run);
    DrainIntendedUninterrupted(q.(phase := Running), st, q.index, [], st', run);
  }

  lemma {:induction false} RunCommandsPrefix<S>(cs: seq<Command>, k: int, st: S, run: Run<S>)
    requires 0 <= k <= |cs| && RunCommands(cs, st, run).Some?
    ensures RunCommands(cs[..k], st, run).Some?
  {
    if k > 0 {
      assert cs[..k][1..] == cs[1..][..k - 1];
      RunCommandsPrefix(cs[1..], k - 1, run(cs[0].action, st).value, run);
    }
  }

  // ----- Well-formedness is preserved -----

  /** Once the loop of `start` returns, the queue is idle or paused: `isExecuting` is false. */
  lemma {:induction false} DrainSettles<S>(q: Queue, st: S, i: int, signals: seq<Signal>, run: Run<S>)
    requires q.phase != Stepping
    requires q.phase == Running ==> q.index == i || q.index == i - 1
    ensures !IsExecuting(Drain(q, st, i, signals, run).0)
    decreases |q.commands| - i
  {
    if 0 <= i < |q.commands| && q.phase == Running {
      var r := run(q.commands[i].action, st);
      if r.Some? {
        DrainSettles(Interrupt(q.(index := i), Head(signals)), r.value, i + 1, Tail(signals), run);
      }
    }
  }

  lemma StartedSettles<S>(q: Queue, st: S, signals: seq<Signal>, run: Run<S>)
    requires |q.commands| > 0
    ensures !IsExecuting(Started(q, st, signals, run).0)
  {
    DrainSettles(q.(phase := Running), st, q.index, signals, run);
  }

  lemma {:induction false} DrainWf<S>(q: Queue, st: S, i: int, signals: seq<Signal>, run: Run<S>)
    requires 0 <= q.index <= |q.commands| && q.speed >= 0 && 0 <= i <= |q.commands|
    ensures Wf(Drain(q, st, i, signals, run).0)
    decreases |q.commands| - i
  {
    if i < |q.commands| && q.phase != Paused && q.phase != Idle {
      var r := run(q.commands[i].action, st);
      if r.Some? {
        DrainWf(Interrupt(q.(index := i), Head(signals)), r.value, i + 1, Tail(signals), run);
      }
    }
  }

  /** Every action except `removeCommand` keeps the index inside the queue and the delay not negative. */
  lemma ActionsPreserveWf<S>(q: Queue, st: S, c: Command, cs: seq<Command>, freshIds: seq<string>,
                          nows: seq<int>, id: string, speed: int, signals: seq<Signal>, run: Run<S>)
    requires Wf(q) && |freshIds| == |cs| && |nows| == |cs|
    ensures Wf(Enqueued(q, c, id, 0)) && Wf(BatchEnqueued(q, cs, freshIds, nows))
    ensures Wf(Cleared(q)) && Wf(ResetState(q)) && Wf(PauseState(q)) && Wf(Stopped(q)) && Wf(SetSpeed(q, speed))
    ensures Wf(RemovedIntended(q, id))
    ensures Wf(Stepped(q, st, run).0)
    ensures Wf(Started(q, st, signals, run).0) && Wf(Resumed(q, st, signals, run).0)
  {
    if |q.commands| > 0 {
      DrainWf(q.(phase := Running), st, q.index, signals, run);
    }
  }

  // ----- The store -----

  /** `command.execute()` acting on the call-stack store; `ok` is false when it throws. */
  method Execute(action: Action, stack: CallStack.CallStackStore) returns (ok: bool)
    requires stack.Valid()
    modifies stack
    ensures stack.Valid()
    ensures ok <==> Perform(action, old(stack.State())).Some?
    ensures ok ==> stack.State() == Perform(action, old(stack.State())).value
    ensures !ok ==> stack.State() == old(stack.State())
  {
    match action
    case PushFrame(name) =>
      stack.Push(Some(name));
      ok := true;
    case PopFrame =>
      stack.Pop();
      ok := true;
    case ClearStack =>
      stack.ClearStack();
      ok := true;
    case Delay(_) =>
      ok := true;
    case Fail =>
      ok := false;
  }

  class ExecutionQueueStore {
    var executionQueue: seq<Command>
    var currentExecutionIndex: int
    var executionState: Phase
    var executionSpeed: int

    function State(): Queue
      reads this
    {
      Queue(executionQueue, currentExecutionIndex, executionState, executionSpeed)
    }

    constructor ()
      ensures State() == InitialQueue
    {
      executionQueue, currentExecutionIndex, executionState, executionSpeed := [], 0, Idle, DefaultSpeed;
    }

    method EnqueueCommand(command: Command, freshId: string, now: int)
      modifies this
      ensures State() == Enqueued(old(State()), command, freshId, now)
    {
      var commandWithId := WithDefaults(command, freshId, now);
      executionQueue := executionQueue + [commandWithId];
    }

    method EnqueueBatch(commands: seq<Command>, freshIds: seq<string>, nows: seq<int>)
      requires |freshIds| == |commands| && |nows| == |commands|
      modifies this
      ensures State() == BatchEnqueued(old(State()), commands, freshIds, nows)
    {
      var commandsWithIds := WithDefaultsAll(commands, freshIds, nows);
      executionQueue := executionQueue + commandsWithIds;
    }

    method ClearQueue()
      modifies this
      ensures State() == Cleared(old(State()))
    {
      executionQueue, currentExecutionIndex, executionState := [], 0, Idle;
    }

    method RemoveCommand(commandId: string)
      modifies this
      ensures State() == Removed(old(State()), commandId)
    {
      var oldLength := |executionQueue|;
      executionQueue := WithoutId(executionQueue, commandId);
      currentExecutionIndex := if currentExecutionIndex <= oldLength - 1 then currentExecutionIndex else oldLength - 1;
    }

    method Pause()
      modifies this
      ensures State() == PauseState(old(State()))
    {
      executionState := Paused;
    }

    method Stop()
      modifies this
      ensures State() == Stopped(old(State()))
    {
      executionState, currentExecutionIndex := Idle, 0;
    }

    method Reset()
      modifies this
      ensures State() == ResetState(old(State()))
    {
      executionQueue, currentExecutionIndex, executionState := [], 0, Idle;
    }

    method SetExecutionSpeed(speed: int)
      modifies this
      ensures State() == SetSpeed(old(State()), speed)
    {
      executionSpeed := if speed > 0 then speed else 0;
    }

    /**
     * One iteration of the loop of `start`: command i is run; when it throws
     * the queue is paused at it, otherwise the call observed while it was
     * awaited is applied.
     */
    method RunAt(stack: CallStack.CallStackStore, i: int, signal: Signal) returns (ok: bool)
      requires stack.Valid() && 0 <= i < |executionQueue|
      modifies this, stack
      ensures stack.Valid()
      ensures ok <==> Perform(old(executionQueue)[i].action, old(stack.State())).Some?
      ensures ok ==> State() == Interrupt(old(State()).(index := i), signal) &&
                     stack.State() == Perform(old(executionQueue)[i].action, old(stack.State())).value
      ensures !ok ==> State() == old(State()).(index := i, phase := Paused) && stack.State() == old(stack.State())
    {
      currentExecutionIndex := i;
      ok := Execute(executionQueue[i].action, stack);
      if !ok {
        executionState := Paused;
        return;
      }
      match signal {
        case Continue =>
        case PauseSignal => Pause();
        case StopSignal => Stop();
      }
    }

    /** `start`, with the external calls observed at each command boundary given by `signals`. */
    method Start(stack: CallStack.CallStackStore, signals: seq<Signal>)
      requires stack.Valid()
      modifies this, stack
      ensures stack.Valid()
      ensures (State(), stack.State()) == Started(old(State()), old(stack.State()), signals, Perform)
    {
      if |executionQueue| == 0 {
        return;
      }
      ghost var result := Started(State(), stack.State(), signals, Perform);
      executionState := Running;
      var queue := executionQueue;
      var i := currentExecutionIndex;
      var pending := signals;
      while i < |queue|
        invariant executionQueue == queue && stack.Valid()
        invariant Drain(State(), stack.State(), i, pending, Perform) == result
        decreases |queue| - i
      {
        if executionState == Paused {
          currentExecutionIndex := i;
          assert (EndCheck(State()), stack.State()) == result;
          break;
        }
        if executionState == Idle {
          assert (EndCheck(State()), stack.State()) == result;
          break;
        }
        if i < 0 {
          executionState := Paused;
          return;
        }
        ghost var q0 := State();
        ghost var st0 := stack.State();
        DrainAdvance(q0, st0, i, pending, Perform);
        var ok := RunAt(stack, i, Head(pending));
        if !ok {
          return;
        }
        pending := Tail(pending);
        i := i + 1;
      }
      if currentExecutionIndex >= |queue| - 1 {
        executionState, currentExecutionIndex := Idle, |queue|;
      }
    }

    method Resume(stack: CallStack.CallStackStore, signals: seq<Signal>)
      requires stack.Valid()
      modifies this, stack
      ensures stack.Valid()
      ensures (State(), stack.State()) == Resumed(old(State()), old(stack.State()), signals, Perform)
    {
      if executionState == Paused {
        Start(stack, signals);
      }
    }

    method Step(stack: CallStack.CallStackStore)
      requires stack.Valid()
      modifies this, stack
      ensures stack.Valid()
      ensures (State(), stack.State()) == Stepped(old(State()), old(stack.State()), Perform)
    {
      if currentExecutionIndex >= |executionQueue| {
        return;
      }
      executionState := Stepping;
      if currentExecutionIndex < 0 {
        executionState := Paused;
        return;
      }
      var ok := Execute(executionQueue[currentExecutionIndex].action, stack);
      if !ok {
        executionState := Paused;
        return;
      }
      var newIndex := currentExecutionIndex + 1;
      currentExecutionIndex, executionState := newIndex, if newIndex >= |executionQueue| then Idle else Paused;
    }

    function GetCurrentCommand(): (r: Option<Command>)
      reads this
      ensures r == CurrentCommand(State())
    {
      if 0 <= currentExecutionIndex < |executionQueue| then Some(executionQueue[currentExecutionIndex]) else None
    }
  }
}

/**
 * The editor controller's logic: the play/pause toggle, which synthesizes the
 * call-stack operation log of the editor's code, and the replay loop that
 * applies the log to the call-stack store.
 */
module Controller {
  import opened Wrappers
  import opened Synthesizer
  import opened CallStack
  import AstStore
  import CodeEditor

  /** One operation of the log applied to the stack: a push of its name, or a pop. */
  function Apply(s: Stack, op: Operation): Stack
  {
    match op
    case Push(name) => Pushed(s, Some(name))
    case Pop(_) => Popped(s)
  }

  /** The stack after replaying a log, one operation after the other. */
  function Replay(s: Stack, log: seq<Operation>): Stack
  {
    if log == [] then s else Apply(Replay(s, log[..|log| - 1]), log[|log| - 1])
  }

  /** Whether replaying the log ever pops an empty stack. */
  predicate PopsEmpty(s: Stack, log: seq<Operation>)
  {
    log != [] && (PopsEmpty(s, log[..|log| - 1]) || (log[|log| - 1].Pop? && Replay(s, log[..|log| - 1]).count == 0))
  }

  lemma {:induction false} MatchFailsOnward(open: seq<string>, a: seq<Operation>, b: seq<Operation>)
    requires Match(open, a).None?
    ensures Match(open, a + b).None?
    decreases |a|
  {
    assert a != [];
    assert (a + b)[0] == a[0] && (a + b)[1..] == a[1..] + b;
    match a[0]
    case Push(name) => MatchFailsOnward(open + [name], a[1..], b);
    case Pop(name) =>
      if open != [] && open[|open| - 1] == name {
        MatchFailsOnward(open[..|open| - 1], a[1..], b);
      }
  }

  /**
   * Replaying a log that reads well against the open labels `open`, from the
   * reachable state with frames `frames + open`, never pops an empty stack and
   * ends in the reachable state with frames `frames + open'`.
   */
  lemma {:induction false} ReplayMatched(frames: seq<string>, open: seq<string>, log: seq<Operation>, open': seq<string>)
    requires Match(open, log) == Some(open')
    ensures !PopsEmpty(Canonical(frames + open), log)
    ensures Replay(Canonical(frames + open), log) == Canonical(frames + open')
    decreases |log|
  {
    var s := Canonical(frames + open);
    if log == [] {
      return;
    }
    var init := log[..|log| - 1];
    var last := log[|log| - 1];
    assert init + [last] == log;
    if Match(open, init).None? {
      MatchFailsOnward(open, init, [last]);
      assert false;
    }
    var mid := Match(open, init).value;
    MatchAppend(open, init, [last], mid);
    ReplayMatched(frames, open, init, mid);
    StepCanonical(frames, mid, last, open');
  }

  /** One matched operation on a reachable stack: a push opens its frame, a pop closes the top one. */
  lemma StepCanonical(frames: seq<string>, mid: seq<string>, op: Operation, open': seq<string>)
    requires Match(mid, [op]) == Some(open')
    ensures op.Pop? ==> Canonical(frames + mid).count != 0
    ensures Apply(Canonical(frames + mid), op) == Canonical(frames + open')
  {
    assert [op][1..] == [];
    match op
    case Push(name) =>
      assert open' == mid + [name];
      PushStep(frames, mid, name);
    case Pop(name) =>
      assert mid != [] && open' == mid[..|mid| - 1];
      PopStep(frames, mid);
  }

  lemma PushStep(frames: seq<string>, mid: seq<string>, name: string)
    ensures Apply(Canonical(frames + mid), Push(name)) == Canonical(frames + (mid + [name]))
  {
    PushCanonical(frames + mid, Some(name));
    assert frames + mid + [name] == frames + (mid + [name]);
  }

  lemma PopStep(frames: seq<string>, mid: seq<string>)
    requires mid != []
    ensures Canonical(frames + mid).count != 0
    ensures forall name :: Apply(Canonical(frames + mid), Pop(name)) == Canonical(frames + mid[..|mid| - 1])
  {
    var top := mid[|mid| - 1];
    var rest := mid[..|mid| - 1];
    assert mid == rest + [top];
    assert frames + mid == (frames + rest) + [top];
    PopCanonical(frames + rest, top);
  }

  /**
   * Replaying the synthesized log of any program, from any reachable stack,
   * never pops an empty stack and gives back exactly the stack it started
   * from: the count returns to its starting value.
   */
  lemma ReplaySynthesized(frames: seq<string>, program: Program, fuel: nat)
    ensures !PopsEmpty(Canonical(frames), Synthesize(program, fuel))
    ensures Replay(Canonical(frames), Synthesize(program, fuel)) == Canonical(frames)
    ensures Replay(Canonical(frames), Synthesize(program, fuel)).count == Canonical(frames).count
  {
    SynthesizeWellNested(program, fuel);
    assert frames + [] == frames;
    ReplayMatched(frames, [], Synthesize(program, fuel), []);
  }

  /** `startCallStackSequence`: push or pop for each operation of the log, in order. */
  method StartCallStackSequence(stack: CallStackStore, log: seq<Operation>)
    requires stack.Valid()
    modifies stack
    ensures stack.Valid()
    ensures stack.State() == Replay(old(stack.State()), log)
  {
    for i := 0 to |log|
      invariant stack.Valid()
      invariant stack.State() == Replay(old(stack.State()), log[..i])
    {
      assert log[..i + 1][..i] == log[..i];
      var operation := log[i];
      match operation {
        case Push(name) => stack.Push(Some(name));
        case Pop(_) => stack.Pop();
      }
    }
    assert log[..|log|] == log;
  }

  /**
   * `handlePlayPause`: in run mode only switches to pause; otherwise switches
   * to run, synthesizes the log of the editor's code, and replays it when it
   * is not empty. `parse` stands for the parser.
   */
  method HandlePlayPause(editor: CodeEditor.CodeEditorStore, ast: AstStore.AstStoreState, stack: CallStackStore,
                         parse: string -> Option<Program>, fuel: nat)
    requires stack.Valid()
    modifies editor, ast, stack
    ensures stack.Valid()
    ensures old(editor.currentMode) == CodeEditor.RunMode ==>
              editor.State() == CodeEditor.WithMode(old(editor.State()), CodeEditor.PauseMode) &&
              ast.State() == old(ast.State()) && stack.State() == old(stack.State())
    ensures old(editor.currentMode) != CodeEditor.RunMode ==>
              var g := AstStore.Generated(old(ast.State()), parse(old(editor.code)), fuel);
              editor.State() == CodeEditor.WithMode(old(editor.State()), CodeEditor.RunMode) &&
              ast.State() == g.0 && stack.State() == Replay(old(stack.State()), g.1)
  {
    if editor.currentMode == CodeEditor.RunMode {
      editor.ChangeMode(CodeEditor.PauseMode);
    } else {
      editor.ChangeMode(CodeEditor.RunMode);
      var sourceCode := editor.code;
      var operationLog := ast.GenerateAndStoreAst(sourceCode, parse, fuel);
      if |operationLog| > 0 {
        StartCallStackSequence(stack, operationLog);
      }
    }
  }

  /** Whatever the editor holds, play from a reachable stack leaves the stack as it was. */
  lemma PlayRestoresStack(frames: seq<string>, s: AstStore.AstState, parsed: Option<Program>, fuel: nat)
    ensures Replay(Canonical(frames), AstStore.Generated(s, parsed, fuel).1) == Canonical(frames)
    ensures !PopsEmpty(Canonical(frames), AstStore.Generated(s, parsed, fuel).1)
  {
    if parsed.Some? {
      ReplaySynthesized(frames, parsed.value, fuel);
    }
  }

  /** `handleStepBack`: only the mode changes, to step. */
  method HandleStepBack(editor: CodeEditor.CodeEditorStore)
    modifies editor
    ensures editor.State() == CodeEditor.WithMode(old(editor.State()), CodeEditor.StepMode)
  {
    editor.ChangeMode(CodeEditor.StepMode);
  }

  /** `handleStepForward`: only the mode changes, to step. */
  method HandleStepForward(editor: CodeEditor.CodeEditorStore)
    modifies editor
    ensures editor.State() == CodeEditor.WithMode(old(editor.State()), CodeEditor.StepMode)
  {
    editor.ChangeMode(CodeEditor.StepMode);
  }
}

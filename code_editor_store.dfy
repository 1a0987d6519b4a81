/**
 * The code editor store: the program text, the execution mode shown by the
 * controller, and which window (editor or AST viewer) is open.
 */
module CodeEditor {
  import opened Wrappers
  import opened Synthesizer

  /** `'step' | 'run' | 'pause' | 'stop' | 'default'`. */
  datatype Mode = StepMode | RunMode | PauseMode | StopMode | DefaultMode

  /** `"astViewer" | "codeEditor"`. */
  datatype WindowMode = AstViewer | CodeEditorWindow

  datatype Editor = Editor(code: string, mode: Mode, window: WindowMode)

  /** The program the editor opens with: `a` calls `b`, `b` calls `c`, `c` logs, and `a` is called. */
  const DefaultCode: string :=
    "function a() {\n  b();\n}\nfunction b() {\n  c();\n}\nfunction c() {\n  console.log(\"hi\");\n}\na();"

  const InitialEditor := Editor(DefaultCode, DefaultMode, CodeEditorWindow)

  function WithCode(e: Editor, code: string): (r: Editor)
    ensures r.code == code && r.mode == e.mode && r.window == e.window
  {
    e.(code := code)
  }

  function WithMode(e: Editor, mode: Mode): (r: Editor)
    ensures r.mode == mode && r.code == e.code && r.window == e.window
  {
    e.(mode := mode)
  }

  function WithWindow(e: Editor, window: WindowMode): (r: Editor)
    ensures r.window == window && r.code == e.code && r.mode == e.mode
  {
    e.(window := window)
  }

  class CodeEditorStore {
    var code: string
    var currentMode: Mode
    var currentWindowMode: WindowMode

    function State(): Editor
      reads this
    {
      Editor(code, currentMode, currentWindowMode)
    }

    constructor ()
      ensures State() == InitialEditor
    {
      code, currentMode, currentWindowMode := DefaultCode, DefaultMode, CodeEditorWindow;
    }

    method SetCode(newCode: string)
      modifies this
      ensures State() == WithCode(old(State()), newCode)
    {
      code := newCode;
    }

    method ClearCode()
      modifies this
      ensures State() == WithCode(old(State()), "")
    {
      code := "";
    }

    method ChangeMode(newMode: Mode)
      modifies this
      ensures State() == WithMode(old(State()), newMode)
    {
      currentMode := newMode;
    }

    method ChangeWindowMode(newWindowMode: WindowMode)
      modifies this
      ensures State() == WithWindow(old(State()), newWindowMode)
    {
      currentWindowMode := newWindowMode;
    }
  }

  // ----- The trace of the default program -----

  function Call(name: string): Node
  {
    ExpressionStatement(CallExpression(Identifier(name), []))
  }

  function Declare(name: string, stmts: seq<Node>): Node
  {
    FunctionDeclaration(Some(Identifier(name)), BlockStatement(stmts))
  }

  /** `console.log("hi")`; the string literal holds no node. */
  const LogCall := ExpressionStatement(CallExpression(MemberExpression(Identifier("console"), Identifier("log")), [Other([])]))

  /** The ESTree of `DefaultCode`. */
  const DefaultProgram := Program([Declare("a", [Call("b")]), Declare("b", [Call("c")]), Declare("c", [LogCall]), Call("a")])

  lemma WalkLogCall(table: FunctionTable, fuel: nat)
    ensures Walk(table, fuel, LogCall) == [Push("console.log"), Pop("console.log")]
  {
    var callee := MemberExpression(Identifier("console"), Identifier("log"));
    assert CalleeName(callee) == "console.log";
    assert !Resolves(table, callee);
    assert WalkAll(table, fuel, [Other([])]) == [];
  }

  lemma WalkCall(table: FunctionTable, fuel: nat, name: string, inner: Node, body: seq<Operation>)
    requires fuel > 0 && name in table && table[name] == Declare(name, [inner])
    requires Walk(table, fuel - 1, inner) == body
    ensures Walk(table, fuel, Call(name)) == [Push(name)] + body + [Pop(name)]
  {
    var callee := Identifier(name);
    assert Resolves(table, callee) && CalleeName(callee) == name;
    assert [inner][..0] == [];
    assert WalkAll(table, fuel - 1, [inner]) == body;
    assert Walk(table, fuel - 1, table[name].body) == body;
    assert WalkAll(table, fuel, []) == [];
    assert Walk(table, fuel, CallExpression(callee, [])) == [Push(name)] + body + [] + [Pop(name)];
  }

  /** The functions the default program declares. */
  const DefaultTable: FunctionTable := map["a" := Declare("a", [Call("b")]), "b" := Declare("b", [Call("c")]), "c" := Declare("c", [LogCall])]

  lemma DefaultProgramTable()
    ensures BuildTable(DefaultProgram.body) == DefaultTable
  {
    var body := DefaultProgram.body;
    assert body[..3] == [Declare("a", [Call("b")]), Declare("b", [Call("c")]), Declare("c", [LogCall])];
    assert body[..3][..2] == [Declare("a", [Call("b")]), Declare("b", [Call("c")])];
    assert body[..3][..2][..1] == [Declare("a", [Call("b")])];
    assert DeclaredName(body[0]) == Some("a") && DeclaredName(body[1]) == Some("b") && DeclaredName(body[2]) == Some("c");
    assert DeclaredName(body[3]) == None;
    assert BuildTable(body[..1]) == map["a" := body[0]] by {
      assert body[..1][..0] == [];
    }
    assert BuildTable(body[..2]) == map["a" := body[0], "b" := body[1]] by {
      assert body[..2][..1] == body[..1];
    }
    assert BuildTable(body[..3]) == map["a" := body[0], "b" := body[1], "c" := body[2]] by {
      assert body[..3][..2] == body[..2];
    }
    assert body[..4] == body;
  }

  /** Calling `a` with the default table: a, b, c, console.log pushed, then popped in reverse. */
  lemma WalkA(fuel: nat)
    requires fuel >= 3
    ensures Walk(DefaultTable, fuel, Call("a"))
         == [Push("a"), Push("b"), Push("c"), Push("console.log"), Pop("console.log"), Pop("c"), Pop("b"), Pop("a")]
  {
    var table := DefaultTable;
    WalkLogCall(table, fuel - 3);
    WalkCall(table, fuel - 2, "c", LogCall, [Push("console.log"), Pop("console.log")]);
    WalkCall(table, fuel - 1, "b", Call("c"), [Push("c"), Push("console.log"), Pop("console.log"), Pop("c")]);
    WalkCall(table, fuel, "a", Call("b"), [Push("b"), Push("c"), Push("console.log"), Pop("console.log"), Pop("c"), Pop("b")]);
  }

  /** With enough fuel for three nested bodies, the default program's log is a, b, c, console.log pushed, then popped in reverse. */
  lemma DefaultProgramTrace(fuel: nat)
    requires fuel >= 3
    ensures Synthesize(DefaultProgram, fuel)
         == [Push("a"), Push("b"), Push("c"), Push("console.log"), Pop("console.log"), Pop("c"), Pop("b"), Pop("a")]
  {
    var body := DefaultProgram.body;
    DefaultProgramTable();
    WalkA(fuel);
    assert body[..3] == [Declare("a", [Call("b")]), Declare("b", [Call("c")]), Declare("c", [LogCall])];
    DeclarationsAloneFrom(DefaultTable, fuel, body[..3]);
  }
}

/**
 * The call-trace synthesizer of the AST store (`buildCallStackOperationLog`).
 *
 * Phase 1 records the program's top-level named function declarations in a
 * table. Phase 2 walks every other top-level statement depth first; each call
 * expression emits `push name`, then (when its callee is a declared function)
 * the events of that function's body, then the events of its arguments, then
 * `pop name`.
 *
 * The source recurses into callee bodies without any bound, so a recursive
 * program never finishes. Here the walk carries `fuel`: entering a callee body
 * costs one unit, and with no fuel left the body is skipped while the call's
 * own push/pop pair is still emitted.
 */
module Synthesizer {
  import opened Wrappers

  /**
   * ESTree nodes, one constructor per node type the walk tells apart, and
   * `Other` for every remaining node type, holding its node-valued fields (and
   * the elements of its node-list fields) in field order. Fields that hold no
   * node (names aside, flags, literal values, `null`, source spans) are left
   * out: the walk visits nothing in them.
   */
  datatype Node =
    | CallExpression(callee: Node, arguments: seq<Node>)
    | Identifier(name: string)
    | MemberExpression(obj: Node, property: Node)  // ESTree names the first field `object`
    | BlockStatement(statements: seq<Node>)          // ESTree `body`
    | ExpressionStatement(expression: Node)
    | ReturnStatement(argument: Option<Node>)
    | IfStatement(test: Node, consequent: Node, alternate: Option<Node>)
    | VariableDeclaration(declarations: seq<Node>)
    | VariableDeclarator(target: Node, init: Option<Node>)  // ESTree `id`, `init`
    | FunctionDeclaration(id: Option<Node>, body: Node)
    | Other(children: seq<Node>)

  /** The root `Program` node: its list of top-level statements. */
  datatype Program = Program(body: seq<Node>)

  /** One entry of the call-stack operation log. */
  datatype Operation = Push(functionName: string) | Pop(functionName: string)

  /** Phase 1's `functionMap`: declared name to the declaring statement. */
  type FunctionTable = map<string, Node>

  /** `node?.name` used as a condition: the name of an identifier, when it is a non-empty string. */
  function NameOf(node: Node): Option<string>
  {
    if node.Identifier? && node.name != "" then Some(node.name) else None
  }

  /** The name under which phase 1 records a statement, if it records it at all. */
  function DeclaredName(stmt: Node): Option<string>
  {
    if stmt.FunctionDeclaration? && stmt.id.Some? then NameOf(stmt.id.value) else None
  }

  /** The label of a call, computed from its callee. */
  function CalleeName(callee: Node): (r: string)
    ensures callee.Identifier? ==> r == callee.name
    ensures callee.MemberExpression? && NameOf(callee.obj).Some? && NameOf(callee.property).Some? ==>
              r == callee.obj.name + "." + callee.property.name
    ensures callee.MemberExpression? && NameOf(callee.obj).None? && NameOf(callee.property).Some? ==>
              r == callee.property.name
    ensures !callee.Identifier? && !(callee.MemberExpression? && NameOf(callee.property).Some?) ==>
              r == "anonymous"
  {
    match callee
    case Identifier(name) => name
    case MemberExpression(obj, prop) =>
      if NameOf(obj).Some? && NameOf(prop).Some? then NameOf(obj).value + "." + NameOf(prop).value
      else if NameOf(prop).Some? then NameOf(prop).value
      else "anonymous"
    case _ => "anonymous"
  }

  /** Whether a call with this callee enters a declared body: only a plain identifier found in the table. */
  predicate Resolves(table: FunctionTable, callee: Node)
  {
    callee.Identifier? && callee.name in table && table[callee.name].FunctionDeclaration?
  }

  // ----- Phase 1 -----

  /** The function table built from a statement list, one statement after the other. */
  function BuildTable(stmts: seq<Node>): (table: FunctionTable)
    ensures forall name :: name in table ==> DeclaredName(table[name]) == Some(name)
  {
    if stmts == [] then map[]
    else
      var table := BuildTable(stmts[..|stmts| - 1]);
      var last := stmts[|stmts| - 1];
      if DeclaredName(last).Some? then table[DeclaredName(last).value := last] else table
  }

  // ----- Phase 2: the events of one walk, as functions -----

  /** The events `simulateExecution(node)` appends. */
  function Walk(table: FunctionTable, fuel: nat, node: Node): seq<Operation>
    decreases fuel, node
  {
    match node
    case CallExpression(callee, args) =>
      var name := CalleeName(callee);
      var body := if Resolves(table, callee) && fuel > 0 then Walk(table, fuel - 1, table[callee.name].body) else [];
      [Push(name)] + body + WalkAll(table, fuel, args) + [Pop(name)]
    case Identifier(_) => []
    case MemberExpression(obj, prop) => Walk(table, fuel, obj) + Walk(table, fuel, prop)
    case BlockStatement(body) => WalkAll(table, fuel, body)
    case ExpressionStatement(e) => Walk(table, fuel, e)
    case ReturnStatement(arg) => if arg.Some? then Walk(table, fuel, arg.value) else []
    case IfStatement(test, cons, alt) =>
      Walk(table, fuel, test) + Walk(table, fuel, cons) + (if alt.Some? then Walk(table, fuel, alt.value) else [])
    case VariableDeclaration(decls) => WalkInits(table, fuel, decls)
    case VariableDeclarator(id, init) => Walk(table, fuel, id) + (if init.Some? then Walk(table, fuel, init.value) else [])
    case FunctionDeclaration(_, _) => []
    case Other(children) => WalkAll(table, fuel, children)
  }

  /** The events of walking a node list in order (`list.forEach(simulateExecution)`). */
  function WalkAll(table: FunctionTable, fuel: nat, nodes: seq<Node>): seq<Operation>
    decreases fuel, nodes
  {
    if nodes == [] then []
    else WalkAll(table, fuel, nodes[..|nodes| - 1]) + Walk(table, fuel, nodes[|nodes| - 1])
  }

  /** The events of a declaration list: only the initialisers are walked. */
  function WalkInits(table: FunctionTable, fuel: nat, decls: seq<Node>): seq<Operation>
    decreases fuel, decls
  {
    if decls == [] then []
    else WalkInits(table, fuel, decls[..|decls| - 1]) + WalkInit(table, fuel, decls[|decls| - 1])
  }

  /** The events of one declarator inside a variable declaration: those of its initialiser, if any. */
  function WalkInit(table: FunctionTable, fuel: nat, decl: Node): seq<Operation>
    decreases fuel, decl
  {
    if decl.VariableDeclarator? && decl.init.Some? then Walk(table, fuel, decl.init.value) else []
  }

  /** The events of the top-level loop: every statement that is not a function declaration, in order. */
  function TopLevel(table: FunctionTable, fuel: nat, stmts: seq<Node>): seq<Operation>
  {
    if stmts == [] then []
    else
      var last := stmts[|stmts| - 1];
      TopLevel(table, fuel, stmts[..|stmts| - 1]) + (if last.FunctionDeclaration? then [] else Walk(table, fuel, last))
  }

  /** The whole operation log of a program. */
  function Synthesize(program: Program, fuel: nat): seq<Operation>
  {
    TopLevel(BuildTable(program.body), fuel, program.body)
  }

  // ----- The same two phases as the source runs them -----

  /** Phase 1: fill the table while looping over the top-level statements. */
  method CollectFunctions(body: seq<Node>) returns (table: FunctionTable)
    ensures table == BuildTable(body)
  {
    table := map[];
    for i := 0 to |body|
      invariant table == BuildTable(body[..i])
    {
      assert body[..i + 1][..i] == body[..i];
      var stmt := body[i];
      if stmt.FunctionDeclaration? && stmt.id.Some? && NameOf(stmt.id.value).Some? {
        table := table[stmt.id.value.name := stmt];
      }
    }
    assert body[..|body|] == body;
  }

  /** `simulateExecution(node)`: appends the node's events to the log `ops`. */
  method Simulate(table: FunctionTable, fuel: nat, node: Node, ops: seq<Operation>) returns (out: seq<Operation>)
    ensures out == ops + Walk(table, fuel, node)
    decreases fuel, node, 1
  {
    match node {
      case CallExpression(_, _) =>
        out := SimulateCall(table, fuel, node, ops);
      case Identifier(_) =>
        out := ops;
      case MemberExpression(_, _) =>
        out := SimulateMember(table, fuel, node, ops);
      case BlockStatement(body) =>
        out := SimulateAll(table, fuel, body, ops);
      case ExpressionStatement(e) =>
        out := Simulate(table, fuel, e, ops);
      case ReturnStatement(arg) =>
        out := ops;
        if arg.Some? {
          out := Simulate(table, fuel, arg.value, out);
        }
      case IfStatement(_, _, _) =>
        out := SimulateIf(table, fuel, node, ops);
      case VariableDeclaration(decls) =>
        out := SimulateInits(table, fuel, decls, ops);
      case VariableDeclarator(_, _) =>
        out := SimulateDeclarator(table, fuel, node, ops);
      case FunctionDeclaration(_, _) =>
        out := ops;
      case Other(children) =>
        out := SimulateAll(table, fuel, children, ops);
    }
  }

  /** The generic traversal of a member expression: its object, then its property. */
  method SimulateMember(table: FunctionTable, fuel: nat, node: Node, ops: seq<Operation>) returns (out: seq<Operation>)
    requires node.MemberExpression?
    ensures out == ops + Walk(table, fuel, node)
    decreases fuel, node, 0
  {
    out := Simulate(table, fuel, node.obj, ops);
    out := Simulate(table, fuel, node.property, out);
  }

  /** The `IfStatement` case: test, consequent, then the alternate if present. */
  method SimulateIf(table: FunctionTable, fuel: nat, node: Node, ops: seq<Operation>) returns (out: seq<Operation>)
    requires node.IfStatement?
    ensures out == ops + Walk(table, fuel, node)
    decreases fuel, node, 0
  {
    out := Simulate(table, fuel, node.test, ops);
    out := Simulate(table, fuel, node.consequent, out);
    if node.alternate.Some? {
      out := Simulate(table, fuel, node.alternate.value, out);
    }
  }

  /** The generic traversal of a declarator met outside a declaration: its target, then its initialiser. */
  method SimulateDeclarator(table: FunctionTable, fuel: nat, node: Node, ops: seq<Operation>) returns (out: seq<Operation>)
    requires node.VariableDeclarator?
    ensures out == ops + Walk(table, fuel, node)
    decreases fuel, node, 0
  {
    out := Simulate(table, fuel, node.target, ops);
    if node.init.Some? {
      out := Simulate(table, fuel, node.init.value, out);
    }
  }

  /** The call case: push, the declared body if the callee resolves, the arguments, pop. */
  method SimulateCall(table: FunctionTable, fuel: nat, node: Node, ops: seq<Operation>) returns (out: seq<Operation>)
    requires node.CallExpression?
    ensures out == ops + Walk(table, fuel, node)
    decreases fuel, node, 0
  {
    var callee, args := node.callee, node.arguments;
    var name := CalleeName(callee);
    out := ops + [Push(name)];
    if callee.Identifier? && callee.name in table {
      var fn := table[callee.name];
      if fn.FunctionDeclaration? && fuel > 0 {
        out := Simulate(table, fuel - 1, fn.body, out);
      }
    }
    out := SimulateAll(table, fuel, args, out);
    out := out + [Pop(name)];
  }

  /** `node.declarations.forEach(...)`: the initialisers, in order. */
  method SimulateInits(table: FunctionTable, fuel: nat, decls: seq<Node>, ops: seq<Operation>) returns (out: seq<Operation>)
    ensures out == ops + WalkInits(table, fuel, decls)
    decreases fuel, decls
  {
    out := ops;
    for i := 0 to |decls|
      invariant out == ops + WalkInits(table, fuel, decls[..i])
    {
      assert decls[..i + 1][..i] == decls[..i];
      out := SimulateInit(table, fuel, decls[i], out);
    }
    assert decls[..|decls|] == decls;
  }

  /** `nodes.forEach(simulateExecution)`. */
  method SimulateAll(table: FunctionTable, fuel: nat, nodes: seq<Node>, ops: seq<Operation>) returns (out: seq<Operation>)
    ensures out == ops + WalkAll(table, fuel, nodes)
    decreases fuel, nodes
  {
    out := ops;
    for i := 0 to |nodes|
      invariant out == ops + WalkAll(table, fuel, nodes[..i])
    {
      assert nodes[..i + 1][..i] == nodes[..i];
      out := Simulate(table, fuel, nodes[i], out);
    }
    assert nodes[..|nodes|] == nodes;
  }

  /** `if (decl.init) simulateExecution(decl.init)`. */
  method SimulateInit(table: FunctionTable, fuel: nat, decl: Node, ops: seq<Operation>) returns (out: seq<Operation>)
    ensures out == ops + WalkInit(table, fuel, decl)
    decreases fuel, decl
  {
    out := ops;
    if decl.VariableDeclarator? && decl.init.Some? {
      out := Simulate(table, fuel, decl.init.value, out);
    }
  }

  /** `buildCallStackOperationLog`: phase 1, then the top-level loop of phase 2. */
  method BuildLog(program: Program, fuel: nat) returns (ops: seq<Operation>)
    ensures ops == Synthesize(program, fuel)
  {
    var table := CollectFunctions(program.body);
    var body := program.body;
    ops := [];
    for i := 0 to |body|
      invariant ops == TopLevel(table, fuel, body[..i])
    {
      assert body[..i + 1][..i] == body[..i];
      var stmt := body[i];
      if !stmt.FunctionDeclaration? {
        ops := Simulate(table, fuel, stmt, ops);
      }
    }
    assert body[..|body|] == body;
  }

  // ----- Well-nestedness -----

  /**
   * Reads a log against a stack of open call labels: a push opens its label, a
   * pop must close the most recently opened one with the identical label.
   * None when some pop does not match.
   */
  function Match(open: seq<string>, ops: seq<Operation>): Option<seq<string>>
    decreases |ops|
  {
    if ops == [] then Some(open)
    else match ops[0]
      case Push(name) => Match(open + [name], ops[1..])
      case Pop(name) =>
        if open != [] && open[|open| - 1] == name then Match(open[..|open| - 1], ops[1..]) else None
  }

  /** A log whose pushes and pops pair up with identical labels, properly nested, with nothing left open. */
  predicate WellNested(ops: seq<Operation>)
  {
    Match([], ops) == Some([])
  }

  lemma {:induction false} MatchAppend(open: seq<string>, a: seq<Operation>, b: seq<Operation>, mid: seq<string>)
    requires Match(open, a) == Some(mid)
    ensures Match(open, a + b) == Match(mid, b)
    decreases |a|
  {
    if a == [] {
      assert a + b == b;
    } else {
      assert (a + b)[0] == a[0];
      assert (a + b)[1..] == a[1..] + b;
      match a[0]
      case Push(name) => MatchAppend(open + [name], a[1..], b, mid);
      case Pop(name) => MatchAppend(open[..|open| - 1], a[1..], b, mid);
    }
  }

  /** Two blocks that each leave the open stack as they found it, one after the other. */
  lemma MatchBalancedPair(open: seq<string>, a: seq<Operation>, b: seq<Operation>)
    requires Match(open, a) == Some(open) && Match(open, b) == Some(open)
    ensures Match(open, a + b) == Some(open)
  {
    MatchAppend(open, a, b, open);
  }

  /** The events of any node close every call they open, with the identical label, whatever is already open. */
  lemma {:induction false} WalkNested(table: FunctionTable, fuel: nat, node: Node, open: seq<string>)
    ensures Match(open, Walk(table, fuel, node)) == Some(open)
    decreases fuel, node
  {
    match node
    case CallExpression(callee, args) =>
      var name := CalleeName(callee);
      var inner := open + [name];
      var body := if Resolves(table, callee) && fuel > 0 then Walk(table, fuel - 1, table[callee.name].body) else [];
      if Resolves(table, callee) && fuel > 0 {
        WalkNested(table, fuel - 1, table[callee.name].body, inner);
      }
      WalkAllNested(table, fuel, args, inner);
      MatchBalancedPair(inner, body, WalkAll(table, fuel, args));
      var middle := body + WalkAll(table, fuel, args);
      assert Match(inner, [Pop(name)]) == Some(open) by {
        assert inner[..|inner| - 1] == open;
      }
      MatchAppend(inner, middle, [Pop(name)], inner);
      var t := [Push(name)] + body + WalkAll(table, fuel, args) + [Pop(name)];
      assert t == [Push(name)] + (middle + [Pop(name)]);
      assert t[0] == Push(name) && t[1..] == middle + [Pop(name)];
    case Identifier(_) =>
    case MemberExpression(obj, prop) =>
      WalkNested(table, fuel, obj, open);
      WalkNested(table, fuel, prop, open);
      MatchBalancedPair(open, Walk(table, fuel, obj), Walk(table, fuel, prop));
    case BlockStatement(body) =>
      WalkAllNested(table, fuel, body, open);
    case ExpressionStatement(e) =>
      WalkNested(table, fuel, e, open);
    case ReturnStatement(arg) =>
      if arg.Some? {
        WalkNested(table, fuel, arg.value, open);
      }
    case IfStatement(test, cons, alt) =>
      WalkNested(table, fuel, test, open);
      WalkNested(table, fuel, cons, open);
      MatchBalancedPair(open, Walk(table, fuel, test), Walk(table, fuel, cons));
      if alt.Some? {
        WalkNested(table, fuel, alt.value, open);
        MatchBalancedPair(open, Walk(table, fuel, test) + Walk(table, fuel, cons), Walk(table, fuel, alt.value));
      } else {
        assert Walk(table, fuel, node) == Walk(table, fuel, test) + Walk(table, fuel, cons);
      }
    case VariableDeclaration(decls) =>
      WalkInitsNested(table, fuel, decls, open);
    case VariableDeclarator(id, init) =>
      WalkNested(table, fuel, id, open);
      if init.Some? {
        WalkNested(table, fuel, init.value, open);
        MatchBalancedPair(open, Walk(table, fuel, id), Walk(table, fuel, init.value));
      } else {
        assert Walk(table, fuel, node) == Walk(table, fuel, id);
      }
    case FunctionDeclaration(_, _) =>
    case Other(children) =>
      WalkAllNested(table, fuel, children, open);
  }

  lemma {:induction false} WalkAllNested(table: FunctionTable, fuel: nat, nodes: seq<Node>, open: seq<string>)
    ensures Match(open, WalkAll(table, fuel, nodes)) == Some(open)
    decreases fuel, nodes
  {
    if nodes != [] {
      WalkAllNested(table, fuel, nodes[..|nodes| - 1], open);
      WalkNested(table, fuel, nodes[|nodes| - 1], open);
      MatchBalancedPair(open, WalkAll(table, fuel, nodes[..|nodes| - 1]), Walk(table, fuel, nodes[|nodes| - 1]));
    }
  }

  lemma {:induction false} WalkInitsNested(table: FunctionTable, fuel: nat, decls: seq<Node>, open: seq<string>)
    ensures Match(open, WalkInits(table, fuel, decls)) == Some(open)
    decreases fuel, decls
  {
    if decls != [] {
      var last := decls[|decls| - 1];
      WalkInitsNested(table, fuel, decls[..|decls| - 1], open);
      WalkInitNested(table, fuel, last, open);
      MatchBalancedPair(open, WalkInits(table, fuel, decls[..|decls| - 1]), WalkInit(table, fuel, last));
    }
  }

  lemma {:induction false} WalkInitNested(table: FunctionTable, fuel: nat, decl: Node, open: seq<string>)
    ensures Match(open, WalkInit(table, fuel, decl)) == Some(open)
    decreases fuel, decl
  {
    if decl.VariableDeclarator? && decl.init.Some? {
      WalkNested(table, fuel, decl.init.value, open);
    }
  }

  lemma {:induction false} TopLevelNested(table: FunctionTable, fuel: nat, stmts: seq<Node>, open: seq<string>)
    ensures Match(open, TopLevel(table, fuel, stmts)) == Some(open)
  {
    if stmts != [] {
      var last := stmts[|stmts| - 1];
      TopLevelNested(table, fuel, stmts[..|stmts| - 1], open);
      var tail := if last.FunctionDeclaration? then [] else Walk(table, fuel, last);
      if !last.FunctionDeclaration? {
        WalkNested(table, fuel, last, open);
      }
      MatchBalancedPair(open, TopLevel(table, fuel, stmts[..|stmts| - 1]), tail);
    }
  }

  /** The synthesized log of any program is well nested: every push is closed by a pop with the identical label. */
  lemma SynthesizeWellNested(program: Program, fuel: nat)
    ensures WellNested(Synthesize(program, fuel))
  {
    TopLevelNested(BuildTable(program.body), fuel, program.body, []);
  }

  /** A call's events open with its push, close with the pop of the identical label, and are well nested in between. */
  lemma CallFrame(table: FunctionTable, fuel: nat, callee: Node, args: seq<Node>)
    ensures var t := Walk(table, fuel, CallExpression(callee, args));
            |t| >= 2 && t[0] == Push(CalleeName(callee)) && t[|t| - 1] == Pop(CalleeName(callee))
            && WellNested(t[1..|t| - 1])
  {
    var body := if Resolves(table, callee) && fuel > 0 then Walk(table, fuel - 1, table[callee.name].body) else [];
    if Resolves(table, callee) && fuel > 0 {
      WalkNested(table, fuel - 1, table[callee.name].body, []);
    }
    WalkAllNested(table, fuel, args, []);
    MatchBalancedPair([], body, WalkAll(table, fuel, args));
    var t := Walk(table, fuel, CallExpression(callee, args));
    assert t[1..|t| - 1] == body + WalkAll(table, fuel, args);
  }

  /** A callee that is not a plain identifier found in the table never enters a declared body. */
  lemma UnresolvedCallSkipsBodies(table: FunctionTable, fuel: nat, callee: Node, args: seq<Node>)
    requires !callee.Identifier? || callee.name !in table
    ensures Walk(table, fuel, CallExpression(callee, args))
         == [Push(CalleeName(callee))] + WalkAll(table, fuel, args) + [Pop(CalleeName(callee))]
  {
  }

  // ----- The function table -----

  /** A name is in the table exactly when some top-level statement declares a function of that name. */
  lemma {:induction false} BuildTableKeys(stmts: seq<Node>, name: string)
    ensures name in BuildTable(stmts) <==> exists i :: 0 <= i < |stmts| && DeclaredName(stmts[i]) == Some(name)
  {
    if stmts != [] {
      var init := stmts[..|stmts| - 1];
      BuildTableKeys(init, name);
      if name in BuildTable(init) {
        var i :| 0 <= i < |init| && DeclaredName(init[i]) == Some(name);
        assert stmts[i] == init[i];
      }
      if exists i :: 0 <= i < |stmts| && DeclaredName(stmts[i]) == Some(name) {
        var i :| 0 <= i < |stmts| && DeclaredName(stmts[i]) == Some(name);
        if i < |init| {
          assert init[i] == stmts[i];
        }
      }
    }
  }

  /** The table keeps the last declaration of each name: a later one overwrites an earlier one. */
  lemma {:induction false} BuildTableLastWins(stmts: seq<Node>, i: nat)
    requires i < |stmts| && DeclaredName(stmts[i]).Some?
    requires forall j :: i < j < |stmts| ==> DeclaredName(stmts[j]) != DeclaredName(stmts[i])
    ensures DeclaredName(stmts[i]).value in BuildTable(stmts)
    ensures BuildTable(stmts)[DeclaredName(stmts[i]).value] == stmts[i]
  {
    if i < |stmts| - 1 {
      var init := stmts[..|stmts| - 1];
      assert init[i] == stmts[i];
      forall j | i < j < |init| ensures DeclaredName(init[j]) != DeclaredName(init[i]) {
        assert init[j] == stmts[j];
      }
      BuildTableLastWins(init, i);
    }
  }

  // ----- The top-level loop -----

  /** Appending a statement that is not a function declaration appends exactly its own events, and the table is unchanged. */
  lemma AppendStatement(body: seq<Node>, stmt: Node, fuel: nat)
    requires !stmt.FunctionDeclaration?
    ensures BuildTable(body + [stmt]) == BuildTable(body)
    ensures Synthesize(Program(body + [stmt]), fuel) == Synthesize(Program(body), fuel) + Walk(BuildTable(body), fuel, stmt)
  {
    assert (body + [stmt])[..|body|] == body;
  }

  /** A program made of function declarations only synthesizes nothing. */
  lemma {:induction false} DeclarationsAlone(body: seq<Node>, fuel: nat)
    requires forall i :: 0 <= i < |body| ==> body[i].FunctionDeclaration?
    ensures Synthesize(Program(body), fuel) == []
  {
    DeclarationsAloneFrom(BuildTable(body), fuel, body);
  }

  lemma {:induction false} DeclarationsAloneFrom(table: FunctionTable, fuel: nat, stmts: seq<Node>)
    requires forall i :: 0 <= i < |stmts| ==> stmts[i].FunctionDeclaration?
    ensures TopLevel(table, fuel, stmts) == []
  {
    if stmts != [] {
      var init := stmts[..|stmts| - 1];
      forall i | 0 <= i < |init| ensures init[i].FunctionDeclaration? {
        assert init[i] == stmts[i];
      }
      DeclarationsAloneFrom(table, fuel, init);
    }
  }
}

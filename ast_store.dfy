/**
 * The AST store: the last program parsed and the call-stack operation log
 * synthesized from it. The parser itself is a parameter: for each source text
 * it either yields a program or fails (Acorn throwing a syntax error).
 */
module AstStore {
  import opened Wrappers
  import opened Synthesizer

  /** The store's fields `generatedAst` and `CallStackOperationLog`. */
  datatype AstState = AstState(generatedAst: Option<Program>, log: seq<Operation>)

  const InitialAstState := AstState(None, [])

  /**
   * `GenerateAndStoreAst`: on a parse, the program and its synthesized log are
   * stored and the log returned; on a failure nothing is stored and the empty
   * log is returned.
   */
  function Generated(s: AstState, parsed: Option<Program>, fuel: nat): (r: (AstState, seq<Operation>))
    ensures parsed.None? ==> r == (s, [])
    ensures parsed.Some? ==> r.0 == AstState(parsed, r.1) && r.1 == Synthesize(parsed.value, fuel)
    ensures WellNested(r.1)
  {
    if parsed.Some? then
      var ops := Synthesize(parsed.value, fuel);
      SynthesizeWellNested(parsed.value, fuel);
      (AstState(parsed, ops), ops)
    else
      assert WellNested([]);
      (s, [])
  }

  class AstStoreState {
    var generatedAst: Option<Program>
    var callStackOperationLog: seq<Operation>

    function State(): AstState
      reads this
    {
      AstState(generatedAst, callStackOperationLog)
    }

    constructor ()
      ensures State() == InitialAstState
    {
      generatedAst, callStackOperationLog := None, [];
    }

    method GenerateAndStoreAst(code: string, parse: string -> Option<Program>, fuel: nat) returns (ops: seq<Operation>)
      modifies this
      ensures (State(), ops) == Generated(old(State()), parse(code), fuel)
    {
      var ast := parse(code);  // `ParseCodeToAST`: None when the parser throws
      if ast.Some? {
        var callStackOps := BuildLog(ast.value, fuel);
        generatedAst, callStackOperationLog := ast, callStackOps;
        return callStackOps;
      } else {
        return [];
      }
    }

    method ClearAst()
      modifies this
      ensures State() == InitialAstState
    {
      generatedAst, callStackOperationLog := None, [];
    }
  }
}

/** The legacy JavaScript generator (interpreter/codegen_js.py): the first generator of
    the prototype, with five statement kinds and a total expression printer.

    It shares its line format, operator map, parameter names, program header and export
    with the generator of src/vl/codegen/javascript.py, so those are taken from
    `CodegenJs`; its own expression printer and statement lines are defined here, and
    `LegacyJsProofs` proves that on the constructs both generators handle the two print
    the same text. */
module LegacyJs {
  import opened Wrappers
  import opened Strings
  import opened Ast
  import opened CodegenBase
  import CodegenJs

  // ----- Expressions -----

  /** `_generate_expression`: literals, names, operations, calls, arrays, objects and
      member access; every other node, and an operation without operands, prints as the
      `/* Unknown Expr: X */` comment. */
  function LExpr(node: Node): string
    decreases node, 2
  {
    if node.NumberLiteral? then NumberText(node.number)
    else if node.StringLiteral? then
      var quote := if node.isTemplate then "`" else "'";
      quote + node.text + quote
    else if node.BooleanLiteral? then (if node.flag then "true" else "false")
    else if node.Identifier? || node.VariableRef? then node.name
    else if node.Operation? && |node.operands| == 1 then
      CodegenJs.MapOperator(node.operator) + "(" + LExpr(node.operands[0]) + ")"
    else if node.Operation? && |node.operands| >= 2 then
      "(" + Join(LExprs(node.operands), " " + CodegenJs.MapOperator(node.operator) + " ") + ")"
    else if node.FunctionCall? then LExpr(node.callee) + "(" + Join(LExprs(node.arguments), ", ") + ")"
    else if node.ArrayLiteral? then "[" + Join(LExprs(node.elements), ", ") + "]"
    else if node.ObjectLiteral? then "{ " + Join(LPairTexts(node.pairs), ", ") + " }"
    else if node.MemberAccess? then LExpr(node.target) + "." + node.property
    else CodegenJs.UnknownExpr(node)
  }

  /** The printed expressions of a list, in order. */
  function LExprs(nodes: seq<Node>): (r: seq<string>)
    ensures |r| == |nodes|
    decreases nodes
  {
    if nodes == [] then [] else [LExpr(nodes[0])] + LExprs(nodes[1..])
  }

  /** `key: value` for each object entry, in order. */
  function LPairTexts(pairs: seq<Pair>): (r: seq<string>)
    ensures |r| == |pairs|
    decreases pairs
  {
    if pairs == [] then [] else [pairs[0].key + ": " + LExpr(pairs[0].value)] + LPairTexts(pairs[1..])
  }

  // ----- Statements -----

  /** The lines the statement generators emit for `stmt` at indentation `level`. */
  function LStmtLines(stmt: Node, level: int): seq<string>
    decreases stmt, 1
  {
    if stmt.FunctionDef? then LFunctionLines(stmt, level)
    else if stmt.VariableDef? then [CodegenJs.Line(level, "let " + stmt.name + " = " + LExpr(stmt.value) + ";")]
    else if stmt.ReturnStmt? then [CodegenJs.Line(level, "return " + LExpr(stmt.value) + ";")]
    else if stmt.DirectCall? then [CodegenJs.Line(level, LExpr(stmt.call) + ";")]
    else if stmt.IfStmt? then LIfLines(stmt, level)
    else [CodegenJs.Line(level, CodegenJs.UnsupportedComment(stmt))]
  }

  /** A function: the header, the body one level deeper, `}` and a blank line. */
  function LFunctionLines(stmt: Node, level: int): seq<string>
    requires stmt.FunctionDef?
    decreases stmt, 0
  {
    [CodegenJs.Line(level, CodegenJs.FunctionHeader(stmt))] + LBody(stmt.body, level + 1)
    + [CodegenJs.Line(level, "}"), ""]
  }

  /** The ternary `if` as a block: both branches as expression statements. */
  function LIfLines(stmt: Node, level: int): seq<string>
    requires stmt.IfStmt?
  {
    [CodegenJs.Line(level, "if (" + LExpr(stmt.condition) + ") {"), CodegenJs.Line(level + 1, LExpr(stmt.trueExpr) + ";"),
     CodegenJs.Line(level, "} else {"), CodegenJs.Line(level + 1, LExpr(stmt.falseExpr) + ";"),
     CodegenJs.Line(level, "}")]
  }

  /** The lines of a statement list, in order. */
  function LBody(body: seq<Node>, level: int): seq<string>
    decreases body
  {
    if body == [] then [] else LBody(body[..|body| - 1], level) + LStmtLines(body[|body| - 1], level)
  }

  /** Emitting the lines of `body[i]` after those of `body[..i]` gives those of `body[..i + 1]`. */
  lemma LBodySnoc(body: seq<Node>, i: nat, level: int, start: seq<string>, before: seq<string>, after: seq<string>)
    requires i < |body| && before == start + LBody(body[..i], level)
    requires after == before + LStmtLines(body[i], level)
    ensures after == start + LBody(body[..i + 1], level)
  {
    var longer := body[..i + 1];
    assert longer[..|longer| - 1] == body[..i] && longer[|longer| - 1] == body[i];
    assert LBody(longer, level) == LBody(body[..i], level) + LStmtLines(body[i], level);
  }

  /** `_generate_program`: the metadata comments and `require` lines, the statements, then
      the export. */
  function LProgramLines(prog: Node, level: int): seq<string>
    requires IsProgram(prog)
  {
    CodegenJs.HeaderLines(prog, level) + LBody(prog.statements, level) + CodegenJs.ExportLines(prog.exportDecl, level)
  }

  class JSCodeGenerator {
    const ast: Node
    var output: seq<string>
    var indentLevel: int

    constructor (ast: Node)
      ensures this.ast == ast && output == [] && indentLevel == 0
    {
      this.ast := ast;
      output := [];
      indentLevel := 0;
    }

    /** `generate`: the output is cleared first, so the text depends only on the tree and
        the level. */
    method Generate() returns (text: string)
      requires IsProgram(ast)
      modifies this
      ensures output == LProgramLines(ast, old(indentLevel)) && indentLevel == old(indentLevel)
      ensures text == Join(output, "\n")
    {
      output := [];
      GenerateProgram(ast);
      text := Join(output, "\n");
    }

    /** `_emit`: the line at the current indentation, or an empty line. */
    method Emit(code: string)
      modifies this
      ensures output == old(output) + [CodegenJs.Line(indentLevel, code)] && indentLevel == old(indentLevel)
    {
      output := output + [CodegenJs.Line(indentLevel, code)];
    }

    /** `_generate_program`: the header, the statements, then the export. */
    method GenerateProgram(node: Node)
      requires IsProgram(node)
      modifies this
      ensures output == old(output) + LProgramLines(node, old(indentLevel)) && indentLevel == old(indentLevel)
    {
      GenerateHeader(node);
      GenerateBody(node.statements);
      GenerateExport(node.exportDecl);
    }

    /** The metadata comments and the `require` lines. */
    method GenerateHeader(node: Node)
      requires IsProgram(node)
      modifies this
      ensures output == old(output) + CodegenJs.HeaderLines(node, old(indentLevel)) && indentLevel == old(indentLevel)
    {
      GenerateMetadata(node.metadata);
      GenerateDependencies(node.dependencies);
    }

    /** The metadata comments and a blank line. */
    method GenerateMetadata(metadata: Option<Node>)
      requires metadata.Some? ==> metadata.value.Metadata?
      modifies this
      ensures output == old(output) + CodegenJs.MetadataLines(metadata, old(indentLevel)) && indentLevel == old(indentLevel)
    {
      if metadata.Some? {
        var m := metadata.value;
        Emit("// VL Program: " + m.name);
        Emit("// Type: " + m.programType);
        Emit("// Target: " + m.targetLanguage);
        Emit("");
      }
    }

    /** One `require` per dependency and a blank line. */
    method GenerateDependencies(dependencies: Option<Node>)
      requires dependencies.Some? ==> dependencies.value.Dependencies?
      modifies this
      ensures output == old(output) + CodegenJs.DependencyLines(dependencies, old(indentLevel)) && indentLevel == old(indentLevel)
    {
      if dependencies.Some? {
        var deps := dependencies.value.deps;
        for i := 0 to |deps|
          invariant indentLevel == old(indentLevel) && output == old(output) + CodegenJs.RequireLines(deps[..i], indentLevel)
        {
          Emit("const " + deps[i] + " = require('" + deps[i] + "');");
        }
        assert deps[..|deps|] == deps;
        Emit("");
      }
    }

    /** A blank line and the `module.exports` line. */
    method GenerateExport(exportDecl: Option<Node>)
      requires exportDecl.Some? ==> exportDecl.value.Export?
      modifies this
      ensures output == old(output) + CodegenJs.ExportLines(exportDecl, old(indentLevel)) && indentLevel == old(indentLevel)
    {
      if exportDecl.Some? {
        Emit("");
        Emit("module.exports = { " + exportDecl.value.name + " };");
      }
    }

    /** `_generate_statement`: the handler of the statement's class, or the warning. */
    method GenerateStatement(stmt: Node)
      modifies this
      ensures output == old(output) + LStmtLines(stmt, old(indentLevel)) && indentLevel == old(indentLevel)
      decreases stmt, 2
    {
      if stmt.FunctionDef? {
        GenerateFunctionDef(stmt);
      } else if stmt.VariableDef? {
        Emit("let " + stmt.name + " = " + LExpr(stmt.value) + ";");
      } else if stmt.ReturnStmt? {
        Emit("return " + LExpr(stmt.value) + ";");
      } else if stmt.DirectCall? {
        Emit(LExpr(stmt.call) + ";");
      } else if stmt.IfStmt? {
        GenerateIfStmt(stmt);
      } else {
        Emit(CodegenJs.UnsupportedComment(stmt));
      }
    }

    /** The statements of a block, in order, at the current level. */
    method GenerateBody(body: seq<Node>)
      modifies this
      ensures output == old(output) + LBody(body, old(indentLevel)) && indentLevel == old(indentLevel)
      decreases body, 0
    {
      for i := 0 to |body|
        invariant indentLevel == old(indentLevel) && output == old(output) + LBody(body[..i], indentLevel)
      {
        ghost var before := output;
        GenerateStatement(body[i]);
        LBodySnoc(body, i, indentLevel, old(output), before, output);
      }
      assert body[..|body|] == body;
    }

    /** `_generate_function_def`: the header, the body one level deeper, `}` and a blank
        line. */
    method GenerateFunctionDef(node: Node)
      requires node.FunctionDef?
      modifies this
      ensures output == old(output) + LFunctionLines(node, old(indentLevel)) && indentLevel == old(indentLevel)
      decreases node, 1
    {
      ghost var level := indentLevel;
      var params := Join(CodegenJs.ParamNames(|node.inputTypes|), ", ");
      Emit("function " + node.name + "(" + params + ") {");
      ghost var afterHeader := output;
      indentLevel := indentLevel + 1;
      GenerateBody(node.body);
      ghost var afterBody := output;
      indentLevel := indentLevel - 1;
      Emit("}");
      Emit("");
      CodegenJs.BlockSteps(old(output), afterHeader, afterBody, output, CodegenJs.Line(level, CodegenJs.FunctionHeader(node)),
        LBody(node.body, level + 1), [CodegenJs.Line(level, "}"), ""]);
    }

    /** `_generate_if_stmt`: both branches as expression statements, one level deeper. */
    method GenerateIfStmt(node: Node)
      requires node.IfStmt?
      modifies this
      ensures output == old(output) + LIfLines(node, old(indentLevel)) && indentLevel == old(indentLevel)
    {
      var condition := LExpr(node.condition);
      var trueCode := LExpr(node.trueExpr);
      var falseCode := LExpr(node.falseExpr);
      Emit("if (" + condition + ") {");
      indentLevel := indentLevel + 1;
      Emit(trueCode + ";");
      indentLevel := indentLevel - 1;
      Emit("} else {");
      indentLevel := indentLevel + 1;
      Emit(falseCode + ";");
      indentLevel := indentLevel - 1;
      Emit("}");
    }
  }
}

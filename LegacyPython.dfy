/** The legacy Python generator (interpreter/codegen_python.py): four-space indentation,
    every statement kind of the prototype, and an expression printer that never fails,
    falling back to `None # TODO: X` for the node kinds it does not know.

    `_process_string_template`, which re-runs the lexer and the parser on each `${...}`
    part of a string and swallows their errors, is the parameter `tmpl` of every printer
    here and the constant `template` of the generator. */
module LegacyPython {
  import opened Wrappers
  import opened Strings
  import opened Ast
  import opened CodegenBase

  /** `_emit` at `indent_level`: four spaces per level, or "" for an empty line. */
  function Line(level: int, code: string): string {
    IndentedLine("    ", level, code)
  }

  // ----- Expressions -----

  /** The operator map of `_generate_operation`: the logical operators become Python's
      keywords and every other operator is kept as written. */
  function PyOperator(op: string): (r: string)
    ensures op !in {"&&", "||", "!"} ==> r == op
    ensures r == "and" <==> op == "&&" || op == "and"
    ensures r == "or" <==> op == "||" || op == "or"
    ensures r == "not" <==> op == "!" || op == "not"
  {
    if op == "&&" then "and" else if op == "||" then "or" else if op == "!" then "not" else op
  }

  /** `_generate_operation` on the printed operands: `op x` for one operand, `(l op r)` for
      two, and `op(a, b, ...)` for any other count. */
  function OperationText(op: string, operands: seq<string>): string {
    var o := PyOperator(op);
    if |operands| == 1 then o + " " + operands[0]
    else if |operands| == 2 then "(" + operands[0] + " " + o + " " + operands[1] + ")"
    else o + "(" + Join(operands, ", ") + ")"
  }

  /** What an `if` whose branch is a `return` prints as inside an expression. */
  const ReturnBranchPlaceholder := "None" + "  # ERROR: If with return branches should not be in expression context"

  /** What a lambda prints as when its body holds no `return`. */
  const ComplexBody := "None  # Complex function body"

  /** `_generate_expression`. */
  function PyExpr(node: Node, tmpl: string -> string): string
    decreases node, 2
  {
    if node.NumberLiteral? then NumberText(node.number)
    else if node.RangeExpr? then "range(" + PyExpr(node.start, tmpl) + ", " + PyExpr(node.end, tmpl) + ")"
    else if node.StringLiteral? then (if Contains(node.text, "${") then tmpl(node.text) else "'" + node.text + "'")
    else if node.BooleanLiteral? then (if node.flag then "True" else "False")
    else if node.Identifier? || node.VariableRef? then node.name
    else if node.FunctionCall? then PyExpr(node.callee, tmpl) + "(" + Join(PyExprs(node.arguments, tmpl), ", ") + ")"
    else if node.MemberAccess? then PyExpr(node.target, tmpl) + "." + node.property
    else if node.Operation? then OperationText(node.operator, PyExprs(node.operands, tmpl))
    else if node.ArrayLiteral? then "[" + Join(PyExprs(node.elements, tmpl), ", ") + "]"
    else if node.ObjectLiteral? then "{" + Join(PyPairTexts(node.pairs, tmpl), ", ") + "}"
    else if node.FunctionExpr? then LambdaText(node, tmpl)
    else if node.IfStmt? then
      if node.trueExpr.ReturnStmt? || node.falseExpr.ReturnStmt? then ReturnBranchPlaceholder
      else "(" + PyExpr(node.trueExpr, tmpl) + " if " + PyExpr(node.condition, tmpl) + " else " + PyExpr(node.falseExpr, tmpl) + ")"
    else if node.DataPipeline? then ChainOps(PyExpr(node.source, tmpl), node.operations, tmpl)
    else if node.APICall? then "requests." + Lower(node.httpMethod) + "(" + PyExpr(node.endpoint, tmpl) + ")"
    else "None # TODO: " + ClassName(node)
  }

  /** The printed expressions of a list, in order. */
  function PyExprs(nodes: seq<Node>, tmpl: string -> string): (r: seq<string>)
    ensures |r| == |nodes|
    decreases nodes
  {
    if nodes == [] then [] else [PyExpr(nodes[0], tmpl)] + PyExprs(nodes[1..], tmpl)
  }

  /** `'key': value` for each object entry, in order; a lambda value goes through
      `_generate_function_expr`, which is what the expression printer does with it too. */
  function PyPairTexts(pairs: seq<Pair>, tmpl: string -> string): (r: seq<string>)
    ensures |r| == |pairs|
    decreases pairs
  {
    if pairs == [] then [] else ["'" + pairs[0].key + "': " + PyExpr(pairs[0].value, tmpl)] + PyPairTexts(pairs[1..], tmpl)
  }

  /** `_generate_function_expr`: a lambda over `i0, i1, ...` returning the single `return`
      of the body, else the last of the body's `return` values, else a placeholder. */
  function LambdaText(node: Node, tmpl: string -> string): string
    requires node.FunctionExpr?
    decreases node, 1
  {
    var params := Join(ParamNames(|node.inputTypes|), ", ");
    if |node.body| == 1 && node.body[0].ReturnStmt? then "lambda " + params + ": " + ReturnValueText(node.body[0], tmpl)
    else
      var parts := ReturnTexts(node.body, tmpl);
      if parts != [] then "lambda " + params + ": " + parts[|parts| - 1] else "lambda " + params + ": " + ComplexBody
  }

  /** The lambda parameter names `i0, i1, ...`. */
  function ParamNames(n: nat): (r: seq<string>)
    ensures |r| == n
  {
    seq(n, k requires 0 <= k < n => "i" + NatToString(k))
  }

  /** The printed value of a `return`. */
  function ReturnValueText(stmt: Node, tmpl: string -> string): string
    requires stmt.ReturnStmt?
    decreases stmt, 0
  {
    PyExpr(stmt.value, tmpl)
  }

  /** The printed values of the body's `return` statements, in order: the `body_parts` loop. */
  function ReturnTexts(body: seq<Node>, tmpl: string -> string): seq<string>
    decreases body
  {
    if body == [] then []
    else
      var last := body[|body| - 1];
      ReturnTexts(body[..|body| - 1], tmpl) + (if last.ReturnStmt? then [ReturnValueText(last, tmpl)] else [])
  }

  /** `_generate_data_pipeline_expr`: each operation wrapped around the comprehension so
      far, first operation innermost. */
  function ChainOps(result: string, ops: seq<Node>, tmpl: string -> string): string
    decreases ops
  {
    if ops == [] then result else ChainOps(ChainOp(result, ops[0], tmpl), ops[1..], tmpl)
  }

  /** A filter becomes `[x for x in R if (c)]`, a map with an expression `[(e) for x in R]`;
      every other operation leaves the comprehension unchanged. */
  function ChainOp(result: string, op: Node, tmpl: string -> string): string
    decreases op
  {
    if op.FilterOp? then "[x for x in " + result + " if (" + PyExpr(op.condition, tmpl) + ")]"
    else if op.MapOp? then
      match op.expression
      case Some(e) => "[(" + PyExpr(e, tmpl) + ") for x in " + result + "]"
      case None => result
    else result
  }

  // ----- Statements -----

  /** The lines the statement generators emit for `stmt` at indentation `level`. */
  function PyStmtLines(stmt: Node, level: int, tmpl: string -> string): seq<string>
    decreases stmt, 1
  {
    if stmt.FunctionDef? then FunctionLines(stmt, level, tmpl)
    else if stmt.VariableDef? then
      [Line(level, stmt.name + TypeHint(stmt.typeAnnotation) + " = " + PyExpr(stmt.value, tmpl))]
    else if stmt.CompoundAssignment? then
      [Line(level, stmt.name + " " + stmt.operator + "= " + PyExpr(stmt.value, tmpl))]
    else if stmt.ReturnStmt? then [Line(level, "return " + PyExpr(stmt.value, tmpl))]
    else if stmt.DirectCall? then [Line(level, PyExpr(stmt.call, tmpl))]
    else if stmt.IfStmt? then IfLines(stmt, level, tmpl)
    else if stmt.ForLoop? then
      [Line(level, "for " + stmt.variable + " in " + PyExpr(stmt.iterable, tmpl) + ":")] + PyBody(stmt.body, level + 1, tmpl)
    else if stmt.WhileLoop? then
      [Line(level, "while " + PyExpr(stmt.condition, tmpl) + ":")] + PyBody(stmt.body, level + 1, tmpl)
    else if stmt.APICall? then ApiLines(stmt.httpMethod, PyExpr(stmt.endpoint, tmpl), level)
    else if stmt.DataPipeline? then PipelineLines(PyExpr(stmt.source, tmpl), stmt.operations, level, tmpl)
    else if stmt.FileOperation? then FileLines(stmt.operation, PyExpr(stmt.path, tmpl), FirstArgument(stmt.arguments, tmpl), level)
    else if stmt.UIComponent? then ComponentLines(stmt.name, stmt.stateVars, level, tmpl)
    else [Line(level, "# TODO: Unsupported statement type: " + ClassName(stmt))]
  }

  /** `: type` after a variable's name when it is annotated, with the VL type name as is. */
  function TypeHint(annotation: Option<Type>): string {
    if annotation.Some? then ": " + annotation.value.name else ""
  }

  /** The name of a type, as `_generate_function` prints it. */
  function TypeName(t: Type): string {
    t.name
  }

  /** `i0: t0, i1: t1, ...` with the raw VL type names. */
  function Params(inputTypes: seq<Type>): (r: seq<string>)
    ensures |r| == |inputTypes|
  {
    SignatureParamList(inputTypes, "i", TypeName)
  }

  /** `def name(i0: t0, ...) -> out:`. */
  function DefHeader(fd: Node): string
    requires fd.FunctionDef?
  {
    "def " + fd.name + "(" + Join(Params(fd.inputTypes), ", ") + ") -> " + fd.outputType.name + ":"
  }

  /** `_generate_function`: the header, then the body one level deeper, or `pass` when the
      body has no statements. */
  function FunctionLines(stmt: Node, level: int, tmpl: string -> string): seq<string>
    requires stmt.FunctionDef?
    decreases stmt, 0
  {
    [Line(level, DefHeader(stmt))] + SuiteLines(stmt.body, level + 1, tmpl)
  }

  /** A function body: its statements, or `pass` when it has none. */
  function SuiteLines(body: seq<Node>, level: int, tmpl: string -> string): seq<string>
    decreases body, 1
  {
    if body == [] then [Line(level, "pass")] else PyBody(body, level, tmpl)
  }

  /** `_generate_if_stmt`: `if c:`, the true branch, `else:`, the false branch. */
  function IfLines(stmt: Node, level: int, tmpl: string -> string): seq<string>
    requires stmt.IfStmt?
    decreases stmt, 0
  {
    [Line(level, "if " + PyExpr(stmt.condition, tmpl) + ":"), BranchLine(stmt.trueExpr, level + 1, tmpl),
     Line(level, "else:"), BranchLine(stmt.falseExpr, level + 1, tmpl)]
  }

  /** A branch of an `if` statement: a `return` line for a `return`, otherwise the printed
      expression on its own line. */
  function BranchLine(branch: Node, level: int, tmpl: string -> string): string
    decreases branch, 0
  {
    if branch.ReturnStmt? then Line(level, "return " + ReturnValueText(branch, tmpl)) else Line(level, PyExpr(branch, tmpl))
  }

  /** `_generate_api_call`: a comment naming the method, then the `requests` call. */
  function ApiLines(httpMethod: string, endpoint: string, level: int): seq<string> {
    [Line(level, "# API Call: " + httpMethod), Line(level, "requests." + Lower(httpMethod) + "(" + endpoint + ")")]
  }

  /** `_generate_data_pipeline`: the source comment, `data = source`, then one rebinding of
      `data` per filter and per map with an expression. */
  function PipelineLines(source: string, ops: seq<Node>, level: int, tmpl: string -> string): seq<string>
    decreases ops, 1
  {
    [Line(level, "# Data pipeline from: " + source), Line(level, "data = " + source)] + OpsLines(ops, level, tmpl)
  }

  function OpsLines(ops: seq<Node>, level: int, tmpl: string -> string): seq<string>
    decreases ops, 0
  {
    if ops == [] then [] else OpsLines(ops[..|ops| - 1], level, tmpl) + OpLines(ops[|ops| - 1], level, tmpl)
  }

  function OpLines(op: Node, level: int, tmpl: string -> string): seq<string>
    decreases op
  {
    if op.FilterOp? then [Line(level, "data = [x for x in data if " + PyExpr(op.condition, tmpl) + "]")]
    else if op.MapOp? then
      match op.expression
      case Some(e) => [Line(level, "data = [" + PyExpr(e, tmpl) + " for x in data]")]
      case None => []
    else []
  }

  /** The printed first argument of a file operation, if it has one. */
  function FirstArgument(arguments: seq<Node>, tmpl: string -> string): Option<string>
    decreases arguments
  {
    if arguments == [] then None else Some(PyExpr(arguments[0], tmpl))
  }

  /** `_generate_file_operation`: a `with open` block for `read`, and for `write` with an
      argument; nothing for any other operation. */
  function FileLines(operation: string, path: string, content: Option<string>, level: int): seq<string> {
    if operation == "read" then
      [Line(level, "with open(" + path + ", 'r') as f:"), Line(level, "    content = f.read()")]
    else if operation == "write" && content.Some? then
      [Line(level, "with open(" + path + ", 'w') as f:"), Line(level, "    f.write(" + content.value + ")")]
    else []
  }

  /** `_generate_ui_component`: a comment, `def name(props):`, one comment per state entry
      and the placeholder `return`, both one level deeper. */
  function ComponentLines(name: string, stateVars: seq<StateEntry>, level: int, tmpl: string -> string): seq<string>
    decreases stateVars, 1
  {
    [Line(level, "# UI Component: " + name), Line(level, "def " + name + "(props):")]
    + StateLines(stateVars, level + 1, tmpl) + [Line(level + 1, "return None  # React JSX would go here")]
  }

  function StateLines(stateVars: seq<StateEntry>, level: int, tmpl: string -> string): seq<string>
    decreases stateVars, 0
  {
    if stateVars == [] then []
    else
      var last := stateVars[|stateVars| - 1];
      StateLines(stateVars[..|stateVars| - 1], level, tmpl) + [Line(level, "# State: " + last.name + " = " + PyExpr(last.initial, tmpl))]
  }

  /** The lines of a statement list, in order. */
  function PyBody(body: seq<Node>, level: int, tmpl: string -> string): seq<string>
    decreases body, 0
  {
    if body == [] then [] else PyBody(body[..|body| - 1], level, tmpl) + PyStmtLines(body[|body| - 1], level, tmpl)
  }

  // ----- Program -----

  /** The metadata as comments and a blank line. */
  function MetadataLines(metadata: Option<Node>, level: int): seq<string>
    requires metadata.Some? ==> metadata.value.Metadata?
  {
    if metadata.None? then []
    else
      var m := metadata.value;
      [Line(level, "# VL Program: " + m.name), Line(level, "# Type: " + m.programType),
       Line(level, "# Target: " + m.targetLanguage), ""]
  }

  /** One `import` per dependency, as written, and a blank line. */
  function DependencyLines(dependencies: Option<Node>, level: int): seq<string>
    requires dependencies.Some? ==> dependencies.value.Dependencies?
  {
    if dependencies.None? then [] else ImportLines(dependencies.value.deps, level) + [""]
  }

  function ImportLines(deps: seq<string>, level: int): (r: seq<string>)
    ensures |r| == |deps|
  {
    seq(|deps|, k requires 0 <= k < |deps| => Line(level, "import " + deps[k]))
  }

  /** Each top-level statement followed by a blank line. */
  function TopLevelLines(statements: seq<Node>, level: int, tmpl: string -> string): seq<string> {
    if statements == [] then []
    else TopLevelLines(statements[..|statements| - 1], level, tmpl) + PyStmtLines(statements[|statements| - 1], level, tmpl) + [""]
  }

  /** The export as a comment. */
  function ExportLines(exportDecl: Option<Node>, level: int): seq<string>
    requires exportDecl.Some? ==> exportDecl.value.Export?
  {
    if exportDecl.None? then [] else [Line(level, "# Exported: " + exportDecl.value.name)]
  }

  /** `_generate_program`. */
  function ProgramLines(prog: Node, level: int, tmpl: string -> string): seq<string>
    requires IsProgram(prog)
  {
    HeaderLines(prog, level) + TopLevelLines(prog.statements, level, tmpl) + ExportLines(prog.exportDecl, level)
  }

  /** The metadata comments, then the imports. */
  function HeaderLines(prog: Node, level: int): seq<string>
    requires IsProgram(prog)
  {
    MetadataLines(prog.metadata, level) + DependencyLines(prog.dependencies, level)
  }

  /** Three pieces emitted one after the other. */
  lemma Steps3(start: seq<string>, s1: seq<string>, s2: seq<string>, s3: seq<string>, a: seq<string>, b: seq<string>, c: seq<string>)
    requires s1 == start + a && s2 == s1 + b && s3 == s2 + c
    ensures s3 == start + (a + b + c)
  {
  }

  // ----- Loop steps -----

  lemma BodySnoc(body: seq<Node>, i: nat, level: int, tmpl: string -> string, start: seq<string>, before: seq<string>, after: seq<string>)
    requires i < |body| && before == start + PyBody(body[..i], level, tmpl)
    requires after == before + PyStmtLines(body[i], level, tmpl)
    ensures after == start + PyBody(body[..i + 1], level, tmpl)
  {
    var longer := body[..i + 1];
    assert longer[..|longer| - 1] == body[..i] && longer[|longer| - 1] == body[i];
    assert PyBody(longer, level, tmpl) == PyBody(body[..i], level, tmpl) + PyStmtLines(body[i], level, tmpl);
  }

  lemma TopLevelSnoc(statements: seq<Node>, i: nat, level: int, tmpl: string -> string, start: seq<string>, before: seq<string>, after: seq<string>)
    requires i < |statements| && before == start + TopLevelLines(statements[..i], level, tmpl)
    requires after == before + PyStmtLines(statements[i], level, tmpl) + [""]
    ensures after == start + TopLevelLines(statements[..i + 1], level, tmpl)
  {
    var longer := statements[..i + 1];
    assert longer[..|longer| - 1] == statements[..i] && longer[|longer| - 1] == statements[i];
    assert TopLevelLines(longer, level, tmpl) == TopLevelLines(statements[..i], level, tmpl) + PyStmtLines(statements[i], level, tmpl) + [""];
  }

  lemma OpsSnoc(ops: seq<Node>, i: nat, level: int, tmpl: string -> string, start: seq<string>, before: seq<string>, after: seq<string>)
    requires i < |ops| && before == start + OpsLines(ops[..i], level, tmpl)
    requires after == before + OpLines(ops[i], level, tmpl)
    ensures after == start + OpsLines(ops[..i + 1], level, tmpl)
  {
    var longer := ops[..i + 1];
    assert longer[..|longer| - 1] == ops[..i] && longer[|longer| - 1] == ops[i];
    assert OpsLines(longer, level, tmpl) == OpsLines(ops[..i], level, tmpl) + OpLines(ops[i], level, tmpl);
  }

  lemma StateSnoc(stateVars: seq<StateEntry>, i: nat, level: int, tmpl: string -> string)
    requires i < |stateVars|
    ensures StateLines(stateVars[..i + 1], level, tmpl)
         == StateLines(stateVars[..i], level, tmpl) + [Line(level, "# State: " + stateVars[i].name + " = " + PyExpr(stateVars[i].initial, tmpl))]
  {
    var longer := stateVars[..i + 1];
    assert longer[..|longer| - 1] == stateVars[..i] && longer[|longer| - 1] == stateVars[i];
  }

  lemma ReturnTextsSnoc(body: seq<Node>, i: nat, tmpl: string -> string)
    requires i < |body|
    ensures ReturnTexts(body[..i + 1], tmpl)
         == ReturnTexts(body[..i], tmpl) + (if body[i].ReturnStmt? then [ReturnValueText(body[i], tmpl)] else [])
  {
    var longer := body[..i + 1];
    assert longer[..|longer| - 1] == body[..i] && longer[|longer| - 1] == body[i];
  }

  lemma ParamsSnoc(inputTypes: seq<Type>, i: nat)
    requires i < |inputTypes|
    ensures Params(inputTypes[..i + 1]) == Params(inputTypes[..i]) + ["i" + NatToString(i) + ": " + inputTypes[i].name]
  {
    var longer, shorter := Params(inputTypes[..i + 1]), Params(inputTypes[..i]);
    forall k | 0 <= k < i
      ensures longer[k] == shorter[k]
    {
      assert inputTypes[..i + 1][k] == inputTypes[..i][k];
    }
    assert longer[i] == "i" + NatToString(i) + ": " + TypeName(inputTypes[i]);
    assert longer == shorter + [longer[i]];
  }

  /** Chaining one more operation after a prefix. */
  lemma {:induction false} ChainOpsSnoc(result: string, ops: seq<Node>, op: Node, tmpl: string -> string)
    ensures ChainOps(result, ops + [op], tmpl) == ChainOp(ChainOps(result, ops, tmpl), op, tmpl)
    decreases ops
  {
    if ops != [] {
      assert (ops + [op])[0] == ops[0] && (ops + [op])[1..] == ops[1..] + [op];
      ChainOpsSnoc(ChainOp(result, ops[0], tmpl), ops[1..], op, tmpl);
    } else {
      assert [] + [op] == [op];
    }
  }

  class PythonCodeGenerator {
    const ast: Node
    const template: string -> string
    var output: seq<string>
    var indentLevel: int

    constructor (ast: Node, template: string -> string)
      ensures this.ast == ast && this.template == template && output == [] && indentLevel == 0
    {
      this.ast := ast;
      this.template := template;
      output := [];
      indentLevel := 0;
    }

    /** `generate`: the output is cleared first, so the text depends only on the tree, the
        level and the template processor, and a second call gives the same text. */
    method Generate() returns (text: string)
      requires IsProgram(ast)
      modifies this
      ensures output == ProgramLines(ast, old(indentLevel), template) && indentLevel == old(indentLevel)
      ensures text == Join(output, "\n")
    {
      output := [];
      GenerateProgram(ast);
      text := Join(output, "\n");
    }

    /** `_emit`: the line at the current indentation, or an empty line. */
    method Emit(code: string)
      modifies this
      ensures output == old(output) + [Line(indentLevel, code)] && indentLevel == old(indentLevel)
    {
      output := output + [Line(indentLevel, code)];
    }

    /** `_generate_program`: metadata and imports, the statements, then the export. */
    method GenerateProgram(node: Node)
      requires IsProgram(node)
      modifies this
      ensures output == old(output) + ProgramLines(node, old(indentLevel), template) && indentLevel == old(indentLevel)
    {
      ghost var level := indentLevel;
      GenerateHeader(node);
      ghost var s1 := output;
      GenerateTopLevel(node.statements);
      ghost var s2 := output;
      GenerateExport(node.exportDecl);
      Steps3(old(output), s1, s2, output, HeaderLines(node, level), TopLevelLines(node.statements, level, template),
        ExportLines(node.exportDecl, level));
    }

    /** The export comment. */
    method GenerateExport(exportDecl: Option<Node>)
      requires exportDecl.Some? ==> exportDecl.value.Export?
      modifies this
      ensures output == old(output) + ExportLines(exportDecl, old(indentLevel)) && indentLevel == old(indentLevel)
    {
      if exportDecl.Some? {
        Emit("# Exported: " + exportDecl.value.name);
      }
    }

    /** The metadata comments and the imports. */
    method GenerateHeader(node: Node)
      requires IsProgram(node)
      modifies this
      ensures output == old(output) + HeaderLines(node, old(indentLevel)) && indentLevel == old(indentLevel)
    {
      GenerateMetadata(node.metadata);
      GenerateDependencies(node.dependencies);
    }

    /** The metadata comments and a blank line. */
    method GenerateMetadata(metadata: Option<Node>)
      requires metadata.Some? ==> metadata.value.Metadata?
      modifies this
      ensures output == old(output) + MetadataLines(metadata, old(indentLevel)) && indentLevel == old(indentLevel)
    {
      if metadata.Some? {
        var m := metadata.value;
        Emit("# VL Program: " + m.name);
        Emit("# Type: " + m.programType);
        Emit("# Target: " + m.targetLanguage);
        Emit("");
      }
    }

    /** One `import` per dependency and a blank line. */
    method GenerateDependencies(dependencies: Option<Node>)
      requires dependencies.Some? ==> dependencies.value.Dependencies?
      modifies this
      ensures output == old(output) + DependencyLines(dependencies, old(indentLevel)) && indentLevel == old(indentLevel)
    {
      if dependencies.Some? {
        var deps := dependencies.value.deps;
        for i := 0 to |deps|
          invariant indentLevel == old(indentLevel) && output == old(output) + ImportLines(deps[..i], indentLevel)
        {
          Emit("import " + deps[i]);
        }
        assert deps[..|deps|] == deps;
        Emit("");
      }
    }

    /** Each top-level statement, then a blank line. */
    method GenerateTopLevel(statements: seq<Node>)
      modifies this
      ensures output == old(output) + TopLevelLines(statements, old(indentLevel), template) && indentLevel == old(indentLevel)
    {
      for i := 0 to |statements|
        invariant indentLevel == old(indentLevel) && output == old(output) + TopLevelLines(statements[..i], indentLevel, template)
      {
        ghost var before := output;
        GenerateStatement(statements[i]);
        Emit("");
        TopLevelSnoc(statements, i, indentLevel, template, old(output), before, output);
      }
      assert statements[..|statements|] == statements;
    }

    /** `_generate_statement`: the handler of the statement's class, or the TODO comment. */
    method GenerateStatement(stmt: Node)
      modifies this
      ensures output == old(output) + PyStmtLines(stmt, old(indentLevel), template) && indentLevel == old(indentLevel)
      decreases stmt, 2
    {
      if stmt.FunctionDef? {
        GenerateFunction(stmt);
      } else if stmt.ForLoop? {
        Emit("for " + stmt.variable + " in " + PyExpr(stmt.iterable, template) + ":");
        GenerateBlock(stmt.body);
      } else if stmt.WhileLoop? {
        Emit("while " + PyExpr(stmt.condition, template) + ":");
        GenerateBlock(stmt.body);
      } else {
        GenerateLeaf(stmt);
      }
    }

    /** The statements without a nested body. */
    method GenerateLeaf(stmt: Node)
      requires !stmt.FunctionDef? && !stmt.ForLoop? && !stmt.WhileLoop?
      modifies this
      ensures output == old(output) + PyStmtLines(stmt, old(indentLevel), template) && indentLevel == old(indentLevel)
    {
      if stmt.VariableDef? {
        Emit(stmt.name + TypeHint(stmt.typeAnnotation) + " = " + PyExpr(stmt.value, template));
      } else if stmt.CompoundAssignment? {
        Emit(stmt.name + " " + stmt.operator + "= " + PyExpr(stmt.value, template));
      } else if stmt.ReturnStmt? {
        Emit("return " + PyExpr(stmt.value, template));
      } else if stmt.DirectCall? {
        Emit(PyExpr(stmt.call, template));
      } else if stmt.IfStmt? {
        GenerateIfStmt(stmt);
      } else if stmt.APICall? {
        Emit("# API Call: " + stmt.httpMethod);
        Emit("requests." + Lower(stmt.httpMethod) + "(" + PyExpr(stmt.endpoint, template) + ")");
      } else if stmt.DataPipeline? {
        GenerateDataPipeline(stmt);
      } else if stmt.FileOperation? {
        GenerateFileOperation(stmt);
      } else if stmt.UIComponent? {
        GenerateUiComponent(stmt);
      } else {
        Emit("# TODO: Unsupported statement type: " + ClassName(stmt));
      }
    }

    /** The statements of a block, in order, at the current level. */
    method GenerateBody(body: seq<Node>)
      modifies this
      ensures output == old(output) + PyBody(body, old(indentLevel), template) && indentLevel == old(indentLevel)
      decreases body, 0
    {
      for i := 0 to |body|
        invariant indentLevel == old(indentLevel) && output == old(output) + PyBody(body[..i], indentLevel, template)
      {
        ghost var before := output;
        GenerateStatement(body[i]);
        BodySnoc(body, i, indentLevel, template, old(output), before, output);
      }
      assert body[..|body|] == body;
    }

    /** A loop body one level deeper than the current level. */
    method GenerateBlock(body: seq<Node>)
      modifies this
      ensures output == old(output) + PyBody(body, old(indentLevel) + 1, template) && indentLevel == old(indentLevel)
      decreases body, 1
    {
      indentLevel := indentLevel + 1;
      GenerateBody(body);
      indentLevel := indentLevel - 1;
    }

    /** The parameter loop of `_generate_function`: the header line's text. */
    method FunctionHeader(fd: Node) returns (header: string)
      requires fd.FunctionDef?
      ensures header == DefHeader(fd)
    {
      var params: seq<string> := [];
      for i := 0 to |fd.inputTypes|
        invariant params == Params(fd.inputTypes[..i])
      {
        ParamsSnoc(fd.inputTypes, i);
        params := params + ["i" + NatToString(i) + ": " + fd.inputTypes[i].name];
      }
      assert fd.inputTypes[..|fd.inputTypes|] == fd.inputTypes;
      header := "def " + fd.name + "(" + Join(params, ", ") + ") -> " + fd.outputType.name + ":";
    }

    /** `_generate_function`: the header, then the body or `pass` one level deeper. */
    method GenerateFunction(node: Node)
      requires node.FunctionDef?
      modifies this
      ensures output == old(output) + FunctionLines(node, old(indentLevel), template) && indentLevel == old(indentLevel)
      decreases node, 1
    {
      var header := FunctionHeader(node);
      Emit(header);
      GenerateSuite(node.body);
    }

    /** The body of a function one level deeper than the current level, or `pass`. */
    method GenerateSuite(body: seq<Node>)
      modifies this
      ensures output == old(output) + SuiteLines(body, old(indentLevel) + 1, template) && indentLevel == old(indentLevel)
      decreases body, 1
    {
      indentLevel := indentLevel + 1;
      if body != [] {
        GenerateBody(body);
      } else {
        Emit("pass");
      }
      indentLevel := indentLevel - 1;
    }

    /** `_generate_if_stmt`: each branch one level deeper, as a `return` or an expression. */
    method GenerateIfStmt(node: Node)
      requires node.IfStmt?
      modifies this
      ensures output == old(output) + IfLines(node, old(indentLevel), template) && indentLevel == old(indentLevel)
    {
      Emit("if " + PyExpr(node.condition, template) + ":");
      indentLevel := indentLevel + 1;
      GenerateBranch(node.trueExpr);
      indentLevel := indentLevel - 1;
      Emit("else:");
      indentLevel := indentLevel + 1;
      GenerateBranch(node.falseExpr);
      indentLevel := indentLevel - 1;
    }

    method GenerateBranch(branch: Node)
      modifies this
      ensures output == old(output) + [BranchLine(branch, old(indentLevel), template)] && indentLevel == old(indentLevel)
    {
      if branch.ReturnStmt? {
        Emit("return " + PyExpr(branch.value, template));
      } else {
        Emit(PyExpr(branch, template));
      }
    }

    /** `_generate_data_pipeline`: no flattening; the source is printed as an expression. */
    method GenerateDataPipeline(node: Node)
      requires node.DataPipeline?
      modifies this
      ensures output == old(output) + PipelineLines(PyExpr(node.source, template), node.operations, old(indentLevel), template)
      ensures indentLevel == old(indentLevel)
    {
      var source := PyExpr(node.source, template);
      Emit("# Data pipeline from: " + source);
      Emit("data = " + source);
      ghost var start := output;
      var ops := node.operations;
      for i := 0 to |ops|
        invariant indentLevel == old(indentLevel) && output == start + OpsLines(ops[..i], indentLevel, template)
      {
        ghost var before := output;
        var op := ops[i];
        if op.FilterOp? {
          Emit("data = [x for x in data if " + PyExpr(op.condition, template) + "]");
        } else if op.MapOp? && op.expression.Some? {
          Emit("data = [" + PyExpr(op.expression.value, template) + " for x in data]");
        }
        OpsSnoc(ops, i, indentLevel, template, start, before, output);
      }
      assert ops[..|ops|] == ops;
    }

    /** `_generate_file_operation`. */
    method GenerateFileOperation(node: Node)
      requires node.FileOperation?
      modifies this
      ensures output == old(output) + FileLines(node.operation, PyExpr(node.path, template), FirstArgument(node.arguments, template), old(indentLevel))
      ensures indentLevel == old(indentLevel)
    {
      var path := PyExpr(node.path, template);
      if node.operation == "read" {
        Emit("with open(" + path + ", 'r') as f:");
        Emit("    content = f.read()");
      } else if node.operation == "write" {
        if node.arguments != [] {
          var content := PyExpr(node.arguments[0], template);
          Emit("with open(" + path + ", 'w') as f:");
          Emit("    f.write(" + content + ")");
        }
      }
    }

    /** `_generate_ui_component`. */
    method GenerateUiComponent(node: Node)
      requires node.UIComponent?
      modifies this
      ensures output == old(output) + ComponentLines(node.name, node.stateVars, old(indentLevel), template)
      ensures indentLevel == old(indentLevel)
    {
      Emit("# UI Component: " + node.name);
      Emit("def " + node.name + "(props):");
      indentLevel := indentLevel + 1;
      GenerateStateComments(node.stateVars);
      Emit("return None  # React JSX would go here");
      indentLevel := indentLevel - 1;
    }

    /** One comment per state entry, with its printed initial value. */
    method GenerateStateComments(vars: seq<StateEntry>)
      modifies this
      ensures output == old(output) + StateLines(vars, old(indentLevel), template) && indentLevel == old(indentLevel)
    {
      for i := 0 to |vars|
        invariant indentLevel == old(indentLevel) && output == old(output) + StateLines(vars[..i], indentLevel, template)
      {
        StateSnoc(vars, i, indentLevel, template);
        Emit("# State: " + vars[i].name + " = " + PyExpr(vars[i].initial, template));
      }
      assert vars[..|vars|] == vars;
    }

    /** The loop of `_generate_data_pipeline_expr`: the source, then each operation wrapped
        around the comprehension so far. It prints exactly what the recursive printer does. */
    method PipelineExpr(node: Node) returns (result: string)
      requires node.DataPipeline?
      ensures result == PyExpr(node, template)
    {
      result := PyExpr(node.source, template);
      var ops := node.operations;
      for i := 0 to |ops|
        invariant result == ChainOps(PyExpr(node.source, template), ops[..i], template)
      {
        ChainOpsSnoc(PyExpr(node.source, template), ops[..i], ops[i], template);
        assert ops[..i + 1] == ops[..i] + [ops[i]];
        result := ChainOp(result, ops[i], template);
      }
      assert ops[..|ops|] == ops;
    }

    /** The `body_parts` loop of `_generate_function_expr`, and the lambda it returns. */
    method FunctionExpr(node: Node) returns (text: string)
      requires node.FunctionExpr?
      ensures text == PyExpr(node, template)
    {
      var params := Join(ParamNames(|node.inputTypes|), ", ");
      var body := node.body;
      if |body| == 1 && body[0].ReturnStmt? {
        assert ReturnValueText(body[0], template) == PyExpr(body[0].value, template);
        return "lambda " + params + ": " + PyExpr(body[0].value, template);
      }
      var parts: seq<string> := [];
      for i := 0 to |body|
        invariant parts == ReturnTexts(body[..i], template)
      {
        ReturnTextsSnoc(body, i, template);
        if body[i].ReturnStmt? {
          parts := parts + [PyExpr(body[i].value, template)];
        }
      }
      assert body[..|body|] == body;
      if parts != [] {
        text := "lambda " + params + ": " + parts[|parts| - 1];
      } else {
        text := "lambda " + params + ": " + ComplexBody;
      }
    }
  }
}

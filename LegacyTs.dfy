/** The legacy TypeScript generator (interpreter/codegen_ts.py): the JavaScript generator
    with type annotations, two-space indentation, ES module imports and exports, loops,
    requests, pipelines and file operations.

    Its expression printer asks `isinstance(node, IndexAccess)` after the member-access
    case, and interpreter/ast_nodes.py defines no `IndexAccess`: Python raises `NameError`
    there, so every node kind after member access (ranges, requests, lambdas, pipelines and
    the rest) crashes the printer, and the closing `"null"` is reached only by an operation
    without operands. The printer and the statement lines are `Option`s with `None` for a
    crash. A UI component with state crashes too, because its state entries are the
    parser's tuples and the generator reads attributes from them. */
module LegacyTs {
  import opened Wrappers
  import opened Strings
  import opened Ast
  import opened CodegenBase
  import CodegenJs
  import CodegenC

  /** `'  ' * indent_level + line`, or "" for an empty line. */
  function Line(level: int, code: string): string {
    IndentedLine("  ", level, code)
  }

  // ----- Types -----

  /** The VL type names `_type_to_ts` knows. */
  const TsTypeNames: set<string> :=
    {"int", "float", "str", "bool", "arr", "obj", "map", "set", "any", "void", "promise", "func"}

  /** `_type_to_ts`: the known names, and `any` for any other name. */
  function TypeToTs(t: Type): (r: string)
    ensures r in {"number", "string", "boolean", "any[]", "Record<string, any>", "Map<any, any>", "Set<any>",
                  "any", "void", "Promise<any>", "Function"}
    ensures r == "number" <==> t.name == "int" || t.name == "float"
    ensures r == "void" <==> t.name == "void"
    ensures t.name !in TsTypeNames ==> r == "any"
  {
    var n := t.name;
    if n == "int" || n == "float" then "number"
    else if n == "str" then "string"
    else if n == "bool" then "boolean"
    else if n == "arr" then "any[]"
    else if n == "obj" then "Record<string, any>"
    else if n == "map" then "Map<any, any>"
    else if n == "set" then "Set<any>"
    else if n == "void" then "void"
    else if n == "promise" then "Promise<any>"
    else if n == "func" then "Function"
    else "any"
  }

  /** `i{k}: T{k}` for each input type, in order. */
  function TParams(inputTypes: seq<Type>): (r: seq<string>)
    ensures |r| == |inputTypes|
  {
    seq(|inputTypes|, k requires 0 <= k < |inputTypes| => "i" + NatToString(k) + ": " + TypeToTs(inputTypes[k]))
  }

  /** One more input type adds its parameter at the end. */
  lemma TParamsSnoc(inputTypes: seq<Type>, i: nat)
    requires i < |inputTypes|
    ensures TParams(inputTypes[..i + 1]) == TParams(inputTypes[..i]) + ["i" + NatToString(i) + ": " + TypeToTs(inputTypes[i])]
  {
    var longer, shorter := TParams(inputTypes[..i + 1]), TParams(inputTypes[..i]);
    forall k | 0 <= k < i
      ensures longer[k] == shorter[k]
    {
      assert inputTypes[..i + 1][k] == inputTypes[..i][k];
    }
    var last := "i" + NatToString(i) + ": " + TypeToTs(inputTypes[i]);
    assert longer[i] == last;
    assert longer == shorter + [last];
  }

  /** `function name(i0: T0, …): R {`. */
  function TsHeader(fd: Node): string
    requires fd.FunctionDef?
  {
    "function " + fd.name + "(" + Join(TParams(fd.inputTypes), ", ") + "): " + TypeToTs(fd.outputType) + " {"
  }

  // ----- Expressions -----

  /** `_generate_expression`: literals, names, operations, calls, arrays, objects and member
      access; `None` for every other node, where the `IndexAccess` test raises. */
  function TExpr(node: Node): Option<string>
    decreases node, 2
  {
    if node.NumberLiteral? then Some(NumberText(node.number))
    else if node.StringLiteral? then
      var quote := if node.isTemplate then "`" else "'";
      Some(quote + node.text + quote)
    else if node.BooleanLiteral? then Some(if node.flag then "true" else "false")
    else if node.Identifier? || node.VariableRef? then Some(node.name)
    else if node.Operation? then TOperationExpr(node)
    else if node.FunctionCall? then
      var callee := TExpr(node.callee);
      var args := TExprs(node.arguments);
      if callee.None? || args.None? then None else Some(callee.value + "(" + Join(args.value, ", ") + ")")
    else if node.ArrayLiteral? then
      var elements := TExprs(node.elements);
      if elements.None? then None else Some("[" + Join(elements.value, ", ") + "]")
    else if node.ObjectLiteral? then
      var pairs := TPairTexts(node.pairs);
      if pairs.None? then None else Some("{ " + Join(pairs.value, ", ") + " }")
    else if node.MemberAccess? then
      var target := TExpr(node.target);
      if target.None? then None else Some(target.value + "." + node.property)
    else None
  }

  /** An operation: one operand as a call of the mapped operator, two or more joined by it
      in parentheses, and `null` without operands. */
  function TOperationExpr(node: Node): Option<string>
    requires node.Operation?
    decreases node, 1
  {
    var op := CodegenJs.MapOperator(node.operator);
    if |node.operands| == 1 then
      var operand := TExpr(node.operands[0]);
      if operand.None? then None else Some(op + "(" + operand.value + ")")
    else if |node.operands| >= 2 then
      var operands := TExprs(node.operands);
      if operands.None? then None else Some("(" + Join(operands.value, " " + op + " ") + ")")
    else Some("null")
  }

  /** The printed expressions of a list, in order; `None` when one of them crashes. */
  function TExprs(nodes: seq<Node>): (r: Option<seq<string>>)
    ensures r.Some? ==> |r.value| == |nodes|
    decreases nodes
  {
    if nodes == [] then Some([])
    else
      var first := TExpr(nodes[0]);
      var rest := TExprs(nodes[1..]);
      if first.None? || rest.None? then None else Some([first.value] + rest.value)
  }

  /** `key: value` for each object entry, in order; `None` when a value crashes. */
  function TPairTexts(pairs: seq<Pair>): (r: Option<seq<string>>)
    ensures r.Some? ==> |r.value| == |pairs|
    decreases pairs
  {
    if pairs == [] then Some([])
    else
      var value := TExpr(pairs[0].value);
      var rest := TPairTexts(pairs[1..]);
      if value.None? || rest.None? then None else Some([pairs[0].key + ": " + value.value] + rest.value)
  }

  // ----- Statements -----

  /** The lines the statement generators emit for `stmt` at indentation `level`, or `None`
      when generating it crashes. */
  function TStmtLines(stmt: Node, level: int): Option<seq<string>>
    decreases stmt, 1
  {
    if stmt.FunctionDef? then TFunctionLines(stmt, level)
    else if stmt.VariableDef? then TVariableLines(stmt.name, stmt.typeAnnotation, TExpr(stmt.value), level)
    else if stmt.CompoundAssignment? then OneLine(stmt.name + " " + stmt.operator + "= ", TExpr(stmt.value), ";", level)
    else if stmt.ReturnStmt? then OneLine("return ", TExpr(stmt.value), ";", level)
    else if stmt.DirectCall? then OneLine("", TExpr(stmt.call), ";", level)
    else if stmt.IfStmt? then TIfLines(stmt, level)
    else if stmt.ForLoop? then TForLines(stmt, level)
    else if stmt.WhileLoop? then TWhileLines(stmt, level)
    else if stmt.APICall? then TApiLines(Upper(stmt.httpMethod), TExpr(stmt.endpoint), stmt.options, level)
    else if stmt.DataPipeline? then TPipelineLines(stmt, level)
    else if stmt.FileOperation? then TFileLines(stmt.operation, TExpr(stmt.path), stmt.arguments, level)
    else if stmt.UIComponent? then TComponentLines(stmt.name, stmt.stateVars, level)
    else Some([Line(level, "// TODO: " + ClassName(stmt))])
  }

  /** One line `prefix + value + suffix`, or `None` when the value crashed. */
  function OneLine(prefix: string, value: Option<string>, suffix: string, level: int): Option<seq<string>> {
    if value.None? then None else Some([Line(level, prefix + value.value + suffix)])
  }

  /** A function: the typed header, the body one level deeper, `}` and a blank line. */
  function TFunctionLines(stmt: Node, level: int): Option<seq<string>>
    requires stmt.FunctionDef?
    decreases stmt, 0
  {
    CodegenC.Block(Some([Line(level, TsHeader(stmt))]), TBody(stmt.body, level + 1), [Line(level, "}"), ""])
  }

  /** `let name: T = v;` with the annotation's type, or `let name = v;` without one. */
  function TVariableLines(name: string, annotation: Option<Type>, value: Option<string>, level: int)
    : Option<seq<string>>
  {
    if value.None? then None
    else if annotation.Some? then Some([Line(level, "let " + name + ": " + TypeToTs(annotation.value) + " = " + value.value + ";")])
    else Some([Line(level, "let " + name + " = " + value.value + ";")])
  }

  /** The ternary `if` as a block: both branches as expression statements. */
  function TIfLines(stmt: Node, level: int): Option<seq<string>>
    requires stmt.IfStmt?
  {
    IfElse(TExpr(stmt.condition), TExpr(stmt.trueExpr), TExpr(stmt.falseExpr), level)
  }

  /** `if (c) {`, `t;` and `} else {`, `f;` and `}`, the branches one level deeper. */
  function IfElse(condition: Option<string>, trueCode: Option<string>, falseCode: Option<string>, level: int)
    : Option<seq<string>>
  {
    if condition.None? || trueCode.None? || falseCode.None? then None
    else Some([Line(level, "if (" + condition.value + ") {"), Line(level + 1, trueCode.value + ";"),
               Line(level, "} else {"), Line(level + 1, falseCode.value + ";"), Line(level, "}")])
  }

  function TForLines(stmt: Node, level: int): Option<seq<string>>
    requires stmt.ForLoop?
    decreases stmt, 0
  {
    CodegenC.Block(OneLine("for (const " + stmt.variable + " of ", TExpr(stmt.iterable), ") {", level),
      TBody(stmt.body, level + 1), [Line(level, "}")])
  }

  function TWhileLines(stmt: Node, level: int): Option<seq<string>>
    requires stmt.WhileLoop?
    decreases stmt, 0
  {
    CodegenC.Block(OneLine("while (", TExpr(stmt.condition), ") {", level), TBody(stmt.body, level + 1), [Line(level, "}")])
  }

  /** `_generate_api_call`: `fetch` with the upper-cased method spread before the options;
      without options a GET is a bare `fetch(endpoint)`. */
  function TApiLines(httpMethod: string, endpoint: Option<string>, options: Option<Node>, level: int)
    : Option<seq<string>>
  {
    if endpoint.None? then None
    else if options.Some? then
      OneLine("fetch(" + endpoint.value + ", {method: '" + httpMethod + "', ...", TExpr(options.value), "})", level)
    else if httpMethod == "GET" then Some([Line(level, "fetch(" + endpoint.value + ")")])
    else Some([Line(level, "fetch(" + endpoint.value + ", {method: '" + httpMethod + "'})")])
  }

  /** A pipeline statement: the flattened source assigned to `data`, then one step per
      operation. */
  function TPipelineLines(stmt: Node, level: int): Option<seq<string>>
    requires stmt.DataPipeline?
  {
    var flat := CodegenJs.Flatten(stmt);
    PipelineFrom(TExpr(flat.0), flat.1, level)
  }

  /** The two opening lines for the printed source, then the operations' lines. */
  function PipelineFrom(source: Option<string>, ops: seq<Node>, level: int): Option<seq<string>> {
    if source.None? then None
    else CodegenC.Then(Some([Line(level, "// Data pipeline from: " + source.value), Line(level, "let data = " + source.value + ";")]),
                       TOpsLines(ops, level))
  }

  /** The lines of the operations, in order; `None` when one of them crashes. */
  function TOpsLines(ops: seq<Node>, level: int): Option<seq<string>> {
    if ops == [] then Some([]) else CodegenC.Then(TOpsLines(ops[..|ops| - 1], level), TOpLines(ops[|ops| - 1], level))
  }

  /** One operation applied to `data`: filters, maps, grouping and sorting; an aggregate
      and every other operation emit nothing. */
  function TOpLines(op: Node, level: int): Option<seq<string>> {
    if op.FilterOp? then
      var condition := TExpr(op.condition);
      if condition.None? then None
      else Some([Line(level, "data = data.filter((x: any) => " + ReplaceAll(condition.value, "item", "x") + ");")])
    else if op.MapOp? then
      if op.expression.Some? then
        var e := TExpr(op.expression.value);
        if e.None? then None else Some([Line(level, "data = data.map((x: any) => " + ReplaceAll(e.value, "item", "x") + ");")])
      else if op.fields.Some? && op.fields.value != [] then
        Some([Line(level, "data = data.map((x: any) => ({ " + Join(CodegenJs.FieldCopies(op.fields.value), ", ") + " }));")])
      else Some([])
    else if op.GroupByOp? then Some(TGroupByLines(op.field, level))
    else if op.SortOp? then
      var (first, second) := if op.order == "desc" then ("b", "a") else ("a", "b");
      Some([Line(level, "data = data.sort((a: any, b: any) => " + SortKey(first, op.field) + " - " + SortKey(second, op.field) + ");")])
    else Some([])
  }

  /** `(v.f || v['f'])`. */
  function SortKey(v: string, field: string): string {
    "(" + v + "." + field + " || " + v + "['" + field + "'])"
  }

  /** The grouping step, as a multi-line typed `reduce`. */
  function TGroupByLines(field: string, level: int): seq<string> {
    [Line(level, "data = data.reduce((groups: Record<string, any[]>, x: any) => {"),
     Line(level, "    const key = x." + field + " || x['" + field + "'];"),
     Line(level, "    if (!groups[key]) groups[key] = [];"),
     Line(level, "    groups[key].push(x);"),
     Line(level, "    return groups;"),
     Line(level, "}, {});")]
  }

  /** `_generate_file_operation`: a read, or a write with content, through `fs`; the path
      is printed first, and any other operation emits nothing. */
  function TFileLines(operation: string, path: Option<string>, arguments: seq<Node>, level: int): Option<seq<string>> {
    var fs := Line(level, "import * as fs from 'fs';");
    if path.None? then None
    else if operation == "read" then
      Some([fs, Line(level, "const content: string = fs.readFileSync(" + path.value + ", 'utf8');")])
    else if operation == "write" && arguments != [] then
      var content := TExpr(arguments[0]);
      if content.None? then None else Some([fs, Line(level, "fs.writeFileSync(" + path.value + ", " + content.value + ", 'utf8');")])
    else Some([])
  }

  /** `_generate_ui_component`: a typed function component; a component with state crashes
      on the first attribute read from a state tuple. */
  function TComponentLines(name: string, stateVars: seq<StateEntry>, level: int): Option<seq<string>> {
    if stateVars != [] then None
    else Some([Line(level, "// React Component: " + name), Line(level, "function " + name + "(props: any): JSX.Element {"),
               Line(level + 1, "return null as any; // JSX would be generated here"), Line(level, "}"), ""])
  }

  /** The lines of a statement list, in order; `None` when one of them crashes. */
  function TBody(body: seq<Node>, level: int): Option<seq<string>>
    decreases body
  {
    if body == [] then Some([]) else CodegenC.Then(TBody(body[..|body| - 1], level), TStmtLines(body[|body| - 1], level))
  }

  /** The lines of the first `i + 1` statements are those of the first `i`, then those of
      the next one. */
  lemma TBodySnoc(body: seq<Node>, i: nat, level: int)
    requires i < |body|
    ensures TBody(body[..i + 1], level) == CodegenC.Then(TBody(body[..i], level), TStmtLines(body[i], level))
  {
    var next := body[..i + 1];
    assert next[..i] == body[..i] && next[i] == body[i];
  }

  /** A statement list with a crashing prefix crashes. */
  lemma {:induction false} TBodyPrefix(body: seq<Node>, j: nat, level: int)
    requires j <= |body|
    ensures TBody(body[..j], level).None? ==> TBody(body, level).None?
    decreases |body| - j
  {
    if j < |body| {
      TBodyPrefix(body, j + 1, level);
      assert body[..j + 1][..j] == body[..j];
    } else {
      assert body[..j] == body;
    }
  }

  lemma TOpsSnoc(ops: seq<Node>, i: nat, level: int)
    requires i < |ops|
    ensures TOpsLines(ops[..i + 1], level) == CodegenC.Then(TOpsLines(ops[..i], level), TOpLines(ops[i], level))
  {
    var next := ops[..i + 1];
    assert next[..i] == ops[..i] && next[i] == ops[i];
  }

  lemma {:induction false} TOpsPrefix(ops: seq<Node>, j: nat, level: int)
    requires j <= |ops|
    ensures TOpsLines(ops[..j], level).None? ==> TOpsLines(ops, level).None?
    decreases |ops| - j
  {
    if j < |ops| {
      TOpsPrefix(ops, j + 1, level);
      assert ops[..j + 1][..j] == ops[..j];
    } else {
      assert ops[..j] == ops;
    }
  }

  // ----- The program -----

  /** The import name of a dependency: its path with every `/` as `_`. */
  function ImportAlias(dep: string): string {
    ReplaceAll(dep, "/", "_")
  }

  /** `import * as alias from 'dep';` for each dependency, in order. */
  function ImportLines(deps: seq<string>, level: int): (r: seq<string>)
    ensures |r| == |deps|
  {
    seq(|deps|, k requires 0 <= k < |deps| => Line(level, "import * as " + ImportAlias(deps[k]) + " from '" + deps[k] + "';"))
  }

  /** The header comment and a blank line, then the imports and a blank line. */
  function TsHeaderLines(dependencies: Option<Node>, level: int): seq<string>
    requires dependencies.Some? ==> dependencies.value.Dependencies?
  {
    [Line(level, "// Generated TypeScript code from VL"), ""]
    + (if dependencies.None? then [] else ImportLines(dependencies.value.deps, level) + [""])
  }

  function TsExportLines(exportDecl: Option<Node>, level: int): seq<string>
    requires exportDecl.Some? ==> exportDecl.value.Export?
  {
    if exportDecl.None? then [] else ["", Line(level, "export { " + exportDecl.value.name + " };")]
  }

  /** `generate`: the header and imports, the statements, then the export; `None` when a
      statement crashes. Metadata is not printed. */
  function TProgramLines(prog: Node, level: int): Option<seq<string>>
    requires IsProgram(prog)
  {
    var body := TBody(prog.statements, level);
    if body.None? then None
    else Some(TsHeaderLines(prog.dependencies, level) + body.value + TsExportLines(prog.exportDecl, level))
  }

  class TSCodeGenerator {
    const ast: Node
    var code: seq<string>
    var indentLevel: int

    /** `__init__`. */
    constructor (ast: Node)
      ensures this.ast == ast && code == [] && indentLevel == 0
    {
      this.ast := ast;
      code := [];
      indentLevel := 0;
    }

    /** `generate`: appends the program's lines to whatever was generated before and
        returns all of it. */
    method Generate() returns (r: Option<string>)
      requires IsProgram(ast)
      modifies this
      ensures r.Some? <==> TProgramLines(ast, old(indentLevel)).Some?
      ensures r.Some? ==> code == old(code) + TProgramLines(ast, old(indentLevel)).value &&
                          r.value == Join(code, "\n") && indentLevel == old(indentLevel)
    {
      GenerateHeader(ast.dependencies);
      var ok := GenerateBody(ast.statements);
      if !ok {
        return None;
      }
      GenerateExport(ast.exportDecl);
      r := Some(Join(code, "\n"));
    }

    /** `generate` on a generator that has not generated anything yet, called twice: the
        second call returns the first text twice over, joined by a newline. */
    method GenerateTwice() returns (first: Option<string>, second: Option<string>)
      requires IsProgram(ast) && code == []
      modifies this
      ensures first.Some? <==> TProgramLines(ast, old(indentLevel)).Some?
      ensures first.Some? ==> first.value == Join(TProgramLines(ast, old(indentLevel)).value, "\n")
      ensures first.Some? ==> second.Some? && second.value == first.value + "\n" + first.value
    {
      ghost var lines := TProgramLines(ast, indentLevel);
      first := Generate();
      if first.None? {
        second := None;
        return;
      }
      assert code == lines.value && |lines.value| >= 2;
      second := Generate();
      assert code == lines.value + lines.value;
      JoinConcat(lines.value, lines.value, "\n");
    }

    /** `generate` with the output cleared first, as the JavaScript and Python generators
        do: the text depends only on the tree and the level. */
    method GenerateFresh() returns (r: Option<string>)
      requires IsProgram(ast)
      modifies this
      ensures r.Some? <==> TProgramLines(ast, old(indentLevel)).Some?
      ensures r.Some? ==> code == TProgramLines(ast, old(indentLevel)).value && r.value == Join(code, "\n")
    {
      code := [];
      r := Generate();
    }

    /** `_emit`. */
    method Emit(line: string)
      modifies this
      ensures code == old(code) + [Line(indentLevel, line)] && indentLevel == old(indentLevel)
    {
      code := code + [Line(indentLevel, line)];
    }

    /** The header comment and a blank line, then one `import` per dependency and a blank
        line. */
    method GenerateHeader(dependencies: Option<Node>)
      requires dependencies.Some? ==> dependencies.value.Dependencies?
      modifies this
      ensures code == old(code) + TsHeaderLines(dependencies, old(indentLevel)) && indentLevel == old(indentLevel)
    {
      Emit("// Generated TypeScript code from VL");
      Emit("");
      ghost var start := code;
      if dependencies.Some? {
        var deps := dependencies.value.deps;
        for i := 0 to |deps|
          invariant indentLevel == old(indentLevel) && code == start + ImportLines(deps[..i], indentLevel)
        {
          Emit("import * as " + ReplaceAll(deps[i], "/", "_") + " from '" + deps[i] + "';");
          assert ImportLines(deps[..i + 1], indentLevel) == ImportLines(deps[..i], indentLevel) + [Line(indentLevel,
            "import * as " + ImportAlias(deps[i]) + " from '" + deps[i] + "';")];
        }
        assert deps[..|deps|] == deps;
        Emit("");
      }
    }

    /** A blank line and the `export` line. */
    method GenerateExport(exportDecl: Option<Node>)
      requires exportDecl.Some? ==> exportDecl.value.Export?
      modifies this
      ensures code == old(code) + TsExportLines(exportDecl, old(indentLevel)) && indentLevel == old(indentLevel)
    {
      if exportDecl.Some? {
        Emit("");
        Emit("export { " + exportDecl.value.name + " };");
      }
    }

    /** `_generate_statement`. A crash ends generation, so the lines and the level are
        stated for a statement that does not crash. */
    method GenerateStatement(stmt: Node) returns (ok: bool)
      modifies this
      ensures ok == TStmtLines(stmt, old(indentLevel)).Some?
      ensures ok ==> code == old(code) + TStmtLines(stmt, old(indentLevel)).value && indentLevel == old(indentLevel)
      decreases stmt, 2
    {
      if stmt.FunctionDef? {
        ok := GenerateFunction(stmt);
      } else if stmt.VariableDef? {
        ok := GenerateVariableDef(stmt);
      } else if stmt.CompoundAssignment? {
        ok := GenerateLine(stmt.name + " " + stmt.operator + "= ", stmt.value, ";");
      } else if stmt.ReturnStmt? {
        ok := GenerateLine("return ", stmt.value, ";");
      } else if stmt.DirectCall? {
        ok := GenerateLine("", stmt.call, ";");
      } else if stmt.IfStmt? {
        ok := GenerateIfStmt(stmt);
      } else if stmt.ForLoop? {
        ok := GenerateForLoop(stmt);
      } else if stmt.WhileLoop? {
        ok := GenerateWhileLoop(stmt);
      } else if stmt.APICall? {
        ok := GenerateApiCall(stmt);
      } else if stmt.DataPipeline? {
        ok := GenerateDataPipeline(stmt);
      } else if stmt.FileOperation? {
        ok := GenerateFileOperation(stmt);
      } else if stmt.UIComponent? {
        ok := GenerateUiComponent(stmt);
      } else {
        Emit("// TODO: " + ClassName(stmt));
        ok := true;
      }
    }

    /** The statements of a block, in order, at the current level. */
    method GenerateBody(body: seq<Node>) returns (ok: bool)
      modifies this
      ensures ok == TBody(body, old(indentLevel)).Some?
      ensures ok ==> code == old(code) + TBody(body, old(indentLevel)).value && indentLevel == old(indentLevel)
      decreases body, 0
    {
      for i := 0 to |body|
        invariant indentLevel == old(indentLevel)
        invariant TBody(body[..i], indentLevel).Some? && code == old(code) + TBody(body[..i], indentLevel).value
      {
        ghost var before := code;
        ghost var level := indentLevel;
        ok := GenerateStatement(body[i]);
        TBodySnoc(body, i, level);
        if !ok {
          TBodyPrefix(body, i + 1, level);
          return;
        }
        CodegenC.ThenSteps(TBody(body[..i], level), TStmtLines(body[i], level), old(code), before, code);
      }
      assert body[..|body|] == body;
      ok := true;
    }

    /** A block body one level deeper than the current level, then its closing `}`. */
    method GenerateBlock(body: seq<Node>) returns (ok: bool)
      modifies this
      ensures ok == TBody(body, old(indentLevel) + 1).Some?
      ensures ok ==> code == old(code) + TBody(body, old(indentLevel) + 1).value + [Line(old(indentLevel), "}")]
      ensures ok ==> indentLevel == old(indentLevel)
      decreases body, 1
    {
      indentLevel := indentLevel + 1;
      ok := GenerateBody(body);
      if !ok {
        return;
      }
      indentLevel := indentLevel - 1;
      Emit("}");
    }

    /** The parameter loop of `_generate_function`. */
    method FunctionHeader(fd: Node) returns (header: string)
      requires fd.FunctionDef?
      ensures header == TsHeader(fd)
    {
      var params: seq<string> := [];
      for i := 0 to |fd.inputTypes|
        invariant params == TParams(fd.inputTypes[..i])
      {
        TParamsSnoc(fd.inputTypes, i);
        params := params + ["i" + NatToString(i) + ": " + TypeToTs(fd.inputTypes[i])];
      }
      assert fd.inputTypes[..|fd.inputTypes|] == fd.inputTypes;
      header := "function " + fd.name + "(" + Join(params, ", ") + "): " + TypeToTs(fd.outputType) + " {";
    }

    /** `_generate_function`. */
    method GenerateFunction(node: Node) returns (ok: bool)
      requires node.FunctionDef?
      modifies this
      ensures ok == TFunctionLines(node, old(indentLevel)).Some?
      ensures ok ==> code == old(code) + TFunctionLines(node, old(indentLevel)).value && indentLevel == old(indentLevel)
      decreases node, 1
    {
      ghost var level := indentLevel;
      var header := FunctionHeader(node);
      Emit(header);
      ghost var afterHeader := code;
      ok := GenerateBlock(node.body);
      if ok {
        Emit("");
      }
      CodegenC.BlockSteps(Some([Line(level, TsHeader(node))]), TBody(node.body, level + 1), [Line(level, "}"), ""],
        old(code), afterHeader, code);
    }

    /** `_generate_variable_def`. */
    method GenerateVariableDef(node: Node) returns (ok: bool)
      requires node.VariableDef?
      modifies this
      ensures ok == TExpr(node.value).Some?
      ensures ok ==> code == old(code) + TVariableLines(node.name, node.typeAnnotation, TExpr(node.value), old(indentLevel)).value
      ensures indentLevel == old(indentLevel)
    {
      var value := TExpr(node.value);
      if value.None? {
        return false;
      }
      if node.typeAnnotation.Some? {
        Emit("let " + node.name + ": " + TypeToTs(node.typeAnnotation.value) + " = " + value.value + ";");
      } else {
        Emit("let " + node.name + " = " + value.value + ";");
      }
      ok := true;
    }

    /** A one-line statement around one expression: compound assignment, return and
        direct call. */
    method GenerateLine(prefix: string, expr: Node, suffix: string) returns (ok: bool)
      modifies this
      ensures ok == TExpr(expr).Some?
      ensures ok ==> code == old(code) + OneLine(prefix, TExpr(expr), suffix, old(indentLevel)).value
      ensures indentLevel == old(indentLevel)
    {
      var value := TExpr(expr);
      if value.None? {
        return false;
      }
      Emit(prefix + value.value + suffix);
      ok := true;
    }

    /** `_generate_if_stmt`. */
    method GenerateIfStmt(node: Node) returns (ok: bool)
      requires node.IfStmt?
      modifies this
      ensures ok == TIfLines(node, old(indentLevel)).Some?
      ensures ok ==> code == old(code) + TIfLines(node, old(indentLevel)).value && indentLevel == old(indentLevel)
    {
      var condition := TExpr(node.condition);
      var trueCode := TExpr(node.trueExpr);
      var falseCode := TExpr(node.falseExpr);
      if condition.None? || trueCode.None? || falseCode.None? {
        return false;
      }
      Emit("if (" + condition.value + ") {");
      indentLevel := indentLevel + 1;
      Emit(trueCode.value + ";");
      indentLevel := indentLevel - 1;
      Emit("} else {");
      indentLevel := indentLevel + 1;
      Emit(falseCode.value + ";");
      indentLevel := indentLevel - 1;
      Emit("}");
      ok := true;
    }

    /** `_generate_for_loop`. */
    method GenerateForLoop(node: Node) returns (ok: bool)
      requires node.ForLoop?
      modifies this
      ensures ok == TForLines(node, old(indentLevel)).Some?
      ensures ok ==> code == old(code) + TForLines(node, old(indentLevel)).value && indentLevel == old(indentLevel)
      decreases node, 1
    {
      ghost var level := indentLevel;
      ok := GenerateLine("for (const " + node.variable + " of ", node.iterable, ") {");
      if !ok {
        return;
      }
      ghost var afterHeader := code;
      ok := GenerateBlock(node.body);
      CodegenC.BlockSteps(OneLine("for (const " + node.variable + " of ", TExpr(node.iterable), ") {", level),
        TBody(node.body, level + 1), [Line(level, "}")], old(code), afterHeader, code);
    }

    /** `_generate_while_loop`. */
    method GenerateWhileLoop(node: Node) returns (ok: bool)
      requires node.WhileLoop?
      modifies this
      ensures ok == TWhileLines(node, old(indentLevel)).Some?
      ensures ok ==> code == old(code) + TWhileLines(node, old(indentLevel)).value && indentLevel == old(indentLevel)
      decreases node, 1
    {
      ghost var level := indentLevel;
      ok := GenerateLine("while (", node.condition, ") {");
      if !ok {
        return;
      }
      ghost var afterHeader := code;
      ok := GenerateBlock(node.body);
      CodegenC.BlockSteps(OneLine("while (", TExpr(node.condition), ") {", level), TBody(node.body, level + 1),
        [Line(level, "}")], old(code), afterHeader, code);
    }

    /** `_generate_api_call`. */
    method GenerateApiCall(node: Node) returns (ok: bool)
      requires node.APICall?
      modifies this
      ensures ok == TStmtLines(node, old(indentLevel)).Some?
      ensures ok ==> code == old(code) + TStmtLines(node, old(indentLevel)).value
      ensures indentLevel == old(indentLevel)
    {
      var httpMethod := Upper(node.httpMethod);
      var endpoint := TExpr(node.endpoint);
      if endpoint.None? {
        return false;
      }
      if node.options.Some? {
        ok := GenerateLine("fetch(" + endpoint.value + ", {method: '" + httpMethod + "', ...", node.options.value, "})");
      } else if httpMethod == "GET" {
        Emit("fetch(" + endpoint.value + ")");
        ok := true;
      } else {
        Emit("fetch(" + endpoint.value + ", {method: '" + httpMethod + "'})");
        ok := true;
      }
    }

    /** `_generate_data_pipeline`: the flattened source, then each operation in order. */
    method GenerateDataPipeline(node: Node) returns (ok: bool)
      requires node.DataPipeline?
      modifies this
      ensures ok == TPipelineLines(node, old(indentLevel)).Some?
      ensures ok ==> code == old(code) + TPipelineLines(node, old(indentLevel)).value
      ensures indentLevel == old(indentLevel)
    {
      var (base, ops) := CodegenJs.Flatten(node);
      var source := TExpr(base);
      if source.None? {
        return false;
      }
      Emit("// Data pipeline from: " + source.value);
      Emit("let data = " + source.value + ";");
      ghost var start := code;
      for i := 0 to |ops|
        invariant indentLevel == old(indentLevel)
        invariant TOpsLines(ops[..i], indentLevel).Some? && code == start + TOpsLines(ops[..i], indentLevel).value
      {
        ghost var before := code;
        ok := GenerateOperation(ops[i]);
        TOpsSnoc(ops, i, indentLevel);
        if !ok {
          TOpsPrefix(ops, i + 1, indentLevel);
          return;
        }
        CodegenC.ThenSteps(TOpsLines(ops[..i], indentLevel), TOpLines(ops[i], indentLevel), start, before, code);
      }
      assert ops[..|ops|] == ops;
      ok := true;
    }

    /** One operation of a pipeline statement. */
    method GenerateOperation(op: Node) returns (ok: bool)
      modifies this
      ensures ok == TOpLines(op, old(indentLevel)).Some?
      ensures ok ==> code == old(code) + TOpLines(op, old(indentLevel)).value
      ensures indentLevel == old(indentLevel)
    {
      if op.FilterOp? {
        var condition := TExpr(op.condition);
        if condition.None? {
          return false;
        }
        Emit("data = data.filter((x: any) => " + ReplaceAll(condition.value, "item", "x") + ");");
      } else if op.MapOp? {
        if op.expression.Some? {
          var e := TExpr(op.expression.value);
          if e.None? {
            return false;
          }
          Emit("data = data.map((x: any) => " + ReplaceAll(e.value, "item", "x") + ");");
        } else if op.fields.Some? && op.fields.value != [] {
          Emit("data = data.map((x: any) => ({ " + Join(CodegenJs.FieldCopies(op.fields.value), ", ") + " }));");
        }
      } else if op.GroupByOp? {
        GenerateGroupBy(op.field);
      } else if op.SortOp? {
        var (first, second) := if op.order == "desc" then ("b", "a") else ("a", "b");
        Emit("data = data.sort((a: any, b: any) => " + SortKey(first, op.field) + " - " + SortKey(second, op.field) + ");");
      }
      ok := true;
    }

    /** The grouping step of a pipeline. */
    method GenerateGroupBy(field: string)
      modifies this
      ensures code == old(code) + TGroupByLines(field, old(indentLevel)) && indentLevel == old(indentLevel)
    {
      Emit("data = data.reduce((groups: Record<string, any[]>, x: any) => {");
      Emit("    const key = x." + field + " || x['" + field + "'];");
      Emit("    if (!groups[key]) groups[key] = [];");
      Emit("    groups[key].push(x);");
      Emit("    return groups;");
      Emit("}, {});");
    }

    /** `_generate_file_operation`. */
    method GenerateFileOperation(node: Node) returns (ok: bool)
      requires node.FileOperation?
      modifies this
      ensures ok == TStmtLines(node, old(indentLevel)).Some?
      ensures ok ==> code == old(code) + TStmtLines(node, old(indentLevel)).value
      ensures indentLevel == old(indentLevel)
    {
      var path := TExpr(node.path);
      if path.None? {
        return false;
      }
      if node.operation == "read" {
        Emit("import * as fs from 'fs';");
        Emit("const content: string = fs.readFileSync(" + path.value + ", 'utf8');");
      } else if node.operation == "write" && node.arguments != [] {
        var content := TExpr(node.arguments[0]);
        if content.None? {
          return false;
        }
        Emit("import * as fs from 'fs';");
        Emit("fs.writeFileSync(" + path.value + ", " + content.value + ", 'utf8');");
      }
      ok := true;
    }

    /** `_generate_ui_component`. */
    method GenerateUiComponent(node: Node) returns (ok: bool)
      requires node.UIComponent?
      modifies this
      ensures ok == TStmtLines(node, old(indentLevel)).Some?
      ensures ok ==> code == old(code) + TStmtLines(node, old(indentLevel)).value && indentLevel == old(indentLevel)
    {
      if node.stateVars != [] {
        return false;
      }
      Emit("// React Component: " + node.name);
      Emit("function " + node.name + "(props: any): JSX.Element {");
      indentLevel := indentLevel + 1;
      Emit("return null as any; // JSX would be generated here");
      indentLevel := indentLevel - 1;
      Emit("}");
      Emit("");
      ok := true;
    }
  }
}

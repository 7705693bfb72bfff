/** The JavaScript generator (src/vl/codegen/javascript.py): statement emission into an
    output list with an indentation level, a pure expression printer, and the flattening
    of nested data pipelines.

    The statement generators are methods of `JSCodeGenerator`, each proved to append
    exactly the lines the function `StmtLines` gives for the statement at the current
    level and to leave the level as it found it. */
module CodegenJs {
  import opened Wrappers
  import opened Strings
  import opened Ast
  import opened CodegenBase

  /** `'    ' * indent_level + code`, or "" for an empty line. */
  function Line(level: int, code: string): string {
    IndentedLine("    ", level, code)
  }

  // ----- Expressions -----

  /** `op_map.get(op, op)`: the legacy word operators become symbols and equality is
      strict. */
  function MapOperator(op: string): (r: string)
    ensures r != "==" && r != "!="
    ensures op != "and" && op != "or" && op != "not" && op != "==" && op != "!=" ==> r == op
  {
    if op == "and" then "&&"
    else if op == "or" then "||"
    else if op == "not" then "!"
    else if op == "==" then "==="
    else if op == "!=" then "!=="
    else op
  }

  /** The inclusive range `start..end` as an array. */
  function RangeText(start: string, end: string): string {
    "Array.from({length: (" + end + ") - (" + start + ") + 1}, (_, i) => i + (" + start + "))"
  }

  /** An API call as a `fetch`; a GET without options has no options object. */
  function FetchText(httpMethod: string, endpoint: string, options: Option<string>): string {
    if options.Some? then "fetch(" + endpoint + ", {method: '" + httpMethod + "', ..." + options.value + "})"
    else if httpMethod == "GET" then "fetch(" + endpoint + ")"
    else "fetch(" + endpoint + ", {method: '" + httpMethod + "'})"
  }

  /** The field an aggregate reads: `op.field or 'value'`. */
  function AggregateField(aggField: Option<string>): string {
    if aggField.None? || aggField.value == "" then "value" else aggField.value
  }

  /** The aggregate of grouped data `groups`, for the five known functions. */
  function AggregateText(aggFunction: string, field: string, groups: string): Option<string> {
    var perGroup :=
      if aggFunction == "count" then Some("v.length")
      else if aggFunction == "sum" then
        Some("v.reduce((sum, x) => sum + (x." + field + " || x['" + field + "'] || 0), 0)")
      else if aggFunction == "avg" then
        Some("v.reduce((sum, x) => sum + (x." + field + " || x['" + field + "'] || 0), 0) / v.length")
      else if aggFunction == "min" then
        Some("Math.min(...v.map(x => x." + field + " || x['" + field + "'] || 0))")
      else if aggFunction == "max" then
        Some("Math.max(...v.map(x => x." + field + " || x['" + field + "'] || 0))")
      else None;
    if perGroup.None? then None
    else Some("Object.fromEntries(Object.entries(" + groups + ").map(([k, v]) => [k, " + perGroup.value + "]))")
  }

  /** The comparator of a sort by `field`: descending for "desc", ascending otherwise. */
  function SortComparator(field: string, order: string): string {
    if order == "desc" then "(a, b) => (b." + field + " || b['" + field + "']) - (a." + field + " || a['" + field + "'])"
    else "(a, b) => (a." + field + " || a['" + field + "']) - (b." + field + " || b['" + field + "'])"
  }

  /** The grouping reducer, on one line. */
  function GroupByText(field: string): string {
    "(groups, x) => { const key = x." + field + " || x['" + field + "']; if (!groups[key]) groups[key] = []; groups[key].push(x); return groups; }, {}"
  }

  /** `_generate_expression`. */
  function Expr(node: Node): string
    decreases node, 2
  {
    if node.NumberLiteral? then NumberText(node.number)
    else if node.StringLiteral? then
      var quote := if node.isTemplate then "`" else "'";
      quote + node.text + quote
    else if node.BooleanLiteral? then (if node.flag then "true" else "false")
    else if node.Identifier? || node.VariableRef? then node.name
    else if node.Operation? then OperationExpr(node)
    else if node.FunctionCall? then Expr(node.callee) + "(" + Join(Exprs(node.arguments), ", ") + ")"
    else if node.ArrayLiteral? then "[" + Join(Exprs(node.elements), ", ") + "]"
    else if node.ObjectLiteral? then "{ " + Join(PairTexts(node.pairs), ", ") + " }"
    else if node.MemberAccess? then Expr(node.target) + "." + node.property
    else if node.IndexAccess? then Expr(node.target) + "[" + Expr(node.index) + "]"
    else if node.RangeExpr? then RangeText(Expr(node.start), Expr(node.end))
    else if node.APICall? then FetchText(Upper(node.httpMethod), Expr(node.endpoint), OptionExpr(node.options))
    else if node.DataPipeline? then PipelineExpr(node)
    else UnknownExpr(node)
  }

  /** An operation: `range` with two operands as an array, one operand as a call of the
      operator, two or more joined by the operator in parentheses. */
  function OperationExpr(node: Node): string
    requires node.Operation?
    decreases node, 1
  {
    var op := node.operator;
    var operands := node.operands;
    if op == "range" && |operands| == 2 then RangeText(Expr(operands[0]), Expr(operands[1]))
    else if |operands| == 1 then MapOperator(op) + "(" + Expr(operands[0]) + ")"
    else if |operands| >= 2 then "(" + Join(Exprs(operands), " " + MapOperator(op) + " ") + ")"
    else UnknownExpr(node)
  }

  /** The fallback for a node the printer has no case for. */
  function UnknownExpr(node: Node): string {
    "/* Unknown Expr: " + ClassName(node) + " */"
  }

  function OptionExpr(child: Option<Node>): Option<string>
    decreases child
  {
    match child
    case None => None
    case Some(c) => Some(Expr(c))
  }

  /** The printed expressions of a list, in order. */
  function Exprs(nodes: seq<Node>): (r: seq<string>)
    ensures |r| == |nodes|
    decreases nodes
  {
    if nodes == [] then [] else [Expr(nodes[0])] + Exprs(nodes[1..])
  }

  /** `key: value` for each object entry, in order. */
  function PairTexts(pairs: seq<Pair>): (r: seq<string>)
    ensures |r| == |pairs|
    decreases pairs
  {
    if pairs == [] then [] else [pairs[0].key + ": " + Expr(pairs[0].value)] + PairTexts(pairs[1..])
  }

  /** A pipeline as an inline chain: its source (itself chained when it is a pipeline),
      then each of its operations in order. */
  function PipelineExpr(p: Node): string
    requires p.DataPipeline?
    decreases p, 1
  {
    var source := if p.source.DataPipeline? then PipelineExpr(p.source) else Expr(p.source);
    ChainOps(source, p.operations)
  }

  /** Each operation wrapped around the chain so far, first operation innermost. */
  function ChainOps(result: string, ops: seq<Node>): string
    decreases ops
  {
    if ops == [] then result else ChainOps(ChainOp(result, ops[0]), ops[1..])
  }

  /** One pipeline operation applied to the chain `result`; a map without an expression
      and the operations without a case (limit, skip, join, parse) leave it unchanged. */
  function ChainOp(result: string, op: Node): string
    decreases op
  {
    if op.FilterOp? then "(" + result + ").filter(x => " + ReplaceAll(Expr(op.condition), "item", "x") + ")"
    else if op.MapOp? then
      if op.expression.Some? then "(" + result + ").map(x => " + ReplaceAll(ExprOf(op.expression), "item", "x") + ")"
      else result
    else if op.GroupByOp? then "(" + result + ").reduce(" + GroupByText(op.field) + ")"
    else if op.AggregateOp? then
      var text := AggregateText(op.aggFunction, AggregateField(op.aggField), result);
      if text.Some? then text.value else result
    else if op.SortOp? then "(" + result + ").sort(" + SortComparator(op.field, op.order) + ")"
    else result
  }

  function ExprOf(child: Option<Node>): string
    requires child.Some?
    decreases child
  {
    match child
    case Some(c) => Expr(c)
  }

  /** `flatten_pipeline`: the innermost source that is not a pipeline, and every operation
      from the innermost pipeline outwards. */
  function Flatten(p: Node): (r: (Node, seq<Node>))
    requires p.DataPipeline?
    ensures !r.0.DataPipeline?
  {
    if p.source.DataPipeline? then
      var (base, ops) := Flatten(p.source);
      (base, ops + p.operations)
    else (p.source, p.operations)
  }

  /** Chaining two lists of operations is chaining their concatenation. */
  lemma {:induction false} ChainOpsConcat(result: string, a: seq<Node>, b: seq<Node>)
    ensures ChainOps(result, a + b) == ChainOps(ChainOps(result, a), b)
    decreases a
  {
    if a != [] {
      assert (a + b)[0] == a[0] && (a + b)[1..] == a[1..] + b;
      ChainOpsConcat(ChainOp(result, a[0]), a[1..], b);
    } else {
      assert a + b == b;
    }
  }

  /** A nested pipeline printed inline is its flattened source with the flattened
      operations chained in order: the expression printer and the statement generator
      agree on what a nested pipeline means. */
  lemma {:induction false} PipelineExprFlattened(p: Node)
    requires p.DataPipeline?
    ensures PipelineExpr(p) == ChainOps(Expr(Flatten(p).0), Flatten(p).1)
    decreases p
  {
    if p.source.DataPipeline? {
      PipelineExprFlattened(p.source);
      var (base, ops) := Flatten(p.source);
      ChainOpsConcat(Expr(base), ops, p.operations);
    }
  }

  /** Flattening keeps every operation: the count is the sum over all nesting levels, and
      the outermost pipeline's operations come last. */
  lemma {:induction false} FlattenKeepsOperations(p: Node)
    requires p.DataPipeline?
    ensures |Flatten(p).1| >= |p.operations|
    ensures Flatten(p).1[|Flatten(p).1| - |p.operations|..] == p.operations
    ensures !p.source.DataPipeline? ==> Flatten(p) == (p.source, p.operations)
    decreases p
  {
    if p.source.DataPipeline? {
      FlattenKeepsOperations(p.source);
      var (base, ops) := Flatten(p.source);
      assert (ops + p.operations)[|ops|..] == p.operations;
    }
  }

  /** The loop of the inline pipeline case: the flattened source, then each operation
      wrapped around the chain so far. It prints exactly what the recursive printer does. */
  method ChainPipeline(p: Node) returns (result: string)
    requires p.DataPipeline?
    ensures result == Expr(p)
  {
    var (base, ops) := Flatten(p);
    result := Expr(base);
    for i := 0 to |ops|
      invariant result == ChainOps(Expr(base), ops[..i])
    {
      ChainOpsConcat(Expr(base), ops[..i], [ops[i]]);
      assert ops[..i + 1] == ops[..i] + [ops[i]];
      result := ChainOp(result, ops[i]);
    }
    assert ops[..|ops|] == ops;
    PipelineExprFlattened(p);
  }

  // ----- Statements -----

  /** `i0, i1, ...`: one implicit parameter name per input type. */
  function ParamNames(n: nat): (r: seq<string>)
    ensures |r| == n
  {
    seq(n, k requires 0 <= k < n => "i" + NatToString(k))
  }

  /** The lines the statement generators emit for `stmt` at indentation `level`. React
      component emission is outside this model: a `UIComponent` contributes no lines. */
  function StmtLines(stmt: Node, level: int): seq<string>
    decreases stmt, 1
  {
    if stmt.FunctionDef? then FunctionDefLines(stmt, level)
    else if stmt.VariableDef? then [Line(level, "let " + stmt.name + " = " + Expr(stmt.value) + ";")]
    else if stmt.ReturnStmt? then [Line(level, "return " + Expr(stmt.value) + ";")]
    else if stmt.DirectCall? then [Line(level, Expr(stmt.call) + ";")]
    else if stmt.IfStmt? then IfStmtLines(stmt, level)
    else if stmt.ForLoop? then ForLoopLines(stmt, level)
    else if stmt.WhileLoop? then WhileLoopLines(stmt, level)
    else if stmt.CompoundAssignment? then [Line(level, stmt.name + " " + stmt.operator + "= " + Expr(stmt.value) + ";")]
    else if stmt.APICall? then [Line(level, Expr(stmt))]
    else if stmt.DataPipeline? then PipelineLines(stmt, level)
    else if stmt.FileOperation? then FileLines(stmt.operation, Expr(stmt.path), stmt.arguments, level)
    else if stmt.UIComponent? then []
    else [Line(level, UnsupportedComment(stmt))]
  }

  /** A function: the header, the body one level deeper, `}` and a blank line. */
  function FunctionDefLines(stmt: Node, level: int): seq<string>
    requires stmt.FunctionDef?
    decreases stmt, 0
  {
    [Line(level, FunctionHeader(stmt))] + BodyLines(stmt.body, level + 1) + [Line(level, "}"), ""]
  }

  /** `function name(i0, ..., i{N-1}) {` with one parameter per input type. */
  function FunctionHeader(stmt: Node): string
    requires stmt.FunctionDef?
  {
    "function " + stmt.name + "(" + Join(ParamNames(|stmt.inputTypes|), ", ") + ") {"
  }

  /** A block emitted as its header line, then its body, then its closing lines. */
  lemma BlockSteps(start: seq<string>, afterHeader: seq<string>, afterBody: seq<string>, after: seq<string>,
                   header: string, body: seq<string>, closing: seq<string>)
    requires afterHeader == start + [header] && afterBody == afterHeader + body
    requires after == afterBody + closing
    ensures after == start + ([header] + body + closing)
  {
  }

  /** The ternary `if` as a block: both branches as expression statements. */
  function IfStmtLines(stmt: Node, level: int): seq<string>
    requires stmt.IfStmt?
  {
    [Line(level, "if (" + Expr(stmt.condition) + ") {"), Line(level + 1, Expr(stmt.trueExpr) + ";"),
     Line(level, "} else {"), Line(level + 1, Expr(stmt.falseExpr) + ";"), Line(level, "}")]
  }

  function ForLoopLines(stmt: Node, level: int): seq<string>
    requires stmt.ForLoop?
    decreases stmt, 0
  {
    [Line(level, "for (const " + stmt.variable + " of " + Expr(stmt.iterable) + ") {")]
    + BodyLines(stmt.body, level + 1) + [Line(level, "}")]
  }

  function WhileLoopLines(stmt: Node, level: int): seq<string>
    requires stmt.WhileLoop?
    decreases stmt, 0
  {
    [Line(level, "while (" + Expr(stmt.condition) + ") {")] + BodyLines(stmt.body, level + 1) + [Line(level, "}")]
  }

  /** A pipeline statement: the flattened source assigned to `data`, then one step per
      operation. */
  function PipelineLines(stmt: Node, level: int): seq<string>
    requires stmt.DataPipeline?
  {
    var (base, ops) := Flatten(stmt);
    [Line(level, "// Data pipeline from: " + Expr(base)), Line(level, "let data = " + Expr(base) + ";")]
    + OpsLines(ops, level)
  }

  /** The warning emitted for a statement without a generator. */
  function UnsupportedComment(stmt: Node): string {
    "// Warning: Unsupported statement type " + ClassName(stmt)
  }

  /** The lines of a statement list, in order. */
  function BodyLines(body: seq<Node>, level: int): seq<string>
    decreases body
  {
    if body == [] then [] else BodyLines(body[..|body| - 1], level) + StmtLines(body[|body| - 1], level)
  }

  /** The lines of one operation of a pipeline statement, which works on `data`. */
  function OpLines(op: Node, level: int): seq<string> {
    if op.FilterOp? then [Line(level, "data = data.filter(x => " + ReplaceAll(Expr(op.condition), "item", "x") + ");")]
    else if op.MapOp? then
      if op.expression.Some? then
        [Line(level, "data = data.map(x => " + ReplaceAll(Expr(op.expression.value), "item", "x") + ");")]
      else if op.fields.Some? && op.fields.value != [] then
        [Line(level, "data = data.map(x => ({ " + Join(FieldCopies(op.fields.value), ", ") + " }));")]
      else []
    else if op.GroupByOp? then GroupByLines(op.field, level)
    else if op.AggregateOp? then
      var text := AggregateText(op.aggFunction, AggregateField(op.aggField), "data");
      if text.Some? then [Line(level, "data = " + text.value + ";")] else []
    else if op.SortOp? then [Line(level, "data = data.sort(" + SortComparator(op.field, op.order) + ");")]
    else []
  }

  /** The grouping step of a pipeline statement, as a multi-line `reduce`. */
  function GroupByLines(field: string, level: int): seq<string> {
    [Line(level, "data = data.reduce((groups, x) => {"),
     Line(level, "    const key = x." + field + " || x['" + field + "'];"),
     Line(level, "    if (!groups[key]) groups[key] = [];"),
     Line(level, "    groups[key].push(x);"),
     Line(level, "    return groups;"),
     Line(level, "}, {});")]
  }

  /** `f: x.f` for each extracted field. */
  function FieldCopies(fields: seq<string>): (r: seq<string>)
    ensures |r| == |fields|
  {
    seq(|fields|, k requires 0 <= k < |fields| => fields[k] + ": x." + fields[k])
  }

  function OpsLines(ops: seq<Node>, level: int): seq<string> {
    if ops == [] then [] else OpsLines(ops[..|ops| - 1], level) + OpLines(ops[|ops| - 1], level)
  }

  /** Emitting the lines of `body[i]` after those of `body[..i]` gives those of `body[..i + 1]`. */
  lemma BodyLinesSnoc(body: seq<Node>, i: nat, level: int, start: seq<string>, before: seq<string>, after: seq<string>)
    requires i < |body| && before == start + BodyLines(body[..i], level)
    requires after == before + StmtLines(body[i], level)
    ensures after == start + BodyLines(body[..i + 1], level)
  {
    assert body[..i + 1][..i] == body[..i];
  }

  /** Emitting the lines of `ops[i]` after those of `ops[..i]` gives those of `ops[..i + 1]`. */
  lemma OpsLinesSnoc(ops: seq<Node>, i: nat, level: int, start: seq<string>, before: seq<string>, after: seq<string>)
    requires i < |ops| && before == start + OpsLines(ops[..i], level)
    requires after == before + OpLines(ops[i], level)
    ensures after == start + OpsLines(ops[..i + 1], level)
  {
    assert ops[..i + 1][..i] == ops[..i];
  }

  /** The lines of a file operation through the `fs` module; a write or append without
      content, and an unknown operation, emit nothing. */
  function FileLines(operation: string, path: string, arguments: seq<Node>, level: int): seq<string> {
    var fs := Line(level, "const fs = require('fs');");
    if operation == "read" then [fs, Line(level, "const content = fs.readFileSync(" + path + ", 'utf8');")]
    else if operation == "write" then
      if arguments != [] then [fs, Line(level, "fs.writeFileSync(" + path + ", " + Expr(arguments[0]) + ", 'utf8');")]
      else []
    else if operation == "append" then
      if arguments != [] then [fs, Line(level, "fs.appendFileSync(" + path + ", " + Expr(arguments[0]) + ", 'utf8');")]
      else []
    else if operation == "delete" then [fs, Line(level, "fs.unlinkSync(" + path + ");")]
    else []
  }

  /** `_generate_program`: metadata comments, one `require` per dependency, the statements,
      then the export. */
  function ProgramLines(prog: Node, level: int): seq<string>
    requires IsProgram(prog)
  {
    HeaderLines(prog, level) + BodyLines(prog.statements, level) + ExportLines(prog.exportDecl, level)
  }

  /** The metadata comments and the `require` lines that open a program. */
  function HeaderLines(prog: Node, level: int): seq<string>
    requires IsProgram(prog)
  {
    MetadataLines(prog.metadata, level) + DependencyLines(prog.dependencies, level)
  }

  function MetadataLines(metadata: Option<Node>, level: int): seq<string>
    requires metadata.Some? ==> metadata.value.Metadata?
  {
    if metadata.None? then []
    else
      var m := metadata.value;
      [Line(level, "// VL Program: " + m.name), Line(level, "// Type: " + m.programType),
       Line(level, "// Target: " + m.targetLanguage), ""]
  }

  function DependencyLines(dependencies: Option<Node>, level: int): seq<string>
    requires dependencies.Some? ==> dependencies.value.Dependencies?
  {
    if dependencies.None? then [] else RequireLines(dependencies.value.deps, level) + [""]
  }

  /** `const d = require('d');` for each dependency, in order. */
  function RequireLines(deps: seq<string>, level: int): (r: seq<string>)
    ensures |r| == |deps|
  {
    seq(|deps|, k requires 0 <= k < |deps| => Line(level, "const " + deps[k] + " = require('" + deps[k] + "');"))
  }

  function ExportLines(exportDecl: Option<Node>, level: int): seq<string>
    requires exportDecl.Some? ==> exportDecl.value.Export?
  {
    if exportDecl.None? then [] else ["", Line(level, "module.exports = { " + exportDecl.value.name + " };")]
  }

  class JSCodeGenerator {
    const ast: Node
    var output: seq<string>
    var indentLevel: int

    constructor (ast: Node)
      ensures this.ast == ast && output == [] && indentLevel == 0
    {
      this.ast := ast;
      output := [];
      indentLevel := 0;
    }

    /** `generate`: the output starts empty, so the text depends only on the tree and the
        level. */
    method Generate() returns (text: string)
      requires IsProgram(ast)
      modifies this
      ensures output == ProgramLines(ast, old(indentLevel)) && indentLevel == old(indentLevel)
      ensures text == Join(output, "\n")
    {
      output := [];
      GenerateProgram(ast);
      text := Join(output, "\n");
    }

    /** `_emit`. */
    method Emit(code: string)
      modifies this
      ensures output == old(output) + [Line(indentLevel, code)] && indentLevel == old(indentLevel)
    {
      output := output + [Line(indentLevel, code)];
    }

    method GenerateProgram(node: Node)
      requires IsProgram(node)
      modifies this
      ensures output == old(output) + ProgramLines(node, old(indentLevel)) && indentLevel == old(indentLevel)
    {
      GenerateHeader(node);
      GenerateBody(node.statements);
      GenerateExport(node.exportDecl);
    }

    method GenerateHeader(node: Node)
      requires IsProgram(node)
      modifies this
      ensures output == old(output) + HeaderLines(node, old(indentLevel)) && indentLevel == old(indentLevel)
    {
      GenerateMetadata(node.metadata);
      GenerateDependencies(node.dependencies);
    }

    /** The metadata comments and a blank line. */
    method GenerateMetadata(metadata: Option<Node>)
      requires metadata.Some? ==> metadata.value.Metadata?
      modifies this
      ensures output == old(output) + MetadataLines(metadata, old(indentLevel)) && indentLevel == old(indentLevel)
    {
      if metadata.Some? {
        var m := metadata.value;
        Emit("// VL Program: " + m.name);
        Emit("// Type: " + m.programType);
        Emit("// Target: " + m.targetLanguage);
        Emit("");
      }
    }

    /** One `require` per dependency and a blank line. */
    method GenerateDependencies(dependencies: Option<Node>)
      requires dependencies.Some? ==> dependencies.value.Dependencies?
      modifies this
      ensures output == old(output) + DependencyLines(dependencies, old(indentLevel)) && indentLevel == old(indentLevel)
    {
      if dependencies.Some? {
        var deps := dependencies.value.deps;
        for i := 0 to |deps|
          invariant indentLevel == old(indentLevel) && output == old(output) + RequireLines(deps[..i], indentLevel)
        {
          Emit("const " + deps[i] + " = require('" + deps[i] + "');");
        }
        assert deps[..|deps|] == deps;
        Emit("");
      }
    }

    /** A blank line and the `module.exports` line. */
    method GenerateExport(exportDecl: Option<Node>)
      requires exportDecl.Some? ==> exportDecl.value.Export?
      modifies this
      ensures output == old(output) + ExportLines(exportDecl, old(indentLevel)) && indentLevel == old(indentLevel)
    {
      if exportDecl.Some? {
        Emit("");
        Emit("module.exports = { " + exportDecl.value.name + " };");
      }
    }

    /** `_generate_statement`: the handler of the statement's class, or the warning. */
    method GenerateStatement(stmt: Node)
      modifies this
      ensures output == old(output) + StmtLines(stmt, old(indentLevel)) && indentLevel == old(indentLevel)
      decreases stmt, 2
    {
      if stmt.FunctionDef? {
        GenerateFunctionDef(stmt);
      } else if stmt.VariableDef? {
        Emit("let " + stmt.name + " = " + Expr(stmt.value) + ";");
      } else if stmt.ReturnStmt? {
        Emit("return " + Expr(stmt.value) + ";");
      } else if stmt.DirectCall? {
        Emit(Expr(stmt.call) + ";");
      } else if stmt.IfStmt? {
        GenerateIfStmt(stmt);
      } else if stmt.ForLoop? {
        GenerateForLoop(stmt);
      } else if stmt.WhileLoop? {
        GenerateWhileLoop(stmt);
      } else if stmt.CompoundAssignment? {
        Emit(stmt.name + " " + stmt.operator + "= " + Expr(stmt.value) + ";");
      } else if stmt.APICall? {
        Emit(Expr(stmt));
      } else if stmt.DataPipeline? {
        GenerateDataPipeline(stmt);
      } else if stmt.FileOperation? {
        GenerateFileOperation(stmt);
      } else if stmt.UIComponent? {
      } else {
        Emit(UnsupportedComment(stmt));
      }
    }

    /** The statements of a block, in order, at the current level. */
    method GenerateBody(body: seq<Node>)
      modifies this
      ensures output == old(output) + BodyLines(body, old(indentLevel)) && indentLevel == old(indentLevel)
      decreases body, 0
    {
      for i := 0 to |body|
        invariant indentLevel == old(indentLevel) && output == old(output) + BodyLines(body[..i], indentLevel)
      {
        ghost var before := output;
        GenerateStatement(body[i]);
        BodyLinesSnoc(body, i, indentLevel, old(output), before, output);
      }
      assert body[..|body|] == body;
    }

    /** `_generate_function_def`: the header, the body one level deeper, `}` and a blank
        line. */
    method GenerateFunctionDef(node: Node)
      requires node.FunctionDef?
      modifies this
      ensures output == old(output) + FunctionDefLines(node, old(indentLevel)) && indentLevel == old(indentLevel)
      decreases node, 1
    {
      ghost var level := indentLevel;
      var header := FunctionHeader(node);
      Emit(header);
      ghost var afterHeader := output;
      indentLevel := indentLevel + 1;
      GenerateBody(node.body);
      ghost var afterBody := output;
      indentLevel := indentLevel - 1;
      Emit("}");
      Emit("");
      BlockSteps(old(output), afterHeader, afterBody, output, Line(level, header), BodyLines(node.body, level + 1),
        [Line(level, "}"), ""]);
    }

    /** `_generate_if_stmt`: both branches as expression statements, one level deeper. */
    method GenerateIfStmt(node: Node)
      requires node.IfStmt?
      modifies this
      ensures output == old(output) + IfStmtLines(node, old(indentLevel)) && indentLevel == old(indentLevel)
    {
      var condition := Expr(node.condition);
      var trueCode := Expr(node.trueExpr);
      var falseCode := Expr(node.falseExpr);
      Emit("if (" + condition + ") {");
      indentLevel := indentLevel + 1;
      Emit(trueCode + ";");
      indentLevel := indentLevel - 1;
      Emit("} else {");
      indentLevel := indentLevel + 1;
      Emit(falseCode + ";");
      indentLevel := indentLevel - 1;
      Emit("}");
    }

    /** `_generate_for_loop`. */
    method GenerateForLoop(node: Node)
      requires node.ForLoop?
      modifies this
      ensures output == old(output) + ForLoopLines(node, old(indentLevel)) && indentLevel == old(indentLevel)
      decreases node, 1
    {
      ghost var level := indentLevel;
      var header := "for (const " + node.variable + " of " + Expr(node.iterable) + ") {";
      Emit(header);
      ghost var afterHeader := output;
      indentLevel := indentLevel + 1;
      GenerateBody(node.body);
      ghost var afterBody := output;
      indentLevel := indentLevel - 1;
      Emit("}");
      BlockSteps(old(output), afterHeader, afterBody, output, Line(level, header), BodyLines(node.body, level + 1),
        [Line(level, "}")]);
    }

    /** `_generate_while_loop`. */
    method GenerateWhileLoop(node: Node)
      requires node.WhileLoop?
      modifies this
      ensures output == old(output) + WhileLoopLines(node, old(indentLevel)) && indentLevel == old(indentLevel)
      decreases node, 1
    {
      ghost var level := indentLevel;
      var header := "while (" + Expr(node.condition) + ") {";
      Emit(header);
      ghost var afterHeader := output;
      indentLevel := indentLevel + 1;
      GenerateBody(node.body);
      ghost var afterBody := output;
      indentLevel := indentLevel - 1;
      Emit("}");
      BlockSteps(old(output), afterHeader, afterBody, output, Line(level, header), BodyLines(node.body, level + 1),
        [Line(level, "}")]);
    }

    /** `_generate_data_pipeline`: the flattened source, then one step per operation. */
    method GenerateDataPipeline(node: Node)
      requires node.DataPipeline?
      modifies this
      ensures output == old(output) + PipelineLines(node, old(indentLevel)) && indentLevel == old(indentLevel)
    {
      var (base, ops) := Flatten(node);
      var source := Expr(base);
      Emit("// Data pipeline from: " + source);
      Emit("let data = " + source + ";");
      GenerateOperations(ops);
    }

    /** `_generate_data_pipeline`'s loop over the operations. */
    method GenerateOperations(ops: seq<Node>)
      modifies this
      ensures output == old(output) + OpsLines(ops, old(indentLevel)) && indentLevel == old(indentLevel)
    {
      for i := 0 to |ops|
        invariant indentLevel == old(indentLevel) && output == old(output) + OpsLines(ops[..i], indentLevel)
      {
        ghost var before := output;
        GenerateOperation(ops[i]);
        OpsLinesSnoc(ops, i, indentLevel, old(output), before, output);
      }
      assert ops[..|ops|] == ops;
    }

    /** One operation of `_generate_data_pipeline`'s loop. */
    method GenerateOperation(op: Node)
      modifies this
      ensures output == old(output) + OpLines(op, old(indentLevel)) && indentLevel == old(indentLevel)
    {
      if op.FilterOp? {
        Emit("data = data.filter(x => " + ReplaceAll(Expr(op.condition), "item", "x") + ");");
      } else if op.MapOp? {
        if op.expression.Some? {
          Emit("data = data.map(x => " + ReplaceAll(Expr(op.expression.value), "item", "x") + ");");
        } else if op.fields.Some? && op.fields.value != [] {
          Emit("data = data.map(x => ({ " + Join(FieldCopies(op.fields.value), ", ") + " }));");
        }
      } else if op.GroupByOp? {
        Emit("data = data.reduce((groups, x) => {");
        Emit("    const key = x." + op.field + " || x['" + op.field + "'];");
        Emit("    if (!groups[key]) groups[key] = [];");
        Emit("    groups[key].push(x);");
        Emit("    return groups;");
        Emit("}, {});");
      } else if op.AggregateOp? {
        var text := AggregateText(op.aggFunction, AggregateField(op.aggField), "data");
        if text.Some? {
          Emit("data = " + text.value + ";");
        }
      } else if op.SortOp? {
        Emit("data = data.sort(" + SortComparator(op.field, op.order) + ");");
      }
    }

    /** `_generate_file_operation`. */
    method GenerateFileOperation(node: Node)
      requires node.FileOperation?
      modifies this
      ensures output == old(output) + FileLines(node.operation, Expr(node.path), node.arguments, old(indentLevel)) && indentLevel == old(indentLevel)
    {
      var op := node.operation;
      var path := Expr(node.path);
      if op == "read" {
        Emit("const fs = require('fs');");
        Emit("const content = fs.readFileSync(" + path + ", 'utf8');");
      } else if op == "write" {
        if node.arguments != [] {
          var content := Expr(node.arguments[0]);
          Emit("const fs = require('fs');");
          Emit("fs.writeFileSync(" + path + ", " + content + ", 'utf8');");
        }
      } else if op == "append" {
        if node.arguments != [] {
          var content := Expr(node.arguments[0]);
          Emit("const fs = require('fs');");
          Emit("fs.appendFileSync(" + path + ", " + content + ", 'utf8');");
        }
      } else if op == "delete" {
        Emit("const fs = require('fs');");
        Emit("fs.unlinkSync(" + path + ");");
      }
    }
  }
}

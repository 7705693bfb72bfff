/** The C generator (src/vl/codegen/c.py): a type map, function signatures with forward
    declarations, a set of `#include`d headers, statement emission into a list of lines
    with an indentation level, and an expression printer.

    Python raises `IndexError` when the printer meets a `**` with fewer than two operands;
    the printer and the statement lines are therefore `Option`s, with `None` for that
    crash. Printing a `**` adds "math.h" to the headers, which is the only effect the
    printer has on the generator; `NeedsMath` tells when it happens. */
module CodegenC {
  import opened Wrappers
  import opened Strings
  import opened Ast
  import opened CodegenBase

  /** `'    ' * indent_level + code`, or "" for an empty line. */
  function Line(level: int, code: string): string {
    IndentedLine("    ", level, code)
  }

  // ----- Types and signatures -----

  /** `_type_to_c`: the known VL type names, and `void*` for any other. */
  function TypeToC(t: Type): (r: string)
    ensures r in {"int", "double", "char*", "bool", "void*", "void"}
    ensures r == "void" <==> t.name == "void"
    ensures r == "void*" <==> t.name !in {"int", "float", "str", "bool", "void"}
  {
    if t.name == "int" then "int"
    else if t.name == "float" then "double"
    else if t.name == "str" then "char*"
    else if t.name == "bool" then "bool"
    else if t.name == "arr" || t.name == "obj" || t.name == "any" then "void*"
    else if t.name == "void" then "void"
    else "void*"
  }

  /** `T{i} i{i}` for each input type, in order. */
  function CParams(inputTypes: seq<Type>): (r: seq<string>)
    ensures |r| == |inputTypes|
  {
    seq(|inputTypes|, k requires 0 <= k < |inputTypes| => TypeToC(inputTypes[k]) + " i" + NatToString(k))
  }

  /** The parameter list: the typed parameters, or "void" for a function without inputs. */
  function ParamsText(inputTypes: seq<Type>): string {
    if inputTypes == [] then "void" else Join(CParams(inputTypes), ", ")
  }

  /** `_generate_function_signature`: `R name(params)`. */
  function Signature(fd: Node): string
    requires fd.FunctionDef?
  {
    TypeToC(fd.outputType) + " " + fd.name + "(" + ParamsText(fd.inputTypes) + ")"
  }

  // ----- Expressions -----

  /** `op_map.get(op, op)`: the word operators become C's, `**` becomes `pow`, and every
      other operator is kept. */
  function COperator(op: string): (r: string)
    ensures r == "pow" <==> op == "**" || op == "pow"
    ensures op != "and" && op != "or" && op != "not" && op != "**" ==> r == op
  {
    if op == "and" then "&&"
    else if op == "or" then "||"
    else if op == "not" then "!"
    else if op == "**" then "pow"
    else op
  }

  /** A string literal in double quotes, each `"` escaped by a backslash. */
  function CString(text: string): string {
    "\"" + ReplaceAll(text, "\"", "\\\"") + "\""
  }

  /** `_generate_expression`; `None` when a `**` has fewer than two operands. */
  function CExpr(node: Node): Option<string>
    decreases node, 2
  {
    if node.NumberLiteral? then Some(NumberText(node.number))
    else if node.StringLiteral? then Some(CString(node.text))
    else if node.BooleanLiteral? then Some(if node.flag then "true" else "false")
    else if node.Identifier? || node.VariableRef? then Some(node.name)
    else if node.Operation? then COperationExpr(node)
    else if node.FunctionCall? then
      var callee := CExpr(node.callee);
      var args := CExprs(node.arguments);
      if callee.None? || args.None? then None else Some(callee.value + "(" + Join(args.value, ", ") + ")")
    else if node.ArrayLiteral? then
      var elements := CExprs(node.elements);
      if elements.None? then None else Some("{" + Join(elements.value, ", ") + "}")
    else if node.MemberAccess? then
      var target := CExpr(node.target);
      if target.None? then None else Some(target.value + "." + node.property)
    else if node.IndexAccess? then
      var target := CExpr(node.target);
      var index := CExpr(node.index);
      if target.None? || index.None? then None else Some(target.value + "[" + index.value + "]")
    else if node.RangeExpr? then
      var start := CExpr(node.start);
      var end := CExpr(node.end);
      if start.None? || end.None? then None else Some("/* range(" + start.value + ", " + end.value + ") */")
    else Some("NULL")
  }

  /** An operation: `pow(l, r)` for a power, `op(x)` for one operand, `(l op r)` for two,
      and "NULL" for any other number of operands. */
  function COperationExpr(node: Node): Option<string>
    requires node.Operation?
    decreases node, 1
  {
    var op := COperator(node.operator);
    var operands := node.operands;
    if op == "pow" then
      if |operands| < 2 then None
      else
        var left := CExpr(operands[0]);
        var right := CExpr(operands[1]);
        if left.None? || right.None? then None else Some("pow(" + left.value + ", " + right.value + ")")
    else if |operands| == 1 then
      var operand := CExpr(operands[0]);
      if operand.None? then None else Some(op + "(" + operand.value + ")")
    else if |operands| == 2 then
      var left := CExpr(operands[0]);
      var right := CExpr(operands[1]);
      if left.None? || right.None? then None else Some("(" + left.value + " " + op + " " + right.value + ")")
    else Some("NULL")
  }

  /** The printed expressions of a list, in order; `None` when one of them crashes. */
  function CExprs(nodes: seq<Node>): (r: Option<seq<string>>)
    ensures r.Some? ==> |r.value| == |nodes|
    decreases nodes
  {
    if nodes == [] then Some([])
    else
      var first := CExpr(nodes[0]);
      var rest := CExprs(nodes[1..]);
      if first.None? || rest.None? then None else Some([first.value] + rest.value)
  }

  /** Printing `node` reaches a power operation, the one place that adds "math.h". */
  function NeedsMath(node: Node): bool
    decreases node
  {
    if node.Operation? then
      COperator(node.operator) == "pow" ||
      (|node.operands| == 1 && NeedsMath(node.operands[0])) ||
      (|node.operands| == 2 && (NeedsMath(node.operands[0]) || NeedsMath(node.operands[1])))
    else if node.FunctionCall? then NeedsMath(node.callee) || AnyNeedsMath(node.arguments)
    else if node.ArrayLiteral? then AnyNeedsMath(node.elements)
    else if node.MemberAccess? then NeedsMath(node.target)
    else if node.IndexAccess? then NeedsMath(node.target) || NeedsMath(node.index)
    else if node.RangeExpr? then NeedsMath(node.start) || NeedsMath(node.end)
    else false
  }

  function AnyNeedsMath(nodes: seq<Node>): bool
    decreases nodes
  {
    nodes != [] && (NeedsMath(nodes[0]) || AnyNeedsMath(nodes[1..]))
  }

  /** The headers printing adds: "math.h" exactly when it reached a power. */
  function MathIf(b: bool): set<string> {
    if b then {"math.h"} else {}
  }

  /** The printer only crashes at a power, so a crash has always added "math.h" first. */
  lemma {:induction false} CrashNeedsMath(node: Node)
    ensures CExpr(node).None? ==> NeedsMath(node)
    decreases node, 1
  {
    if node.Operation? {
      OperationCrashNeedsMath(node);
    } else if node.FunctionCall? {
      CrashNeedsMath(node.callee);
      CrashNeedsMathList(node.arguments);
    } else if node.ArrayLiteral? {
      CrashNeedsMathList(node.elements);
    } else if node.MemberAccess? {
      CrashNeedsMath(node.target);
    } else if node.IndexAccess? {
      CrashNeedsMath(node.target);
      CrashNeedsMath(node.index);
    } else if node.RangeExpr? {
      CrashNeedsMath(node.start);
      CrashNeedsMath(node.end);
    }
  }

  lemma {:induction false} OperationCrashNeedsMath(node: Node)
    requires node.Operation?
    ensures COperationExpr(node).None? ==> NeedsMath(node)
    decreases node, 0
  {
    if |node.operands| == 1 {
      CrashNeedsMath(node.operands[0]);
    } else if |node.operands| == 2 {
      CrashNeedsMath(node.operands[0]);
      CrashNeedsMath(node.operands[1]);
    }
  }

  lemma {:induction false} CrashNeedsMathList(nodes: seq<Node>)
    ensures CExprs(nodes).None? ==> AnyNeedsMath(nodes)
    decreases nodes
  {
    if nodes != [] {
      CrashNeedsMath(nodes[0]);
      CrashNeedsMathList(nodes[1..]);
    }
  }

  // ----- Statements -----

  /** The lines the statement generators emit for `stmt` at indentation `level`, or `None`
      when an expression in it crashes. */
  function CStmtLines(stmt: Node, level: int): Option<seq<string>>
    decreases stmt, 1
  {
    if stmt.FunctionDef? then FunctionLines(stmt, level)
    else if stmt.VariableDef? then
      var value := CExpr(stmt.value);
      if value.None? then None
      else Some([Line(level, DeclaredType(stmt.typeAnnotation) + " " + stmt.name + " = " + value.value + ";")])
    else if stmt.ReturnStmt? then
      var value := CExpr(stmt.value);
      if value.None? then None else Some([Line(level, "return " + value.value + ";")])
    else if stmt.IfStmt? then IfLines(stmt, level)
    else if stmt.ForLoop? then ForLines(stmt, level)
    else if stmt.WhileLoop? then WhileLines(stmt, level)
    else Some(UnsupportedLines(stmt, level))
  }

  /** The declared type of a variable: the mapped annotation, or `int` without one. */
  function DeclaredType(annotation: Option<Type>): string {
    if annotation.Some? then TypeToC(annotation.value) else "int"
  }

  /** The two comments emitted for a statement without a generator. */
  function UnsupportedLines(stmt: Node, level: int): seq<string> {
    [Line(level, "/* UNSUPPORTED: " + ClassName(stmt) + " not yet implemented for C */"),
     Line(level, "/* Please report this at: github.com/vibe-language/issues */")]
  }

  /** A block: its opening lines, its body and its closing lines; `None` when the
      opening or the body crashes. */
  function Block(header: Option<seq<string>>, body: Option<seq<string>>, closing: seq<string>): Option<seq<string>> {
    if header.None? || body.None? then None else Some(header.value + body.value + closing)
  }

  /** A block emitted as its opening lines, then its body and closing lines. */
  lemma BlockSteps(header: Option<seq<string>>, body: Option<seq<string>>, closing: seq<string>,
                   start: seq<string>, afterHeader: seq<string>, after: seq<string>)
    requires header.Some? && afterHeader == start + header.value
    requires body.Some? ==> after == afterHeader + body.value + closing
    ensures Block(header, body, closing).Some? == body.Some?
    ensures body.Some? ==> after == start + Block(header, body, closing).value
  {
  }

  /** A function: `signature {`, the body one level deeper, `}` and a blank line. */
  function FunctionLines(stmt: Node, level: int): Option<seq<string>>
    requires stmt.FunctionDef?
    decreases stmt, 0
  {
    Block(Some([Line(level, Signature(stmt) + " {")]), BodyC(stmt.body, level + 1), [Line(level, "}"), ""])
  }

  /** A function emitted as its header line, then its block and a blank line. */
  lemma FunctionSteps(stmt: Node, level: int, start: seq<string>, afterHeader: seq<string>, after: seq<string>)
    requires stmt.FunctionDef? && afterHeader == start + [Line(level, Signature(stmt) + " {")]
    requires BodyC(stmt.body, level + 1).Some? ==>
             after == afterHeader + BodyC(stmt.body, level + 1).value + [Line(level, "}"), ""]
    ensures FunctionLines(stmt, level).Some? == BodyC(stmt.body, level + 1).Some?
    ensures FunctionLines(stmt, level).Some? ==> after == start + FunctionLines(stmt, level).value
  {
    BlockSteps(Some([Line(level, Signature(stmt) + " {")]), BodyC(stmt.body, level + 1), [Line(level, "}"), ""],
      start, afterHeader, after);
  }

  /** A branch of an `if`: a return statement as such, anything else as `expr;`. */
  function BranchCode(branch: Node): Option<string> {
    if branch.ReturnStmt? then
      var value := CExpr(branch.value);
      if value.None? then None else Some("return " + value.value + ";")
    else
      var value := CExpr(branch);
      if value.None? then None else Some(value.value + ";")
  }

  /** The expression a branch prints: the returned value, or the branch itself. */
  function BranchExpr(branch: Node): Node {
    if branch.ReturnStmt? then branch.value else branch
  }

  function IfLines(stmt: Node, level: int): Option<seq<string>>
    requires stmt.IfStmt?
  {
    IfElse(CExpr(stmt.condition), BranchCode(stmt.trueExpr), BranchCode(stmt.falseExpr), level)
  }

  /** `if (c) {`, the true branch, `} else {`, the false branch and `}`, the branches one
      level deeper. */
  function IfElse(condition: Option<string>, trueCode: Option<string>, falseCode: Option<string>, level: int)
    : Option<seq<string>>
  {
    if condition.None? || trueCode.None? || falseCode.None? then None
    else Some([Line(level, "if (" + condition.value + ") {"), Line(level + 1, trueCode.value),
               Line(level, "} else {"), Line(level + 1, falseCode.value), Line(level, "}")])
  }

  /** The opening lines of a `for`: a counting loop over a range, otherwise two comments
      and a loop over a fixed ten indices. */
  function ForHeader(v: string, iterable: Node, level: int): Option<seq<string>> {
    if iterable.RangeExpr? then RangeForHeader(v, CExpr(iterable.start), CExpr(iterable.end), level)
    else GenericForHeader(CExpr(iterable), level)
  }

  /** `for (int v = s; v < e; v++) {`. */
  function RangeForHeader(v: string, start: Option<string>, end: Option<string>, level: int): Option<seq<string>> {
    if start.None? || end.None? then None
    else Some([Line(level, "for (int " + v + " = " + start.value + "; " + v + " < " + end.value + "; " + v + "++) {")])
  }

  /** The loop over a fixed ten indices, after the iterable is printed and dropped. */
  function GenericForHeader(iterable: Option<string>, level: int): Option<seq<string>> {
    if iterable.None? then None
    else Some([Line(level, "/* Note: C requires explicit array bounds for iteration */"),
     Line(level, "/* Assuming array size is known or using sentinel values */"),
     Line(level, "for (int i = 0; i < 10; i++) {")])
  }

  function ForLines(stmt: Node, level: int): Option<seq<string>>
    requires stmt.ForLoop?
    decreases stmt, 0
  {
    Block(ForHeader(stmt.variable, stmt.iterable, level), BodyC(stmt.body, level + 1), [Line(level, "}")])
  }

  function WhileLines(stmt: Node, level: int): Option<seq<string>>
    requires stmt.WhileLoop?
    decreases stmt, 0
  {
    Block(WhileHeader(CExpr(stmt.condition), level), BodyC(stmt.body, level + 1), [Line(level, "}")])
  }

  /** `while (c) {`. */
  function WhileHeader(condition: Option<string>, level: int): Option<seq<string>> {
    if condition.None? then None else Some([Line(level, "while (" + condition.value + ") {")])
  }

  /** The lines of a statement list, in order; `None` when one of them crashes. */
  function BodyC(body: seq<Node>, level: int): Option<seq<string>>
    decreases body
  {
    if body == [] then Some([]) else Then(BodyC(body[..|body| - 1], level), CStmtLines(body[|body| - 1], level))
  }

  /** Two groups of lines one after the other; `None` when either crashes. */
  function Then(first: Option<seq<string>>, second: Option<seq<string>>): Option<seq<string>> {
    if first.None? || second.None? then None else Some(first.value + second.value)
  }

  /** Generating `stmt` reaches a power in one of its expressions. */
  function StmtNeedsMath(stmt: Node): bool
    decreases stmt
  {
    if stmt.FunctionDef? then BodyNeedsMath(stmt.body)
    else if stmt.VariableDef? || stmt.ReturnStmt? then NeedsMath(stmt.value)
    else if stmt.IfStmt? then
      NeedsMath(stmt.condition) || NeedsMath(BranchExpr(stmt.trueExpr)) || NeedsMath(BranchExpr(stmt.falseExpr))
    else if stmt.ForLoop? then NeedsMath(stmt.iterable) || BodyNeedsMath(stmt.body)
    else if stmt.WhileLoop? then NeedsMath(stmt.condition) || BodyNeedsMath(stmt.body)
    else false
  }

  function BodyNeedsMath(body: seq<Node>): bool
    decreases body
  {
    body != [] && (BodyNeedsMath(body[..|body| - 1]) || StmtNeedsMath(body[|body| - 1]))
  }

  /** The lines of the first `i + 1` statements are those of the first `i`, then those of
      the next one. */
  lemma BodySnoc(body: seq<Node>, i: nat, level: int)
    requires i < |body|
    ensures BodyC(body[..i + 1], level) == Then(BodyC(body[..i], level), CStmtLines(body[i], level))
  {
    var next := body[..i + 1];
    assert next[..i] == body[..i] && next[i] == body[i];
  }

  /** Emitting the second group of lines after the first gives both. */
  lemma ThenSteps(first: Option<seq<string>>, second: Option<seq<string>>,
                  start: seq<string>, before: seq<string>, after: seq<string>)
    requires first.Some? && before == start + first.value
    requires second.Some? && after == before + second.value
    ensures Then(first, second).Some? && after == start + Then(first, second).value
  {
  }

  /** The first `i + 1` statements reach a power when the first `i` or the next one does. */
  lemma BodyMathSnoc(body: seq<Node>, i: nat)
    requires i < |body|
    ensures BodyNeedsMath(body[..i + 1]) == (BodyNeedsMath(body[..i]) || StmtNeedsMath(body[i]))
  {
    assert body[..i + 1][..i] == body[..i];
  }

  /** A statement list with a crashing prefix crashes, and a prefix that reaches a power
      makes the whole list reach one. */
  lemma {:induction false} BodyPrefix(body: seq<Node>, j: nat, level: int)
    requires j <= |body|
    ensures BodyC(body[..j], level).None? ==> BodyC(body, level).None?
    ensures BodyNeedsMath(body[..j]) ==> BodyNeedsMath(body)
    decreases |body| - j
  {
    if j < |body| {
      BodyPrefix(body, j + 1, level);
      assert body[..j + 1][..j] == body[..j];
    } else {
      assert body[..j] == body;
    }
  }

  // ----- The program -----

  /** The headers every program includes. */
  const StdHeaders: set<string> := {"stdbool.h", "stdio.h", "stdlib.h"}

  /** Every header the generator ever adds, in sorted order. */
  const KnownHeaders: seq<string> := ["math.h", "stdbool.h", "stdio.h", "stdlib.h"]

  /** `sorted(includes)` for a set of known headers: the known headers it holds, in the
      order of `KnownHeaders`. */
  function SortedHeaders(includes: set<string>): (r: seq<string>)
    ensures forall k :: 0 <= k < |r| ==> r[k] in includes
  {
    (if "math.h" in includes then ["math.h"] else [])
    + (if "stdbool.h" in includes then ["stdbool.h"] else [])
    + (if "stdio.h" in includes then ["stdio.h"] else [])
    + (if "stdlib.h" in includes then ["stdlib.h"] else [])
  }

  /** `#include <h>` for each header, in order. */
  function IncludeLines(headers: seq<string>, level: int): (r: seq<string>)
    ensures |r| == |headers|
  {
    seq(|headers|, k requires 0 <= k < |headers| => Line(level, "#include <" + headers[k] + ">"))
  }

  /** `signature;` for each top-level function, in order. */
  function ForwardDecls(stmts: seq<Node>, level: int): seq<string>
    decreases stmts
  {
    if stmts == [] then []
    else
      var last := stmts[|stmts| - 1];
      ForwardDecls(stmts[..|stmts| - 1], level) + (if last.FunctionDef? then [Line(level, Signature(last) + ";")] else [])
  }

  /** The lines `generate` emits before the statements, given the headers already added. */
  function PreambleLines(stmts: seq<Node>, includes: set<string>, level: int): seq<string> {
    [Line(level, "/* Generated C code from VL */"), ""]
    + IncludeLines(SortedHeaders(includes + StdHeaders), level) + [""]
    + ForwardDecls(stmts, level) + [""]
  }

  /** `generate`: the preamble, then the statements; `None` when a statement crashes. */
  function ProgramLines(prog: Node, includes: set<string>, level: int): Option<seq<string>>
    requires prog.Program?
  {
    var body := BodyC(prog.statements, level);
    if body.None? then None else Some(PreambleLines(prog.statements, includes, level) + body.value)
  }

  class CCodeGenerator {
    const ast: Node
    var code: seq<string>
    var includes: set<string>
    var indentLevel: int

    /** Only known headers are ever included. */
    predicate Valid()
      reads this
    {
      includes <= {"math.h", "stdbool.h", "stdio.h", "stdlib.h"}
    }

    /** `__init__`. */
    constructor (ast: Node)
      ensures this.ast == ast && code == [] && includes == {} && indentLevel == 0 && Valid()
    {
      this.ast := ast;
      code := [];
      includes := {};
      indentLevel := 0;
    }

    /** `generate`: appends to whatever was generated before; the headers are emitted
        before any statement is printed. */
    method Generate() returns (r: Option<string>)
      requires ast.Program? && Valid()
      modifies this
      ensures Valid()
      ensures includes == old(includes) + StdHeaders + MathIf(BodyNeedsMath(ast.statements))
      ensures r.Some? <==> ProgramLines(ast, old(includes), old(indentLevel)).Some?
      ensures r.Some? ==> code == old(code) + ProgramLines(ast, old(includes), old(indentLevel)).value &&
                          r.value == Join(code, "\n") && indentLevel == old(indentLevel)
    {
      GeneratePreamble();
      var ok := GenerateBody(ast.statements);
      if ok {
        r := Some(Join(code, "\n"));
      } else {
        r := None;
      }
    }

    /** The header comment, the sorted includes and the forward declarations. */
    method GeneratePreamble()
      requires ast.Program?
      modifies this
      ensures includes == old(includes) + StdHeaders && indentLevel == old(indentLevel)
      ensures code == old(code) + PreambleLines(ast.statements, old(includes), old(indentLevel))
    {
      Emit("/* Generated C code from VL */");
      Emit("");
      includes := includes + StdHeaders;
      GenerateIncludes(SortedHeaders(includes));
      Emit("");
      GenerateForwardDecls(ast.statements);
      Emit("");
    }

    /** `#include <h>` for each header, in the order given. */
    method GenerateIncludes(headers: seq<string>)
      modifies this
      ensures code == old(code) + IncludeLines(headers, old(indentLevel))
      ensures includes == old(includes) && indentLevel == old(indentLevel)
    {
      for i := 0 to |headers|
        invariant includes == old(includes) && indentLevel == old(indentLevel)
        invariant code == old(code) + IncludeLines(headers[..i], indentLevel)
      {
        Emit("#include <" + headers[i] + ">");
      }
      assert headers[..|headers|] == headers;
    }

    /** One `signature;` line per top-level function. */
    method GenerateForwardDecls(stmts: seq<Node>)
      modifies this
      ensures code == old(code) + ForwardDecls(stmts, old(indentLevel))
      ensures includes == old(includes) && indentLevel == old(indentLevel)
    {
      for i := 0 to |stmts|
        invariant includes == old(includes) && indentLevel == old(indentLevel)
        invariant code == old(code) + ForwardDecls(stmts[..i], indentLevel)
      {
        assert stmts[..i + 1][..i] == stmts[..i];
        if stmts[i].FunctionDef? {
          var signature := FunctionSignature(stmts[i]);
          Emit(signature + ";");
        }
      }
      assert stmts[..|stmts|] == stmts;
    }

    /** `_generate_function_signature`, with its loop over the input types. */
    method FunctionSignature(fd: Node) returns (signature: string)
      requires fd.FunctionDef?
      ensures signature == Signature(fd)
    {
      var params: seq<string> := [];
      for i := 0 to |fd.inputTypes|
        invariant params == CParams(fd.inputTypes[..i])
      {
        params := params + [TypeToC(fd.inputTypes[i]) + " i" + NatToString(i)];
      }
      assert fd.inputTypes[..|fd.inputTypes|] == fd.inputTypes;
      var paramsText := if params != [] then Join(params, ", ") else "void";
      signature := TypeToC(fd.outputType) + " " + fd.name + "(" + paramsText + ")";
    }

    /** `_emit`. */
    method Emit(line: string)
      modifies this
      ensures code == old(code) + [Line(indentLevel, line)]
      ensures includes == old(includes) && indentLevel == old(indentLevel)
    {
      code := code + [Line(indentLevel, line)];
    }

    /** `_generate_expression`: the printed text, and "math.h" added when the printing
        reaches a power. */
    method GenerateExpression(node: Node) returns (r: Option<string>)
      modifies this
      ensures r == CExpr(node)
      ensures includes == old(includes) + MathIf(NeedsMath(node))
      ensures r.None? ==> NeedsMath(node)
      ensures code == old(code) && indentLevel == old(indentLevel)
    {
      CrashNeedsMath(node);
      r := CExpr(node);
      if NeedsMath(node) {
        includes := includes + {"math.h"};
      }
    }

    /** `_generate_statement`. A crash ends generation, so the lines and the level are
        stated for a statement that does not crash. */
    method GenerateStatement(stmt: Node) returns (ok: bool)
      modifies this
      ensures ok == CStmtLines(stmt, old(indentLevel)).Some?
      ensures ok ==> code == old(code) + CStmtLines(stmt, old(indentLevel)).value && indentLevel == old(indentLevel)
      ensures includes == old(includes) + MathIf(StmtNeedsMath(stmt))
      ensures !ok ==> StmtNeedsMath(stmt)
      decreases stmt, 2
    {
      if stmt.FunctionDef? {
        ok := GenerateFunction(stmt);
      } else if stmt.VariableDef? {
        ok := GenerateVariableDef(stmt);
      } else if stmt.ReturnStmt? {
        ok := GenerateReturnStmt(stmt);
      } else if stmt.IfStmt? {
        ok := GenerateIfStmt(stmt);
      } else if stmt.ForLoop? {
        ok := GenerateForLoop(stmt);
      } else if stmt.WhileLoop? {
        ok := GenerateWhileLoop(stmt);
      } else {
        Emit("/* UNSUPPORTED: " + ClassName(stmt) + " not yet implemented for C */");
        Emit("/* Please report this at: github.com/vibe-language/issues */");
        ok := true;
      }
    }

    /** The statements of a block, in order, at the current level. */
    method GenerateBody(body: seq<Node>) returns (ok: bool)
      modifies this
      ensures ok == BodyC(body, old(indentLevel)).Some?
      ensures ok ==> code == old(code) + BodyC(body, old(indentLevel)).value && indentLevel == old(indentLevel)
      ensures includes == old(includes) + MathIf(BodyNeedsMath(body))
      ensures !ok ==> BodyNeedsMath(body)
      decreases body, 0
    {
      for i := 0 to |body|
        invariant indentLevel == old(indentLevel) && includes == old(includes) + MathIf(BodyNeedsMath(body[..i]))
        invariant BodyC(body[..i], indentLevel).Some? && code == old(code) + BodyC(body[..i], indentLevel).value
      {
        ghost var before := code;
        ghost var level := indentLevel;
        ok := GenerateStatement(body[i]);
        if !ok {
          BodySnoc(body, i, level);
          BodyMathSnoc(body, i);
          BodyPrefix(body, i + 1, level);
          return;
        }
        BodySnoc(body, i, level);
        ThenSteps(BodyC(body[..i], level), CStmtLines(body[i], level), old(code), before, code);
        BodyMathSnoc(body, i);
      }
      assert body[..|body|] == body;
      ok := true;
    }

    /** A block body one level deeper than the current level, then its closing `}`. */
    method GenerateBlock(body: seq<Node>) returns (ok: bool)
      modifies this
      ensures ok == BodyC(body, old(indentLevel) + 1).Some?
      ensures ok ==> code == old(code) + BodyC(body, old(indentLevel) + 1).value + [Line(old(indentLevel), "}")]
      ensures ok ==> indentLevel == old(indentLevel)
      ensures includes == old(includes) + MathIf(BodyNeedsMath(body))
      ensures !ok ==> BodyNeedsMath(body)
      decreases body, 1
    {
      indentLevel := indentLevel + 1;
      ok := GenerateBody(body);
      if !ok {
        return;
      }
      indentLevel := indentLevel - 1;
      Emit("}");
    }

    /** `_generate_function`. */
    method GenerateFunction(node: Node) returns (ok: bool)
      requires node.FunctionDef?
      modifies this
      ensures ok == FunctionLines(node, old(indentLevel)).Some?
      ensures ok ==> code == old(code) + FunctionLines(node, old(indentLevel)).value && indentLevel == old(indentLevel)
      ensures includes == old(includes) + MathIf(BodyNeedsMath(node.body))
      ensures !ok ==> BodyNeedsMath(node.body)
      decreases node, 1
    {
      ghost var level := indentLevel;
      var signature := FunctionSignature(node);
      Emit(signature + " {");
      ghost var afterHeader := code;
      ok := GenerateBlock(node.body);
      if ok {
        Emit("");
      }
      FunctionSteps(node, level, old(code), afterHeader, code);
    }

    /** `_generate_variable_def`: an unannotated variable is declared `int`. */
    method GenerateVariableDef(node: Node) returns (ok: bool)
      requires node.VariableDef?
      modifies this
      ensures ok == CExpr(node.value).Some?
      ensures ok ==> code == old(code) + CStmtLines(node, old(indentLevel)).value && indentLevel == old(indentLevel)
      ensures includes == old(includes) + MathIf(NeedsMath(node.value))
      ensures !ok ==> NeedsMath(node.value)
    {
      var value := GenerateExpression(node.value);
      if value.None? {
        return false;
      }
      Emit(DeclaredType(node.typeAnnotation) + " " + node.name + " = " + value.value + ";");
      ok := true;
    }

    /** `_generate_return_stmt`. */
    method GenerateReturnStmt(node: Node) returns (ok: bool)
      requires node.ReturnStmt?
      modifies this
      ensures ok == CExpr(node.value).Some?
      ensures ok ==> code == old(code) + [Line(old(indentLevel), "return " + CExpr(node.value).value + ";")]
      ensures indentLevel == old(indentLevel) && includes == old(includes) + MathIf(NeedsMath(node.value))
      ensures !ok ==> NeedsMath(node.value)
    {
      var value := GenerateExpression(node.value);
      if value.None? {
        return false;
      }
      Emit("return " + value.value + ";");
      ok := true;
    }

    /** One branch of `_generate_if_stmt`, one level deeper than the `if`. */
    method GenerateBranch(branch: Node) returns (ok: bool)
      modifies this
      ensures ok == BranchCode(branch).Some?
      ensures ok ==> code == old(code) + [Line(old(indentLevel), BranchCode(branch).value)]
      ensures indentLevel == old(indentLevel) && includes == old(includes) + MathIf(NeedsMath(BranchExpr(branch)))
      ensures !ok ==> NeedsMath(BranchExpr(branch))
    {
      if branch.ReturnStmt? {
        ok := GenerateReturnStmt(branch);
      } else {
        var value := GenerateExpression(branch);
        if value.None? {
          return false;
        }
        Emit(value.value + ";");
        ok := true;
      }
    }

    /** `_generate_if_stmt`. */
    method GenerateIfStmt(node: Node) returns (ok: bool)
      requires node.IfStmt?
      modifies this
      ensures ok == IfLines(node, old(indentLevel)).Some?
      ensures ok ==> code == old(code) + IfLines(node, old(indentLevel)).value && indentLevel == old(indentLevel)
      ensures includes == old(includes) + MathIf((NeedsMath(node.condition) || NeedsMath(BranchExpr(node.trueExpr)) || NeedsMath(BranchExpr(node.falseExpr))))
      ensures !ok ==> (NeedsMath(node.condition) || NeedsMath(BranchExpr(node.trueExpr)) || NeedsMath(BranchExpr(node.falseExpr)))
    {
      var condition := GenerateExpression(node.condition);
      if condition.None? {
        return false;
      }
      Emit("if (" + condition.value + ") {");
      ok := GenerateBranches(node.trueExpr, node.falseExpr);
    }

    /** The two branches of `_generate_if_stmt`, each one level deeper, with `} else {`
        between them and `}` after them. */
    method GenerateBranches(trueExpr: Node, falseExpr: Node) returns (ok: bool)
      modifies this
      ensures ok == (BranchCode(trueExpr).Some? && BranchCode(falseExpr).Some?)
      ensures ok ==> indentLevel == old(indentLevel) &&
                     code == old(code) + [Line(old(indentLevel) + 1, BranchCode(trueExpr).value), Line(old(indentLevel), "} else {"),
                                          Line(old(indentLevel) + 1, BranchCode(falseExpr).value), Line(old(indentLevel), "}")]
      ensures includes == old(includes) + MathIf(NeedsMath(BranchExpr(trueExpr)) || NeedsMath(BranchExpr(falseExpr)))
      ensures !ok ==> NeedsMath(BranchExpr(trueExpr)) || NeedsMath(BranchExpr(falseExpr))
    {
      indentLevel := indentLevel + 1;
      ok := GenerateBranch(trueExpr);
      if !ok {
        return;
      }
      indentLevel := indentLevel - 1;
      Emit("} else {");
      indentLevel := indentLevel + 1;
      ok := GenerateBranch(falseExpr);
      if !ok {
        return;
      }
      indentLevel := indentLevel - 1;
      Emit("}");
    }

    /** The opening lines of `_generate_for_loop`. */
    method GenerateForHeader(v: string, iterable: Node) returns (ok: bool, ghost header: Option<seq<string>>)
      modifies this
      ensures header == ForHeader(v, iterable, old(indentLevel)) && ok == header.Some?
      ensures header.Some? ==> code == old(code) + header.value
      ensures indentLevel == old(indentLevel) && includes == old(includes) + MathIf(NeedsMath(iterable))
      ensures header.None? ==> NeedsMath(iterable)
    {
      header := ForHeader(v, iterable, indentLevel);
      if iterable.RangeExpr? {
        ok := GenerateRangeHeader(v, iterable);
      } else {
        var value := GenerateExpression(iterable);
        if value.None? {
          return false, header;
        }
        Emit("/* Note: C requires explicit array bounds for iteration */");
        Emit("/* Assuming array size is known or using sentinel values */");
        Emit("for (int i = 0; i < 10; i++) {");
        ok := true;
      }
    }

    /** The counting loop over a range. */
    method GenerateRangeHeader(v: string, range: Node) returns (ok: bool)
      requires range.RangeExpr?
      modifies this
      ensures ok == RangeForHeader(v, CExpr(range.start), CExpr(range.end), old(indentLevel)).Some?
      ensures ok ==> code == old(code) + RangeForHeader(v, CExpr(range.start), CExpr(range.end), old(indentLevel)).value
      ensures indentLevel == old(indentLevel) && includes == old(includes) + MathIf(NeedsMath(range))
      ensures !ok ==> NeedsMath(range)
    {
      var start := GenerateExpression(range.start);
      if start.None? {
        return false;
      }
      var end := GenerateExpression(range.end);
      if end.None? {
        return false;
      }
      Emit("for (int " + v + " = " + start.value + "; " + v + " < " + end.value + "; " + v + "++) {");
      ok := true;
    }

    /** `_generate_for_loop`. */
    method GenerateForLoop(node: Node) returns (ok: bool)
      requires node.ForLoop?
      modifies this
      ensures ok == ForLines(node, old(indentLevel)).Some?
      ensures ok ==> code == old(code) + ForLines(node, old(indentLevel)).value && indentLevel == old(indentLevel)
      ensures includes == old(includes) + MathIf((NeedsMath(node.iterable) || BodyNeedsMath(node.body)))
      ensures !ok ==> (NeedsMath(node.iterable) || BodyNeedsMath(node.body))
      decreases node, 1
    {
      ghost var level := indentLevel;
      ghost var header;
      ok, header := GenerateForHeader(node.variable, node.iterable);
      if !ok {
        return;
      }
      ghost var afterHeader := code;
      ok := GenerateBlock(node.body);
      BlockSteps(header, BodyC(node.body, level + 1), [Line(level, "}")], old(code), afterHeader, code);
    }

    /** `_generate_while_loop`. */
    method GenerateWhileLoop(node: Node) returns (ok: bool)
      requires node.WhileLoop?
      modifies this
      ensures ok == WhileLines(node, old(indentLevel)).Some?
      ensures ok ==> code == old(code) + WhileLines(node, old(indentLevel)).value && indentLevel == old(indentLevel)
      ensures includes == old(includes) + MathIf((NeedsMath(node.condition) || BodyNeedsMath(node.body)))
      ensures !ok ==> (NeedsMath(node.condition) || BodyNeedsMath(node.body))
      decreases node, 1
    {
      ghost var level := indentLevel;
      var condition := GenerateExpression(node.condition);
      if condition.None? {
        return false;
      }
      Emit("while (" + condition.value + ") {");
      ghost var afterHeader := code;
      ok := GenerateBlock(node.body);
      BlockSteps(WhileHeader(condition, level), BodyC(node.body, level + 1), [Line(level, "}")],
        old(code), afterHeader, code);
    }
  }
}

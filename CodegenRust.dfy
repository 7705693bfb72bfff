/** The Rust generator (src/vl/codegen/rust.py): a type map, `fn` headers with typed
    parameters, statement emission into a list of lines with an indentation level, and an
    expression printer.

    The printer repeats the C generator's operator table (rust.py:205-214) and its string
    quoting (rust.py:190-193) word for word, so `CodegenC.COperator` and `CodegenC.CString`
    serve both, as do the Node-free `CodegenC.Block` and `CodegenC.Then` that put a
    statement's lines together. As in C, Python raises `IndexError` when the printer meets
    a `**` with fewer than two operands: the printer and the statement lines are `Option`s,
    with `None` for that crash. Printing has no effect on the generator here. */
module CodegenRust {
  import opened Wrappers
  import opened Strings
  import opened Ast
  import opened CodegenBase
  import CodegenC

  /** `'    ' * indent_level + code`, or "" for an empty line. */
  function Line(level: int, code: string): string {
    IndentedLine("    ", level, code)
  }

  // ----- Types and headers -----

  /** The VL names `_type_to_rust` knows: the full names and their one-letter aliases. */
  const RustTypeNames: set<string> :=
    {"int", "float", "str", "bool", "arr", "obj", "any", "void", "I", "N", "S", "B", "A", "O", "V"}

  /** `_type_to_rust`: the known names and aliases, and `i32` for any other name. */
  function TypeToRust(t: Type): (r: string)
    ensures r in {"i32", "f64", "&str", "bool", "Vec<i32>", "HashMap<String, String>", "Box<dyn Any>", "()"}
    ensures r == "()" <==> t.name == "void" || t.name == "V"
    ensures t.name !in RustTypeNames ==> r == "i32"
  {
    if t.name == "int" || t.name == "I" then "i32"
    else if t.name == "float" || t.name == "N" then "f64"
    else if t.name == "str" || t.name == "S" then "&str"
    else if t.name == "bool" || t.name == "B" then "bool"
    else if t.name == "arr" || t.name == "A" then "Vec<i32>"
    else if t.name == "obj" || t.name == "O" then "HashMap<String, String>"
    else if t.name == "any" then "Box<dyn Any>"
    else if t.name == "void" || t.name == "V" then "()"
    else "i32"
  }

  /** `i{k}: T{k}` for each input type, in order. */
  function RParams(inputTypes: seq<Type>): (r: seq<string>)
    ensures |r| == |inputTypes|
  {
    seq(|inputTypes|, k requires 0 <= k < |inputTypes| => "i" + NatToString(k) + ": " + TypeToRust(inputTypes[k]))
  }

  /** One more input type adds its parameter at the end. */
  lemma RParamsSnoc(inputTypes: seq<Type>, i: nat)
    requires i < |inputTypes|
    ensures RParams(inputTypes[..i + 1]) == RParams(inputTypes[..i]) + ["i" + NatToString(i) + ": " + TypeToRust(inputTypes[i])]
  {
    var longer, shorter := RParams(inputTypes[..i + 1]), RParams(inputTypes[..i]);
    forall k | 0 <= k < i
      ensures longer[k] == shorter[k]
    {
      assert inputTypes[..i + 1][k] == inputTypes[..i][k];
    }
    var last := "i" + NatToString(i) + ": " + TypeToRust(inputTypes[i]);
    assert longer[i] == last;
    assert longer == shorter + [last];
  }

  /** The opening line of a function: `fn name(i0: T0, …) -> R {`. */
  function FnHeader(fd: Node): string
    requires fd.FunctionDef?
  {
    "fn " + fd.name + "(" + Join(RParams(fd.inputTypes), ", ") + ") -> "
    + TypeToRust(fd.outputType) + " {"
  }

  // ----- Expressions -----

  /** `_generate_expression`: the Rust text of an expression, `None` when Python raises. */
  function RExpr(node: Node): Option<string>
    decreases node, 2
  {
    if node.NumberLiteral? then Some(NumberText(node.number))
    else if node.StringLiteral? then Some(CodegenC.CString(node.text))
    else if node.BooleanLiteral? then Some(if node.flag then "true" else "false")
    else if node.Identifier? || node.VariableRef? then Some(node.name)
    else if node.Operation? then ROperationExpr(node)
    else if node.FunctionCall? then
      var callee := RExpr(node.callee);
      var args := RExprs(node.arguments);
      if callee.None? || args.None? then None else Some(callee.value + "(" + Join(args.value, ", ") + ")")
    else if node.ArrayLiteral? then
      var elements := RExprs(node.elements);
      if elements.None? then None else Some("vec![" + Join(elements.value, ", ") + "]")
    else if node.ObjectLiteral? then
      var inserts := RInserts(node.pairs);
      if inserts.None? then None else Some("{ let mut map = HashMap::new(); " + Concat(inserts.value) + " map }")
    else if node.MemberAccess? then
      var target := RExpr(node.target);
      if target.None? then None else Some(target.value + "." + node.property)
    else if node.IndexAccess? then
      var target := RExpr(node.target);
      var index := RExpr(node.index);
      if target.None? || index.None? then None else Some(target.value + "[" + index.value + "]")
    else if node.RangeExpr? then
      var start := RExpr(node.start);
      var end := RExpr(node.end);
      if start.None? || end.None? then None else Some("(" + start.value + ".." + end.value + ")")
    else Some("()")
  }

  /** An operation: `l.pow(r)` for a power, `op(x)` for one operand, `(l op r)` for two,
      and `()` for any other number of operands. */
  function ROperationExpr(node: Node): Option<string>
    requires node.Operation?
    decreases node, 1
  {
    var op := CodegenC.COperator(node.operator);
    var operands := node.operands;
    if op == "pow" then
      if |operands| < 2 then None
      else
        var left := RExpr(operands[0]);
        var right := RExpr(operands[1]);
        if left.None? || right.None? then None else Some(left.value + ".pow(" + right.value + ")")
    else if |operands| == 1 then
      var operand := RExpr(operands[0]);
      if operand.None? then None else Some(op + "(" + operand.value + ")")
    else if |operands| == 2 then
      var left := RExpr(operands[0]);
      var right := RExpr(operands[1]);
      if left.None? || right.None? then None else Some("(" + left.value + " " + op + " " + right.value + ")")
    else Some("()")
  }

  /** The printed expressions of a list, in order; `None` when one of them crashes. */
  function RExprs(nodes: seq<Node>): (r: Option<seq<string>>)
    ensures r.Some? ==> |r.value| == |nodes|
    decreases nodes
  {
    if nodes == [] then Some([])
    else
      var first := RExpr(nodes[0]);
      var rest := RExprs(nodes[1..]);
      if first.None? || rest.None? then None else Some([first.value] + rest.value)
  }

  /** `map.insert("k".to_string(), v);` for each pair of an object, in order. */
  function RInserts(pairs: seq<Pair>): (r: Option<seq<string>>)
    ensures r.Some? ==> |r.value| == |pairs|
    decreases pairs
  {
    if pairs == [] then Some([])
    else
      var value := RExpr(pairs[0].value);
      var rest := RInserts(pairs[1..]);
      if value.None? || rest.None? then None
      else Some(["map.insert(\"" + pairs[0].key + "\".to_string(), " + value.value + ");"] + rest.value)
  }

  /** `''.join(parts)`. */
  function Concat(parts: seq<string>): string {
    if parts == [] then "" else parts[0] + Concat(parts[1..])
  }

  // ----- Statements -----

  /** The lines the statement generators emit for `stmt` at indentation `level`, or `None`
      when an expression in it crashes. */
  function RStmtLines(stmt: Node, level: int): Option<seq<string>>
    decreases stmt, 1
  {
    if stmt.FunctionDef? then FunctionLines(stmt, level)
    else if stmt.VariableDef? then VariableLines(stmt.name, stmt.typeAnnotation, RExpr(stmt.value), level)
    else if stmt.ReturnStmt? then ReturnLines(RExpr(stmt.value), level)
    else if stmt.IfStmt? then IfLines(stmt, level)
    else if stmt.ForLoop? then ForLines(stmt, level)
    else if stmt.WhileLoop? then WhileLines(stmt, level)
    else Some(UnsupportedLines(stmt, level))
  }

  /** `let name: T = v;` with the annotation's type, or `let name = v;` without one. */
  function VariableLines(name: string, annotation: Option<Type>, value: Option<string>, level: int)
    : Option<seq<string>>
  {
    if value.None? then None
    else if annotation.Some? then Some([Line(level, "let " + name + ": " + TypeToRust(annotation.value) + " = " + value.value + ";")])
    else Some([Line(level, "let " + name + " = " + value.value + ";")])
  }

  /** `return v;`. */
  function ReturnLines(value: Option<string>, level: int): Option<seq<string>> {
    if value.None? then None else Some([Line(level, "return " + value.value + ";")])
  }

  /** The two comments emitted for a statement without a generator. */
  function UnsupportedLines(stmt: Node, level: int): seq<string> {
    [Line(level, "// UNSUPPORTED: " + ClassName(stmt) + " not yet implemented for Rust"),
     Line(level, "// Please report this at: github.com/vibe-language/issues")]
  }

  /** A function: `fn … {`, the body one level deeper, `}` and a blank line. */
  function FunctionLines(stmt: Node, level: int): Option<seq<string>>
    requires stmt.FunctionDef?
    decreases stmt, 0
  {
    CodegenC.Block(Some([Line(level, FnHeader(stmt))]), RBody(stmt.body, level + 1), [Line(level, "}"), ""])
  }

  /** A branch of an `if`: a return statement as such, anything else as `expr;`. */
  function BranchCode(branch: Node): Option<string> {
    if branch.ReturnStmt? then
      var value := RExpr(branch.value);
      if value.None? then None else Some("return " + value.value + ";")
    else
      var value := RExpr(branch);
      if value.None? then None else Some(value.value + ";")
  }

  function IfLines(stmt: Node, level: int): Option<seq<string>>
    requires stmt.IfStmt?
  {
    IfElse(RExpr(stmt.condition), BranchCode(stmt.trueExpr), BranchCode(stmt.falseExpr), level)
  }

  /** `if c {`, the true branch, `} else {`, the false branch and `}`, the branches one
      level deeper. */
  function IfElse(condition: Option<string>, trueCode: Option<string>, falseCode: Option<string>, level: int)
    : Option<seq<string>>
  {
    if condition.None? || trueCode.None? || falseCode.None? then None
    else Some([Line(level, "if " + condition.value + " {"), Line(level + 1, trueCode.value),
               Line(level, "} else {"), Line(level + 1, falseCode.value), Line(level, "}")])
  }

  function ForLines(stmt: Node, level: int): Option<seq<string>>
    requires stmt.ForLoop?
    decreases stmt, 0
  {
    CodegenC.Block(ForHeader(stmt.variable, RExpr(stmt.iterable), level), RBody(stmt.body, level + 1), [Line(level, "}")])
  }

  /** `for v in it {`. */
  function ForHeader(v: string, iterable: Option<string>, level: int): Option<seq<string>> {
    if iterable.None? then None else Some([Line(level, "for " + v + " in " + iterable.value + " {")])
  }

  function WhileLines(stmt: Node, level: int): Option<seq<string>>
    requires stmt.WhileLoop?
    decreases stmt, 0
  {
    CodegenC.Block(WhileHeader(RExpr(stmt.condition), level), RBody(stmt.body, level + 1), [Line(level, "}")])
  }

  /** `while c {`. */
  function WhileHeader(condition: Option<string>, level: int): Option<seq<string>> {
    if condition.None? then None else Some([Line(level, "while " + condition.value + " {")])
  }

  /** The lines of a statement list, in order; `None` when one of them crashes. */
  function RBody(body: seq<Node>, level: int): Option<seq<string>>
    decreases body
  {
    if body == [] then Some([]) else CodegenC.Then(RBody(body[..|body| - 1], level), RStmtLines(body[|body| - 1], level))
  }

  /** The lines of the first `i + 1` statements are those of the first `i`, then those of
      the next one. */
  lemma BodySnoc(body: seq<Node>, i: nat, level: int)
    requires i < |body|
    ensures RBody(body[..i + 1], level) == CodegenC.Then(RBody(body[..i], level), RStmtLines(body[i], level))
  {
    var next := body[..i + 1];
    assert next[..i] == body[..i] && next[i] == body[i];
  }

  /** A statement list with a crashing prefix crashes. */
  lemma {:induction false} BodyPrefix(body: seq<Node>, j: nat, level: int)
    requires j <= |body|
    ensures RBody(body[..j], level).None? ==> RBody(body, level).None?
    decreases |body| - j
  {
    if j < |body| {
      BodyPrefix(body, j + 1, level);
      assert body[..j + 1][..j] == body[..j];
    } else {
      assert body[..j] == body;
    }
  }

  // ----- The program -----

  /** The lines `generate` emits before the statements. */
  function PreambleLines(level: int): seq<string> {
    [Line(level, "// Generated Rust code from VL"), "", Line(level, "use std::collections::HashMap;"), ""]
  }

  /** `generate`: the preamble, then the statements; `None` when a statement crashes. */
  function ProgramLines(prog: Node, level: int): Option<seq<string>>
    requires prog.Program?
  {
    var body := RBody(prog.statements, level);
    if body.None? then None else Some(PreambleLines(level) + body.value)
  }

  class RustCodeGenerator {
    const ast: Node
    var code: seq<string>
    var indentLevel: int

    /** `__init__`. */
    constructor (ast: Node)
      ensures this.ast == ast && code == [] && indentLevel == 0
    {
      this.ast := ast;
      code := [];
      indentLevel := 0;
    }

    /** `generate`: appends to whatever was generated before. */
    method Generate() returns (r: Option<string>)
      requires ast.Program?
      modifies this
      ensures r.Some? <==> ProgramLines(ast, old(indentLevel)).Some?
      ensures r.Some? ==> code == old(code) + ProgramLines(ast, old(indentLevel)).value &&
                          r.value == Join(code, "\n") && indentLevel == old(indentLevel)
    {
      Emit("// Generated Rust code from VL");
      Emit("");
      Emit("use std::collections::HashMap;");
      Emit("");
      var ok := GenerateBody(ast.statements);
      if ok {
        r := Some(Join(code, "\n"));
      } else {
        r := None;
      }
    }

    /** `_emit`. */
    method Emit(line: string)
      modifies this
      ensures code == old(code) + [Line(indentLevel, line)] && indentLevel == old(indentLevel)
    {
      code := code + [Line(indentLevel, line)];
    }

    /** `_generate_statement`. A crash ends generation, so the lines and the level are
        stated for a statement that does not crash. */
    method GenerateStatement(stmt: Node) returns (ok: bool)
      modifies this
      ensures ok == RStmtLines(stmt, old(indentLevel)).Some?
      ensures ok ==> code == old(code) + RStmtLines(stmt, old(indentLevel)).value && indentLevel == old(indentLevel)
      decreases stmt, 2
    {
      if stmt.FunctionDef? {
        ok := GenerateFunction(stmt);
      } else if stmt.VariableDef? {
        ok := GenerateVariableDef(stmt);
      } else if stmt.ReturnStmt? {
        ok := GenerateReturnStmt(stmt);
      } else if stmt.IfStmt? {
        ok := GenerateIfStmt(stmt);
      } else if stmt.ForLoop? {
        ok := GenerateForLoop(stmt);
      } else if stmt.WhileLoop? {
        ok := GenerateWhileLoop(stmt);
      } else {
        Emit("// UNSUPPORTED: " + ClassName(stmt) + " not yet implemented for Rust");
        Emit("// Please report this at: github.com/vibe-language/issues");
        ok := true;
      }
    }

    /** The statements of a block, in order, at the current level. */
    method GenerateBody(body: seq<Node>) returns (ok: bool)
      modifies this
      ensures ok == RBody(body, old(indentLevel)).Some?
      ensures ok ==> code == old(code) + RBody(body, old(indentLevel)).value && indentLevel == old(indentLevel)
      decreases body, 0
    {
      for i := 0 to |body|
        invariant indentLevel == old(indentLevel)
        invariant RBody(body[..i], indentLevel).Some? && code == old(code) + RBody(body[..i], indentLevel).value
      {
        ghost var before := code;
        ghost var level := indentLevel;
        ok := GenerateStatement(body[i]);
        BodySnoc(body, i, level);
        if !ok {
          BodyPrefix(body, i + 1, level);
          return;
        }
        CodegenC.ThenSteps(RBody(body[..i], level), RStmtLines(body[i], level), old(code), before, code);
      }
      assert body[..|body|] == body;
      ok := true;
    }

    /** A block body one level deeper than the current level, then its closing `}`. */
    method GenerateBlock(body: seq<Node>) returns (ok: bool)
      modifies this
      ensures ok == RBody(body, old(indentLevel) + 1).Some?
      ensures ok ==> code == old(code) + RBody(body, old(indentLevel) + 1).value + [Line(old(indentLevel), "}")]
      ensures ok ==> indentLevel == old(indentLevel)
      decreases body, 1
    {
      indentLevel := indentLevel + 1;
      ok := GenerateBody(body);
      if !ok {
        return;
      }
      indentLevel := indentLevel - 1;
      Emit("}");
    }

    /** The parameter loop of `_generate_function`: `fn name(i0: T0, …) -> R {`. */
    method FunctionHeader(fd: Node) returns (header: string)
      requires fd.FunctionDef?
      ensures header == FnHeader(fd)
    {
      var params: seq<string> := [];
      for i := 0 to |fd.inputTypes|
        invariant params == RParams(fd.inputTypes[..i])
      {
        RParamsSnoc(fd.inputTypes, i);
        params := params + ["i" + NatToString(i) + ": " + TypeToRust(fd.inputTypes[i])];
      }
      assert fd.inputTypes[..|fd.inputTypes|] == fd.inputTypes;
      header := "fn " + fd.name + "(" + Join(params, ", ") + ") -> " + TypeToRust(fd.outputType) + " {";
    }

    /** `_generate_function`. */
    method GenerateFunction(node: Node) returns (ok: bool)
      requires node.FunctionDef?
      modifies this
      ensures ok == FunctionLines(node, old(indentLevel)).Some?
      ensures ok ==> code == old(code) + FunctionLines(node, old(indentLevel)).value && indentLevel == old(indentLevel)
      decreases node, 1
    {
      ghost var level := indentLevel;
      var header := FunctionHeader(node);
      Emit(header);
      ghost var afterHeader := code;
      ok := GenerateBlock(node.body);
      if ok {
        Emit("");
      }
      CodegenC.BlockSteps(Some([Line(level, FnHeader(node))]), RBody(node.body, level + 1), [Line(level, "}"), ""],
        old(code), afterHeader, code);
    }

    /** `_generate_variable_def`. */
    method GenerateVariableDef(node: Node) returns (ok: bool)
      requires node.VariableDef?
      modifies this
      ensures ok == RExpr(node.value).Some?
      ensures ok ==> code == old(code) + VariableLines(node.name, node.typeAnnotation, RExpr(node.value), old(indentLevel)).value
      ensures indentLevel == old(indentLevel)
    {
      var value := RExpr(node.value);
      if value.None? {
        return false;
      }
      if node.typeAnnotation.Some? {
        Emit("let " + node.name + ": " + TypeToRust(node.typeAnnotation.value) + " = " + value.value + ";");
      } else {
        Emit("let " + node.name + " = " + value.value + ";");
      }
      ok := true;
    }

    /** `_generate_return_stmt`. */
    method GenerateReturnStmt(node: Node) returns (ok: bool)
      requires node.ReturnStmt?
      modifies this
      ensures ok == RExpr(node.value).Some?
      ensures ok ==> code == old(code) + [Line(old(indentLevel), "return " + RExpr(node.value).value + ";")]
      ensures indentLevel == old(indentLevel)
    {
      var value := RExpr(node.value);
      if value.None? {
        return false;
      }
      Emit("return " + value.value + ";");
      ok := true;
    }

    /** One branch of `_generate_if_stmt`, one level deeper than the `if`. */
    method GenerateBranch(branch: Node) returns (ok: bool)
      modifies this
      ensures ok == BranchCode(branch).Some?
      ensures ok ==> code == old(code) + [Line(old(indentLevel), BranchCode(branch).value)]
      ensures indentLevel == old(indentLevel)
    {
      if branch.ReturnStmt? {
        ok := GenerateReturnStmt(branch);
      } else {
        var value := RExpr(branch);
        if value.None? {
          return false;
        }
        Emit(value.value + ";");
        ok := true;
      }
    }

    /** `_generate_if_stmt`. */
    method GenerateIfStmt(node: Node) returns (ok: bool)
      requires node.IfStmt?
      modifies this
      ensures ok == IfLines(node, old(indentLevel)).Some?
      ensures ok ==> code == old(code) + IfLines(node, old(indentLevel)).value && indentLevel == old(indentLevel)
    {
      var condition := RExpr(node.condition);
      if condition.None? {
        return false;
      }
      Emit("if " + condition.value + " {");
      indentLevel := indentLevel + 1;
      ok := GenerateBranch(node.trueExpr);
      if !ok {
        return;
      }
      indentLevel := indentLevel - 1;
      Emit("} else {");
      indentLevel := indentLevel + 1;
      ok := GenerateBranch(node.falseExpr);
      if !ok {
        return;
      }
      indentLevel := indentLevel - 1;
      Emit("}");
    }

    /** `_generate_for_loop`. */
    method GenerateForLoop(node: Node) returns (ok: bool)
      requires node.ForLoop?
      modifies this
      ensures ok == ForLines(node, old(indentLevel)).Some?
      ensures ok ==> code == old(code) + ForLines(node, old(indentLevel)).value && indentLevel == old(indentLevel)
      decreases node, 1
    {
      ghost var level := indentLevel;
      var iterable := RExpr(node.iterable);
      if iterable.None? {
        return false;
      }
      Emit("for " + node.variable + " in " + iterable.value + " {");
      ghost var afterHeader := code;
      ok := GenerateBlock(node.body);
      CodegenC.BlockSteps(ForHeader(node.variable, iterable, level), RBody(node.body, level + 1), [Line(level, "}")],
        old(code), afterHeader, code);
    }

    /** `_generate_while_loop`. */
    method GenerateWhileLoop(node: Node) returns (ok: bool)
      requires node.WhileLoop?
      modifies this
      ensures ok == WhileLines(node, old(indentLevel)).Some?
      ensures ok ==> code == old(code) + WhileLines(node, old(indentLevel)).value && indentLevel == old(indentLevel)
      decreases node, 1
    {
      ghost var level := indentLevel;
      var condition := RExpr(node.condition);
      if condition.None? {
        return false;
      }
      Emit("while " + condition.value + " {");
      ghost var afterHeader := code;
      ok := GenerateBlock(node.body);
      CodegenC.BlockSteps(WhileHeader(condition, level), RBody(node.body, level + 1), [Line(level, "}")],
        old(code), afterHeader, code);
    }
  }
}

/** Properties of the JavaScript generator's specification functions: bodies sit exactly
    one indentation level deeper than their header, nested pipelines print the same
    whether flattened or chained, and the printer's operator, string and range cases. */
module CodegenJsProofs {
  import opened Wrappers
  import opened Strings
  import opened Ast
  import opened CodegenBase
  import opened CodegenJs

  // ----- Indentation -----

  /** A line one level further in: one more unit in front, and an empty line stays empty. */
  function Deeper(line: string): string {
    if line == [] then "" else "    " + line
  }

  /** A line emitted one level deeper is the line nested once. */
  lemma LineDeeper(level: nat, code: string)
    ensures Line(level + 1, code) == Deeper(Line(level, code))
  {
    if code != [] {
      IndentedLineDeeper("    ", level, code);
    }
  }

  lemma Nest1(a: string)
    ensures NestLines("    ", [a]) == [Deeper(a)]
  {
  }

  lemma Nest2(a: string, b: string)
    ensures NestLines("    ", [a, b]) == [Deeper(a), Deeper(b)]
  {
  }

  lemma Nest5(a: string, b: string, c: string, d: string, e: string)
    ensures NestLines("    ", [a, b, c, d, e]) == [Deeper(a), Deeper(b), Deeper(c), Deeper(d), Deeper(e)]
  {
  }

  lemma Nest6(a: string, b: string, c: string, d: string, e: string, f: string)
    ensures NestLines("    ", [a, b, c, d, e, f]) == [Deeper(a), Deeper(b), Deeper(c), Deeper(d), Deeper(e), Deeper(f)]
  {
  }

  /** Every line a statement emits one level deeper is the same line nested once: a block
      handler's body sits exactly one level under its header, at any depth. */
  lemma {:induction false} StmtLinesDeeper(stmt: Node, level: nat)
    ensures StmtLines(stmt, level + 1) == NestLines("    ", StmtLines(stmt, level))
    decreases stmt, 1
  {
    if stmt.FunctionDef? {
      FunctionDefLinesDeeper(stmt, level);
    } else if stmt.IfStmt? {
      IfStmtLinesDeeper(stmt, level);
    } else if stmt.ForLoop? {
      ForLoopLinesDeeper(stmt, level);
    } else if stmt.WhileLoop? {
      WhileLoopLinesDeeper(stmt, level);
    } else if stmt.DataPipeline? {
      PipelineLinesDeeper(stmt, level);
    } else if stmt.FileOperation? {
      FileLinesDeeper(stmt.operation, Expr(stmt.path), stmt.arguments, level);
    } else {
      SimpleStmtLinesDeeper(stmt, level);
    }
  }

  /** The statements that emit at most one line. */
  lemma SimpleStmtLinesDeeper(stmt: Node, level: nat)
    requires !stmt.FunctionDef? && !stmt.IfStmt? && !stmt.ForLoop? && !stmt.WhileLoop?
    requires !stmt.DataPipeline? && !stmt.FileOperation?
    ensures StmtLines(stmt, level + 1) == NestLines("    ", StmtLines(stmt, level))
  {
    if stmt.VariableDef? {
      NestLine("    ", level, "let " + stmt.name + " = " + Expr(stmt.value) + ";");
    } else if stmt.ReturnStmt? {
      NestLine("    ", level, "return " + Expr(stmt.value) + ";");
    } else if stmt.DirectCall? {
      NestLine("    ", level, Expr(stmt.call) + ";");
    } else if stmt.CompoundAssignment? {
      NestLine("    ", level, stmt.name + " " + stmt.operator + "= " + Expr(stmt.value) + ";");
    } else if stmt.APICall? {
      NestLine("    ", level, Expr(stmt));
    } else if !stmt.UIComponent? {
      NestLine("    ", level, UnsupportedComment(stmt));
    }
  }

  /** `[header] + body + footer` nests piecewise. */
  lemma BlockDeeper(deepHeader: string, body: seq<string>, header: string, deepBody: seq<string>,
                    deepFooter: seq<string>, footer: seq<string>)
    requires [deepHeader] == NestLines("    ", [header])
    requires deepBody == NestLines("    ", body) && deepFooter == NestLines("    ", footer)
    ensures [deepHeader] + deepBody + deepFooter == NestLines("    ", [header] + body + footer)
  {
    NestConcat("    ", [header], body);
    NestConcat("    ", [header] + body, footer);
  }

  lemma {:induction false} FunctionDefLinesDeeper(stmt: Node, level: nat)
    requires stmt.FunctionDef?
    ensures FunctionDefLines(stmt, level + 1) == NestLines("    ", FunctionDefLines(stmt, level))
    decreases stmt, 0
  {
    var header := FunctionHeader(stmt);
    NestLine("    ", level, header);
    BodyLinesDeeper(stmt.body, level + 1);
    LineDeeper(level, "}");
    Nest2(Line(level, "}"), "");
    BlockDeeper(Line(level + 1, header), BodyLines(stmt.body, level + 1), Line(level, header),
      BodyLines(stmt.body, level + 2), [Line(level + 1, "}"), ""], [Line(level, "}"), ""]);
  }

  lemma {:induction false} ForLoopLinesDeeper(stmt: Node, level: nat)
    requires stmt.ForLoop?
    ensures ForLoopLines(stmt, level + 1) == NestLines("    ", ForLoopLines(stmt, level))
    decreases stmt, 0
  {
    var header := "for (const " + stmt.variable + " of " + Expr(stmt.iterable) + ") {";
    NestLine("    ", level, header);
    BodyLinesDeeper(stmt.body, level + 1);
    NestLine("    ", level, "}");
    BlockDeeper(Line(level + 1, header), BodyLines(stmt.body, level + 1), Line(level, header),
      BodyLines(stmt.body, level + 2), [Line(level + 1, "}")], [Line(level, "}")]);
  }

  lemma {:induction false} WhileLoopLinesDeeper(stmt: Node, level: nat)
    requires stmt.WhileLoop?
    ensures WhileLoopLines(stmt, level + 1) == NestLines("    ", WhileLoopLines(stmt, level))
    decreases stmt, 0
  {
    var header := "while (" + Expr(stmt.condition) + ") {";
    NestLine("    ", level, header);
    BodyLinesDeeper(stmt.body, level + 1);
    NestLine("    ", level, "}");
    BlockDeeper(Line(level + 1, header), BodyLines(stmt.body, level + 1), Line(level, header),
      BodyLines(stmt.body, level + 2), [Line(level + 1, "}")], [Line(level, "}")]);
  }

  lemma {:induction false} IfStmtLinesDeeper(stmt: Node, level: nat)
    requires stmt.IfStmt?
    ensures IfStmtLines(stmt, level + 1) == NestLines("    ", IfStmtLines(stmt, level))
  {
    var c, t, f := "if (" + Expr(stmt.condition) + ") {", Expr(stmt.trueExpr) + ";", Expr(stmt.falseExpr) + ";";
    LineDeeper(level, c);
    LineDeeper(level + 1, t);
    LineDeeper(level, "} else {");
    LineDeeper(level + 1, f);
    LineDeeper(level, "}");
    Nest5(Line(level, c), Line(level + 1, t), Line(level, "} else {"), Line(level + 1, f), Line(level, "}"));
  }

  /** The statements of a block one level deeper are the same block nested once. */
  lemma {:induction false} BodyLinesDeeper(body: seq<Node>, level: nat)
    ensures BodyLines(body, level + 1) == NestLines("    ", BodyLines(body, level))
    decreases body
  {
    if body != [] {
      BodyLinesDeeper(body[..|body| - 1], level);
      StmtLinesDeeper(body[|body| - 1], level);
      NestConcat("    ", BodyLines(body[..|body| - 1], level), StmtLines(body[|body| - 1], level));
    }
  }

  lemma {:induction false} OpsLinesDeeper(ops: seq<Node>, level: nat)
    ensures OpsLines(ops, level + 1) == NestLines("    ", OpsLines(ops, level))
  {
    if ops != [] {
      OpsLinesDeeper(ops[..|ops| - 1], level);
      OpLinesDeeper(ops[|ops| - 1], level);
      NestConcat("    ", OpsLines(ops[..|ops| - 1], level), OpLines(ops[|ops| - 1], level));
    }
  }

  lemma {:induction false} OpLinesDeeper(op: Node, level: nat)
    ensures OpLines(op, level + 1) == NestLines("    ", OpLines(op, level))
  {
    if op.FilterOp? {
      NestLine("    ", level, "data = data.filter(x => " + ReplaceAll(Expr(op.condition), "item", "x") + ");");
    } else if op.MapOp? {
      if op.expression.Some? {
        NestLine("    ", level, "data = data.map(x => " + ReplaceAll(Expr(op.expression.value), "item", "x") + ");");
      } else if op.fields.Some? && op.fields.value != [] {
        NestLine("    ", level, "data = data.map(x => ({ " + Join(FieldCopies(op.fields.value), ", ") + " }));");
      }
    } else if op.GroupByOp? {
      GroupByLinesDeeper(op.field, level);
    } else if op.AggregateOp? {
      var text := AggregateText(op.aggFunction, AggregateField(op.aggField), "data");
      if text.Some? {
        NestLine("    ", level, "data = " + text.value + ";");
      }
    } else if op.SortOp? {
      NestLine("    ", level, "data = data.sort(" + SortComparator(op.field, op.order) + ");");
    }
  }

  lemma GroupByLinesDeeper(field: string, level: nat)
    ensures GroupByLines(field, level + 1) == NestLines("    ", GroupByLines(field, level))
  {
    var a, b, c, d, e, f := "data = data.reduce((groups, x) => {", "    const key = x." + field + " || x['" + field + "'];",
      "    if (!groups[key]) groups[key] = [];", "    groups[key].push(x);", "    return groups;", "}, {});";
    LineDeeper(level, a);
    LineDeeper(level, b);
    LineDeeper(level, c);
    LineDeeper(level, d);
    LineDeeper(level, e);
    LineDeeper(level, f);
    Nest6(Line(level, a), Line(level, b), Line(level, c), Line(level, d), Line(level, e), Line(level, f));
  }

  lemma {:induction false} PipelineLinesDeeper(stmt: Node, level: nat)
    requires stmt.DataPipeline?
    ensures PipelineLines(stmt, level + 1) == NestLines("    ", PipelineLines(stmt, level))
  {
    var (base, ops) := Flatten(stmt);
    var a, b := "// Data pipeline from: " + Expr(base), "let data = " + Expr(base) + ";";
    LineDeeper(level, a);
    LineDeeper(level, b);
    Nest2(Line(level, a), Line(level, b));
    OpsLinesDeeper(ops, level);
    NestConcat("    ", [Line(level, a), Line(level, b)], OpsLines(ops, level));
  }

  lemma {:induction false} FileLinesDeeper(operation: string, path: string, arguments: seq<Node>, level: nat)
    ensures FileLines(operation, path, arguments, level + 1) == NestLines("    ", FileLines(operation, path, arguments, level))
  {
    var fs := "const fs = require('fs');";
    var second :=
      if operation == "read" then "const content = fs.readFileSync(" + path + ", 'utf8');"
      else if operation == "write" && arguments != [] then "fs.writeFileSync(" + path + ", " + Expr(arguments[0]) + ", 'utf8');"
      else if operation == "append" && arguments != [] then "fs.appendFileSync(" + path + ", " + Expr(arguments[0]) + ", 'utf8');"
      else "fs.unlinkSync(" + path + ");";
    LineDeeper(level, fs);
    LineDeeper(level, second);
    Nest2(Line(level, fs), Line(level, second));
  }

  // ----- Expressions and headers -----

  /** The implicit parameter names of a function header are pairwise distinct. */
  lemma ParamNamesAreDistinct(n: nat)
    ensures forall j, k :: 0 <= j < k < n ==> ParamNames(n)[j] != ParamNames(n)[k]
  {
    forall j, k | 0 <= j < k < n
      ensures ParamNames(n)[j] != ParamNames(n)[k]
    {
      ParamNamesDistinct("i", j, k);
    }
  }

  /** A string prints between backticks exactly when it is a template, and between single
      quotes otherwise, with the text unchanged in between. */
  lemma StringQuoting(line: int, column: int, text: string, isTemplate: bool)
    ensures var r := Expr(StringLiteral(line, column, text, isTemplate));
            |r| == |text| + 2 && r[1..|r| - 1] == text && r[0] == r[|r| - 1]
            && (r[0] == '`' <==> isTemplate) && (r[0] == '\'' <==> !isTemplate)
  {
  }

  /** A range expression and the `range` operation with the same two operands print the
      same inclusive `Array.from`. */
  lemma RangeForms(line: int, column: int, start: Node, end: Node)
    ensures Expr(RangeExpr(line, column, start, end)) == Expr(Operation(line, column, "range", [start, end]))
    ensures Expr(RangeExpr(line, column, start, end)) == RangeText(Expr(start), Expr(end))
  {
  }

  /** One operand prints as the mapped operator applied to it. */
  lemma UnaryOperationForm(line: int, column: int, op: string, x: Node)
    ensures Expr(Operation(line, column, op, [x])) == MapOperator(op) + "(" + Expr(x) + ")"
  {
    var unary := Operation(line, column, op, [x]);
    assert Expr(unary) == OperationExpr(unary);
    assert unary.operands[0] == x;
  }

  /** Two operands, other than a range, print joined by the mapped operator in
      parentheses. */
  lemma BinaryOperationForm(line: int, column: int, op: string, x: Node, y: Node)
    requires op != "range"
    ensures Expr(Operation(line, column, op, [x, y])) == "(" + Expr(x) + " " + MapOperator(op) + " " + Expr(y) + ")"
  {
    var operands := [x, y];
    assert Expr(Operation(line, column, op, operands)) == OperationExpr(Operation(line, column, op, operands));
    assert operands[1..] == [y];
    assert Exprs(operands) == [Expr(x), Expr(y)];
    InfixText(Expr(x), MapOperator(op), Expr(y));
  }

  lemma InfixText(left: string, op: string, right: string)
    ensures "(" + Join([left, right], " " + op + " ") + ")" == "(" + left + " " + op + " " + right + ")"
  {
    assert [left, right][1..] == [right];
  }

  /** The statement generator's plain substring replacement renames `item` inside longer
      names too, where the whole-word replacement would leave them alone. */
  lemma ItemRenamedInsideWords()
    ensures ReplaceAll("items", "item", "x") == "xs"
    ensures ReplaceItemKeyword("items", "x") == "items"
  {
    assert "items"[..4] == "item" && "items"[4..] == "s";
    assert ReplaceAll("s", "item", "x") == "s";
    ReplaceItemInsideWord("x");
  }
}

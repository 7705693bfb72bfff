/** Properties of the legacy JavaScript generator: its blocks nest by exactly one level,
    and on every construct it shares with the current JavaScript generator the two print
    the same text, line for line. */
module LegacyJsProofs {
  import opened Strings
  import opened Ast
  import opened CodegenBase
  import opened LegacyJs
  import CodegenJs
  import CodegenJsProofs

  // ----- Indentation -----

  /** Every line a statement emits one level deeper is the same line nested once. */
  lemma {:induction false} LStmtLinesDeeper(stmt: Node, level: nat)
    ensures LStmtLines(stmt, level + 1) == NestLines("    ", LStmtLines(stmt, level))
    decreases stmt, 1
  {
    if stmt.FunctionDef? {
      LFunctionLinesDeeper(stmt, level);
    } else if stmt.IfStmt? {
      LIfLinesDeeper(stmt, level);
    } else {
      LSimpleStmtDeeper(stmt, level);
    }
  }

  /** The statements that emit one line. */
  lemma LSimpleStmtDeeper(stmt: Node, level: nat)
    requires !stmt.FunctionDef? && !stmt.IfStmt?
    ensures LStmtLines(stmt, level + 1) == NestLines("    ", LStmtLines(stmt, level))
  {
    if stmt.VariableDef? {
      NestLine("    ", level, "let " + stmt.name + " = " + LExpr(stmt.value) + ";");
    } else if stmt.ReturnStmt? {
      NestLine("    ", level, "return " + LExpr(stmt.value) + ";");
    } else if stmt.DirectCall? {
      NestLine("    ", level, LExpr(stmt.call) + ";");
    } else {
      NestLine("    ", level, CodegenJs.UnsupportedComment(stmt));
    }
  }

  lemma {:induction false} LFunctionLinesDeeper(stmt: Node, level: nat)
    requires stmt.FunctionDef?
    ensures LFunctionLines(stmt, level + 1) == NestLines("    ", LFunctionLines(stmt, level))
    decreases stmt, 0
  {
    var header := CodegenJs.FunctionHeader(stmt);
    NestLine("    ", level, header);
    LBodyDeeper(stmt.body, level + 1);
    CodegenJsProofs.LineDeeper(level, "}");
    CodegenJsProofs.Nest2(CodegenJs.Line(level, "}"), "");
    CodegenJsProofs.BlockDeeper(CodegenJs.Line(level + 1, header), LBody(stmt.body, level + 1),
      CodegenJs.Line(level, header), LBody(stmt.body, level + 2),
      [CodegenJs.Line(level + 1, "}"), ""], [CodegenJs.Line(level, "}"), ""]);
  }

  lemma LIfLinesDeeper(stmt: Node, level: nat)
    requires stmt.IfStmt?
    ensures LIfLines(stmt, level + 1) == NestLines("    ", LIfLines(stmt, level))
  {
    var c, t, f := "if (" + LExpr(stmt.condition) + ") {", LExpr(stmt.trueExpr) + ";", LExpr(stmt.falseExpr) + ";";
    CodegenJsProofs.LineDeeper(level, c);
    CodegenJsProofs.LineDeeper(level + 1, t);
    CodegenJsProofs.LineDeeper(level, "} else {");
    CodegenJsProofs.LineDeeper(level + 1, f);
    CodegenJsProofs.LineDeeper(level, "}");
    CodegenJsProofs.Nest5(CodegenJs.Line(level, c), CodegenJs.Line(level + 1, t), CodegenJs.Line(level, "} else {"),
      CodegenJs.Line(level + 1, f), CodegenJs.Line(level, "}"));
  }

  /** The statements of a block one level deeper are the same block nested once. */
  lemma {:induction false} LBodyDeeper(body: seq<Node>, level: nat)
    ensures LBody(body, level + 1) == NestLines("    ", LBody(body, level))
    decreases body
  {
    if body != [] {
      LBodyDeeper(body[..|body| - 1], level);
      LStmtLinesDeeper(body[|body| - 1], level);
      NestConcat("    ", LBody(body[..|body| - 1], level), LStmtLines(body[|body| - 1], level));
    }
  }

  // ----- Agreement with the current JavaScript generator -----

  /** An expression built only from the forms the legacy printer knows, or from forms
      neither printer knows: no index access, range, API call or pipeline, and no
      two-operand `range` operation. */
  predicate SharedExpr(node: Node)
    decreases node, 1
  {
    if node.Operation? then !(node.operator == "range" && |node.operands| == 2) && SharedExprs(node.operands)
    else if node.FunctionCall? then SharedExpr(node.callee) && SharedExprs(node.arguments)
    else if node.ArrayLiteral? then SharedExprs(node.elements)
    else if node.ObjectLiteral? then SharedPairs(node.pairs)
    else if node.MemberAccess? then SharedExpr(node.target)
    else !node.IndexAccess? && !node.RangeExpr? && !node.APICall? && !node.DataPipeline?
  }

  predicate SharedExprs(nodes: seq<Node>)
    decreases nodes, 0
  {
    nodes == [] || (SharedExpr(nodes[0]) && SharedExprs(nodes[1..]))
  }

  predicate SharedPairs(pairs: seq<Pair>)
    decreases pairs, 0
  {
    pairs == [] || (SharedExpr(pairs[0].value) && SharedPairs(pairs[1..]))
  }

  /** On a shared expression the legacy printer and the current one print the same. */
  lemma {:induction false} SharedExprAgrees(node: Node)
    requires SharedExpr(node)
    ensures LExpr(node) == CodegenJs.Expr(node)
    decreases node, 1
  {
    if node.Operation? {
      SharedExprsAgree(node.operands);
      if |node.operands| == 1 {
        assert LExprs(node.operands)[0] == LExpr(node.operands[0]);
        assert CodegenJs.Exprs(node.operands)[0] == CodegenJs.Expr(node.operands[0]);
      }
    } else if node.FunctionCall? {
      SharedExprAgrees(node.callee);
      SharedExprsAgree(node.arguments);
    } else if node.ArrayLiteral? {
      SharedExprsAgree(node.elements);
    } else if node.ObjectLiteral? {
      SharedPairsAgree(node.pairs);
    } else if node.MemberAccess? {
      SharedExprAgrees(node.target);
    }
  }

  lemma {:induction false} SharedExprsAgree(nodes: seq<Node>)
    requires SharedExprs(nodes)
    ensures LExprs(nodes) == CodegenJs.Exprs(nodes)
    decreases nodes, 0
  {
    if nodes != [] {
      SharedExprAgrees(nodes[0]);
      SharedExprsAgree(nodes[1..]);
    }
  }

  lemma {:induction false} SharedPairsAgree(pairs: seq<Pair>)
    requires SharedPairs(pairs)
    ensures LPairTexts(pairs) == CodegenJs.PairTexts(pairs)
    decreases pairs, 0
  {
    if pairs != [] {
      SharedExprAgrees(pairs[0].value);
      SharedPairsAgree(pairs[1..]);
    }
  }

  /** A statement of one of the legacy generator's five kinds over shared expressions, or
      one that neither generator handles. */
  predicate SharedStmt(stmt: Node)
    decreases stmt, 1
  {
    if stmt.FunctionDef? then SharedBody(stmt.body)
    else if stmt.VariableDef? || stmt.ReturnStmt? then SharedExpr(stmt.value)
    else if stmt.DirectCall? then SharedExpr(stmt.call)
    else if stmt.IfStmt? then SharedExpr(stmt.condition) && SharedExpr(stmt.trueExpr) && SharedExpr(stmt.falseExpr)
    else !LegacyUnsupported(stmt) && !stmt.UIComponent?
  }

  /** The statements the current generator handles and the legacy one warns about. */
  predicate LegacyUnsupported(stmt: Node) {
    stmt.ForLoop? || stmt.WhileLoop? || stmt.CompoundAssignment? || stmt.APICall? || stmt.DataPipeline?
    || stmt.FileOperation?
  }

  predicate SharedBody(body: seq<Node>)
    decreases body, 0
  {
    body == [] || (SharedBody(body[..|body| - 1]) && SharedStmt(body[|body| - 1]))
  }

  /** On a shared statement the two generators emit the same lines. */
  lemma {:induction false} SharedStmtAgrees(stmt: Node, level: int)
    requires SharedStmt(stmt)
    ensures LStmtLines(stmt, level) == CodegenJs.StmtLines(stmt, level)
    decreases stmt, 1
  {
    if stmt.FunctionDef? {
      SharedBodyAgrees(stmt.body, level + 1);
      assert LFunctionLines(stmt, level) == CodegenJs.FunctionDefLines(stmt, level);
    } else if stmt.VariableDef? || stmt.ReturnStmt? {
      SharedExprAgrees(stmt.value);
    } else if stmt.DirectCall? {
      SharedExprAgrees(stmt.call);
    } else if stmt.IfStmt? {
      SharedExprAgrees(stmt.condition);
      SharedExprAgrees(stmt.trueExpr);
      SharedExprAgrees(stmt.falseExpr);
      assert LIfLines(stmt, level) == CodegenJs.IfStmtLines(stmt, level);
    }
  }

  lemma {:induction false} SharedBodyAgrees(body: seq<Node>, level: int)
    requires SharedBody(body)
    ensures LBody(body, level) == CodegenJs.BodyLines(body, level)
    decreases body, 0
  {
    if body != [] {
      SharedBodyAgrees(body[..|body| - 1], level);
      SharedStmtAgrees(body[|body| - 1], level);
    }
  }

  /** A program whose statements are all shared generates the same file under both
      generators: header, statements and export. */
  lemma ProgramAgrees(prog: Node, level: int)
    requires IsProgram(prog) && SharedBody(prog.statements)
    ensures LProgramLines(prog, level) == CodegenJs.ProgramLines(prog, level)
  {
    SharedBodyAgrees(prog.statements, level);
  }

  /** Where the current generator emits a loop, an assignment, a request, a pipeline or a
      file operation, the legacy one emits a single warning line naming the class. */
  lemma LegacyWarns(stmt: Node, level: int)
    requires LegacyUnsupported(stmt)
    ensures LStmtLines(stmt, level) == [CodegenJs.Line(level, "// Warning: Unsupported statement type " + ClassName(stmt))]
    ensures (stmt.ForLoop? || stmt.WhileLoop?) ==> |CodegenJs.StmtLines(stmt, level)| >= 2
  {
  }
}

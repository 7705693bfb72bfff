/** Properties of the Rust generator's specification functions: bodies sit exactly one
    indentation level deeper than their header, the printer fails on the same inputs as the
    C printer apart from object literals, and the shape of a function's parameter list. */
module CodegenRustProofs {
  import opened Wrappers
  import opened Strings
  import opened Ast
  import opened CodegenBase
  import opened CodegenRust
  import CodegenC

  // ----- Indentation -----

  /** Lines emitted one level further in, or the same crash. */
  function NestOpt(lines: Option<seq<string>>): Option<seq<string>> {
    if lines.None? then None else Some(NestLines("    ", lines.value))
  }

  /** Every statement emitted one level deeper gives the same lines nested once, or crashes
      just the same: each block handler raises and lowers the level exactly once. */
  lemma {:induction false} StmtLinesDeeper(stmt: Node, level: nat)
    ensures RStmtLines(stmt, level + 1) == NestOpt(RStmtLines(stmt, level))
    decreases stmt, 1
  {
    if stmt.FunctionDef? {
      FunctionLinesDeeper(stmt, level);
    } else if stmt.VariableDef? {
      var value := RExpr(stmt.value);
      if value.Some? {
        if stmt.typeAnnotation.Some? {
          NestLine("    ", level, "let " + stmt.name + ": " + TypeToRust(stmt.typeAnnotation.value) + " = " + value.value + ";");
        } else {
          NestLine("    ", level, "let " + stmt.name + " = " + value.value + ";");
        }
      }
    } else if stmt.ReturnStmt? {
      var value := RExpr(stmt.value);
      if value.Some? {
        NestLine("    ", level, "return " + value.value + ";");
      }
    } else if stmt.IfStmt? {
      IfLinesDeeper(stmt, level);
    } else if stmt.ForLoop? {
      ForLinesDeeper(stmt, level);
    } else if stmt.WhileLoop? {
      WhileLinesDeeper(stmt, level);
    } else {
      UnsupportedDeeper(stmt, level);
    }
  }

  lemma UnsupportedDeeper(stmt: Node, level: nat)
    ensures UnsupportedLines(stmt, level + 1) == NestLines("    ", UnsupportedLines(stmt, level))
  {
    var a := "// UNSUPPORTED: " + ClassName(stmt) + " not yet implemented for Rust";
    var b := "// Please report this at: github.com/vibe-language/issues";
    NestLine("    ", level, a);
    NestLine("    ", level, b);
    NestConcat("    ", [Line(level, a)], [Line(level, b)]);
    assert UnsupportedLines(stmt, level) == [Line(level, a)] + [Line(level, b)];
    assert UnsupportedLines(stmt, level + 1) == [Line(level + 1, a)] + [Line(level + 1, b)];
  }

  /** A block whose header and closing lines nest, around a body that nests or crashes
      alike, nests as a whole. */
  lemma BlockDeeper(header: seq<string>, body: Option<seq<string>>, closing: seq<string>,
                    deepHeader: seq<string>, deepBody: Option<seq<string>>, deepClosing: seq<string>)
    requires deepHeader == NestLines("    ", header) && deepClosing == NestLines("    ", closing)
    requires deepBody == NestOpt(body)
    ensures CodegenC.Block(Some(deepHeader), deepBody, deepClosing) == NestOpt(CodegenC.Block(Some(header), body, closing))
  {
    if body.Some? {
      NestConcat("    ", header, body.value);
      NestConcat("    ", header + body.value, closing);
    }
  }

  lemma {:induction false} FunctionLinesDeeper(stmt: Node, level: nat)
    requires stmt.FunctionDef?
    ensures FunctionLines(stmt, level + 1) == NestOpt(FunctionLines(stmt, level))
    decreases stmt, 0
  {
    NestLine("    ", level, FnHeader(stmt));
    BodyDeeper(stmt.body, level + 1);
    NestLine("    ", level, "}");
    NestConcat("    ", [Line(level, "}")], [""]);
    BlockDeeper([Line(level, FnHeader(stmt))], RBody(stmt.body, level + 1), [Line(level, "}"), ""],
      [Line(level + 1, FnHeader(stmt))], RBody(stmt.body, level + 2), [Line(level + 1, "}"), ""]);
  }

  lemma {:induction false} ForLinesDeeper(stmt: Node, level: nat)
    requires stmt.ForLoop?
    ensures ForLines(stmt, level + 1) == NestOpt(ForLines(stmt, level))
    decreases stmt, 0
  {
    var iterable := RExpr(stmt.iterable);
    if iterable.Some? {
      var header := "for " + stmt.variable + " in " + iterable.value + " {";
      NestLine("    ", level, header);
      BodyDeeper(stmt.body, level + 1);
      NestLine("    ", level, "}");
      BlockDeeper([Line(level, header)], RBody(stmt.body, level + 1), [Line(level, "}")],
        [Line(level + 1, header)], RBody(stmt.body, level + 2), [Line(level + 1, "}")]);
    }
  }

  lemma {:induction false} WhileLinesDeeper(stmt: Node, level: nat)
    requires stmt.WhileLoop?
    ensures WhileLines(stmt, level + 1) == NestOpt(WhileLines(stmt, level))
    decreases stmt, 0
  {
    var condition := RExpr(stmt.condition);
    if condition.Some? {
      var header := "while " + condition.value + " {";
      NestLine("    ", level, header);
      BodyDeeper(stmt.body, level + 1);
      NestLine("    ", level, "}");
      BlockDeeper([Line(level, header)], RBody(stmt.body, level + 1), [Line(level, "}")],
        [Line(level + 1, header)], RBody(stmt.body, level + 2), [Line(level + 1, "}")]);
    }
  }

  /** A line one level deeper is the line with four more spaces, or "" when empty. */
  lemma LineDeeper(level: nat, code: string)
    ensures Line(level + 1, code) == (if Line(level, code) == [] then "" else "    " + Line(level, code))
  {
    if code != [] {
      IndentedLineDeeper("    ", level, code);
    }
  }

  lemma IfLinesDeeper(stmt: Node, level: nat)
    requires stmt.IfStmt?
    ensures IfLines(stmt, level + 1) == NestOpt(IfLines(stmt, level))
  {
    IfElseDeeper(RExpr(stmt.condition), BranchCode(stmt.trueExpr), BranchCode(stmt.falseExpr), level);
  }

  lemma IfElseDeeper(c: Option<string>, t: Option<string>, f: Option<string>, level: nat)
    ensures IfElse(c, t, f, level + 1) == NestOpt(IfElse(c, t, f, level))
  {
    if c.Some? && t.Some? && f.Some? {
      var lines := IfElse(c, t, f, level).value;
      var deep := IfElse(c, t, f, level + 1).value;
      LineDeeper(level, "if " + c.value + " {");
      LineDeeper(level + 1, t.value);
      LineDeeper(level, "} else {");
      LineDeeper(level + 1, f.value);
      LineDeeper(level, "}");
      forall k | 0 <= k < 5
        ensures deep[k] == NestLines("    ", lines)[k]
      {
      }
      assert |deep| == 5 == |NestLines("    ", lines)|;
      assert deep == NestLines("    ", lines);
    }
  }

  /** The statements of a block one level deeper are the same block nested once. */
  lemma {:induction false} BodyDeeper(body: seq<Node>, level: nat)
    ensures RBody(body, level + 1) == NestOpt(RBody(body, level))
    decreases body
  {
    if body != [] {
      var last := body[|body| - 1];
      BodyDeeper(body[..|body| - 1], level);
      StmtLinesDeeper(last, level);
      var first := RBody(body[..|body| - 1], level);
      var next := RStmtLines(last, level);
      if first.Some? && next.Some? {
        NestConcat("    ", first.value, next.value);
      }
    }
  }

  // ----- Crashes, compared with the C printer -----

  /** No object literal anywhere in the expression. */
  predicate ObjectFree(node: Node)
    decreases node
  {
    !node.ObjectLiteral? &&
    (node.Operation? ==> forall i :: 0 <= i < |node.operands| ==> ObjectFree(node.operands[i])) &&
    (node.FunctionCall? ==> ObjectFree(node.callee) && forall i :: 0 <= i < |node.arguments| ==> ObjectFree(node.arguments[i])) &&
    (node.ArrayLiteral? ==> forall i :: 0 <= i < |node.elements| ==> ObjectFree(node.elements[i])) &&
    (node.MemberAccess? ==> ObjectFree(node.target)) &&
    (node.IndexAccess? ==> ObjectFree(node.target) && ObjectFree(node.index)) &&
    (node.RangeExpr? ==> ObjectFree(node.start) && ObjectFree(node.end))
  }

  /** The Rust printer crashes wherever the C printer does, and, without object literals
      (which C prints as `NULL` without looking inside), only there. */
  lemma {:induction false} SameCrashes(node: Node)
    ensures CodegenC.CExpr(node).None? ==> RExpr(node).None?
    ensures ObjectFree(node) ==> (RExpr(node).None? <==> CodegenC.CExpr(node).None?)
    decreases node, 1
  {
    if node.Operation? {
      OperationSameCrashes(node);
    } else if node.FunctionCall? {
      SameCrashes(node.callee);
      SameCrashesList(node.arguments);
    } else if node.ArrayLiteral? {
      SameCrashesList(node.elements);
    } else if node.MemberAccess? {
      SameCrashes(node.target);
    } else if node.IndexAccess? {
      SameCrashes(node.target);
      SameCrashes(node.index);
    } else if node.RangeExpr? {
      SameCrashes(node.start);
      SameCrashes(node.end);
    }
  }

  lemma {:induction false} OperationSameCrashes(node: Node)
    requires node.Operation?
    ensures CodegenC.COperationExpr(node).None? ==> ROperationExpr(node).None?
    ensures ObjectFree(node) ==> (ROperationExpr(node).None? <==> CodegenC.COperationExpr(node).None?)
    decreases node, 0
  {
    if |node.operands| >= 1 {
      SameCrashes(node.operands[0]);
    }
    if |node.operands| >= 2 {
      SameCrashes(node.operands[1]);
    }
  }

  lemma {:induction false} SameCrashesList(nodes: seq<Node>)
    ensures CodegenC.CExprs(nodes).None? ==> RExprs(nodes).None?
    ensures (forall i :: 0 <= i < |nodes| ==> ObjectFree(nodes[i])) ==> (RExprs(nodes).None? <==> CodegenC.CExprs(nodes).None?)
    decreases nodes
  {
    if nodes != [] {
      SameCrashes(nodes[0]);
      SameCrashesList(nodes[1..]);
      if forall i :: 0 <= i < |nodes| ==> ObjectFree(nodes[i]) {
        assert ObjectFree(nodes[0]);
        assert forall i :: 0 <= i < |nodes[1..]| ==> ObjectFree(nodes[1..][i]) by {
          forall i | 0 <= i < |nodes[1..]|
            ensures ObjectFree(nodes[1..][i])
          {
            assert nodes[1..][i] == nodes[i + 1];
          }
        }
      }
    }
  }

  /** An object holding `a ** ()` with one operand: C prints `NULL`, Rust crashes. */
  lemma ObjectCrashOnlyInRust()
    ensures var power := Operation(1, 1, "**", [Identifier(1, 1, "a")]);
      var obj := ObjectLiteral(1, 1, [Pair("k", power)]);
      CodegenC.CExpr(obj) == Some("NULL") && RExpr(obj).None?
  {
    var power := Operation(1, 1, "**", [Identifier(1, 1, "a")]);
    var pairs := [Pair("k", power)];
    assert CodegenC.COperator("**") == "pow";
    assert ROperationExpr(power).None?;
    assert RExpr(pairs[0].value).None?;
  }

  // ----- Function headers -----

  /** The parameter list is empty exactly when the function has no inputs, and otherwise
      starts with the first parameter `i0: T`. */
  lemma ParamsEmptyIffNoInputs(inputTypes: seq<Type>)
    ensures var params := Join(RParams(inputTypes), ", ");
      (params == "" <==> inputTypes == []) &&
      (inputTypes != [] ==> params[..|RParams(inputTypes)[0]|]
                            == "i0: " + TypeToRust(inputTypes[0]))
  {
    var list := RParams(inputTypes);
    if inputTypes != [] {
      assert NatToString(0) == "0";
      assert list[0] == "i0: " + TypeToRust(inputTypes[0]);
      JoinStartsWithFirst(list, ", ");
    }
  }
}

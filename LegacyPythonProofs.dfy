/** Properties of the legacy Python generator: every block nests by exactly one level, a
    nested pipeline prints as its flattened form, the operations without a case are
    dropped, a lambda returns the body's last `return`, and the ternary placeholder. */
module LegacyPythonProofs {
  import opened Wrappers
  import opened Strings
  import opened Ast
  import opened CodegenBase
  import opened LegacyPython
  import CodegenJs

  // ----- Indentation -----

  const Unit := "    "

  /** A line put in front of lines that nest nests with them. */
  lemma NestCons(level: nat, code: string, rest: seq<string>, deepRest: seq<string>)
    requires deepRest == NestLines(Unit, rest)
    ensures [Line(level + 1, code)] + deepRest == NestLines(Unit, [Line(level, code)] + rest)
  {
    NestLine(Unit, level, code);
    NestConcat(Unit, [Line(level, code)], rest);
  }

  /** A line one level further in: four more spaces, and an empty line stays empty. */
  function Deeper(line: string): string {
    if line == [] then "" else Unit + line
  }

  lemma LineDeeper(level: nat, code: string)
    ensures Line(level + 1, code) == Deeper(Line(level, code))
  {
    if code != [] {
      IndentedLineDeeper(Unit, level, code);
    }
  }

  /** Lines that are each the corresponding line nested once are the nested lines. */
  lemma NestEach(lines: seq<string>, deep: seq<string>)
    requires |deep| == |lines| && forall k :: 0 <= k < |lines| ==> deep[k] == Deeper(lines[k])
    ensures deep == NestLines(Unit, lines)
  {
  }

  /** Two lines at the same level. */
  lemma NestTwo(level: nat, a: string, b: string)
    ensures [Line(level + 1, a), Line(level + 1, b)] == NestLines(Unit, [Line(level, a), Line(level, b)])
  {
    LineDeeper(level, a);
    LineDeeper(level, b);
    NestEach([Line(level, a), Line(level, b)], [Line(level + 1, a), Line(level + 1, b)]);
  }

  /** Every line a statement emits one level deeper is the same line nested once: each
      block handler raises and lowers the level exactly once. */
  lemma {:induction false} StmtLinesDeeper(stmt: Node, level: nat, tmpl: string -> string)
    ensures PyStmtLines(stmt, level + 1, tmpl) == NestLines(Unit, PyStmtLines(stmt, level, tmpl))
    decreases stmt, 1
  {
    if stmt.FunctionDef? {
      FunctionLinesDeeper(stmt, level, tmpl);
    } else if stmt.ForLoop? {
      var header := "for " + stmt.variable + " in " + PyExpr(stmt.iterable, tmpl) + ":";
      LoopDeeper(stmt, header, level, tmpl);
    } else if stmt.WhileLoop? {
      var header := "while " + PyExpr(stmt.condition, tmpl) + ":";
      LoopDeeper(stmt, header, level, tmpl);
    } else {
      LeafDeeper(stmt, level, tmpl);
    }
  }

  /** A loop: its header, then its body one level deeper. */
  lemma {:induction false} LoopDeeper(stmt: Node, header: string, level: nat, tmpl: string -> string)
    requires stmt.ForLoop? || stmt.WhileLoop?
    ensures [Line(level + 1, header)] + PyBody(stmt.body, level + 2, tmpl)
         == NestLines(Unit, [Line(level, header)] + PyBody(stmt.body, level + 1, tmpl))
    decreases stmt, 0
  {
    BodyDeeper(stmt.body, level + 1, tmpl);
    NestCons(level, header, PyBody(stmt.body, level + 1, tmpl), PyBody(stmt.body, level + 2, tmpl));
  }

  lemma {:induction false} FunctionLinesDeeper(stmt: Node, level: nat, tmpl: string -> string)
    requires stmt.FunctionDef?
    ensures FunctionLines(stmt, level + 1, tmpl) == NestLines(Unit, FunctionLines(stmt, level, tmpl))
    decreases stmt, 0
  {
    if stmt.body == [] {
      NestLine(Unit, level + 1, "pass");
    } else {
      BodyDeeper(stmt.body, level + 1, tmpl);
    }
    NestCons(level, DefHeader(stmt), SuiteLines(stmt.body, level + 1, tmpl), SuiteLines(stmt.body, level + 2, tmpl));
  }

  /** The statements without a nested body. */
  lemma LeafDeeper(stmt: Node, level: nat, tmpl: string -> string)
    requires !stmt.FunctionDef? && !stmt.ForLoop? && !stmt.WhileLoop?
    ensures PyStmtLines(stmt, level + 1, tmpl) == NestLines(Unit, PyStmtLines(stmt, level, tmpl))
  {
    if stmt.VariableDef? {
      NestLine(Unit, level, stmt.name + TypeHint(stmt.typeAnnotation) + " = " + PyExpr(stmt.value, tmpl));
    } else if stmt.CompoundAssignment? {
      NestLine(Unit, level, stmt.name + " " + stmt.operator + "= " + PyExpr(stmt.value, tmpl));
    } else if stmt.ReturnStmt? {
      NestLine(Unit, level, "return " + PyExpr(stmt.value, tmpl));
    } else if stmt.DirectCall? {
      NestLine(Unit, level, PyExpr(stmt.call, tmpl));
    } else if stmt.IfStmt? {
      IfLinesDeeper(stmt, level, tmpl);
    } else {
      DomainDeeper(stmt, level, tmpl);
    }
  }

  lemma IfLinesDeeper(stmt: Node, level: nat, tmpl: string -> string)
    requires stmt.IfStmt?
    ensures IfLines(stmt, level + 1, tmpl) == NestLines(Unit, IfLines(stmt, level, tmpl))
  {
    var c := "if " + PyExpr(stmt.condition, tmpl) + ":";
    var t := if stmt.trueExpr.ReturnStmt? then "return " + ReturnValueText(stmt.trueExpr, tmpl) else PyExpr(stmt.trueExpr, tmpl);
    var f := if stmt.falseExpr.ReturnStmt? then "return " + ReturnValueText(stmt.falseExpr, tmpl) else PyExpr(stmt.falseExpr, tmpl);
    assert IfLines(stmt, level, tmpl) == [Line(level, c), Line(level + 1, t), Line(level, "else:"), Line(level + 1, f)];
    assert IfLines(stmt, level + 1, tmpl) == [Line(level + 1, c), Line(level + 2, t), Line(level + 1, "else:"), Line(level + 2, f)];
    LineDeeper(level, c);
    LineDeeper(level + 1, t);
    LineDeeper(level, "else:");
    LineDeeper(level + 1, f);
    NestEach(IfLines(stmt, level, tmpl), IfLines(stmt, level + 1, tmpl));
  }

  /** Requests, pipelines, file operations, components and the TODO line. */
  lemma DomainDeeper(stmt: Node, level: nat, tmpl: string -> string)
    requires !stmt.FunctionDef? && !stmt.ForLoop? && !stmt.WhileLoop? && !stmt.VariableDef?
    requires !stmt.CompoundAssignment? && !stmt.ReturnStmt? && !stmt.DirectCall? && !stmt.IfStmt?
    ensures PyStmtLines(stmt, level + 1, tmpl) == NestLines(Unit, PyStmtLines(stmt, level, tmpl))
  {
    if stmt.APICall? {
      NestTwo(level, "# API Call: " + stmt.httpMethod, "requests." + Lower(stmt.httpMethod) + "(" + PyExpr(stmt.endpoint, tmpl) + ")");
    } else if stmt.DataPipeline? {
      PipelineDeeper(PyExpr(stmt.source, tmpl), stmt.operations, level, tmpl);
    } else if stmt.FileOperation? {
      FileDeeper(stmt.operation, PyExpr(stmt.path, tmpl), FirstArgument(stmt.arguments, tmpl), level);
    } else if stmt.UIComponent? {
      ComponentDeeper(stmt.name, stmt.stateVars, level, tmpl);
    } else {
      NestLine(Unit, level, "# TODO: Unsupported statement type: " + ClassName(stmt));
    }
  }

  lemma PipelineDeeper(source: string, ops: seq<Node>, level: nat, tmpl: string -> string)
    ensures PipelineLines(source, ops, level + 1, tmpl) == NestLines(Unit, PipelineLines(source, ops, level, tmpl))
  {
    NestTwo(level, "# Data pipeline from: " + source, "data = " + source);
    OpsDeeper(ops, level, tmpl);
    NestConcat(Unit, [Line(level, "# Data pipeline from: " + source), Line(level, "data = " + source)], OpsLines(ops, level, tmpl));
  }

  lemma FileDeeper(operation: string, path: string, content: Option<string>, level: nat)
    ensures FileLines(operation, path, content, level + 1) == NestLines(Unit, FileLines(operation, path, content, level))
  {
    if operation == "read" {
      NestTwo(level, "with open(" + path + ", 'r') as f:", "    content = f.read()");
    } else if operation == "write" && content.Some? {
      NestTwo(level, "with open(" + path + ", 'w') as f:", "    f.write(" + content.value + ")");
    }
  }

  lemma ComponentDeeper(name: string, stateVars: seq<StateEntry>, level: nat, tmpl: string -> string)
    ensures ComponentLines(name, stateVars, level + 1, tmpl) == NestLines(Unit, ComponentLines(name, stateVars, level, tmpl))
  {
    var head := [Line(level, "# UI Component: " + name), Line(level, "def " + name + "(props):")];
    var ret := "return None  # React JSX would go here";
    NestTwo(level, "# UI Component: " + name, "def " + name + "(props):");
    StateDeeper(stateVars, level + 1, tmpl);
    NestLine(Unit, level + 1, ret);
    NestConcat(Unit, head, StateLines(stateVars, level + 1, tmpl));
    NestConcat(Unit, head + StateLines(stateVars, level + 1, tmpl), [Line(level + 1, ret)]);
  }

  lemma {:induction false} StateDeeper(stateVars: seq<StateEntry>, level: nat, tmpl: string -> string)
    ensures StateLines(stateVars, level + 1, tmpl) == NestLines(Unit, StateLines(stateVars, level, tmpl))
    decreases stateVars
  {
    if stateVars != [] {
      var init, last := stateVars[..|stateVars| - 1], stateVars[|stateVars| - 1];
      StateDeeper(init, level, tmpl);
      var text := "# State: " + last.name + " = " + PyExpr(last.initial, tmpl);
      NestLine(Unit, level, text);
      NestConcat(Unit, StateLines(init, level, tmpl), [Line(level, text)]);
    }
  }

  lemma {:induction false} OpsDeeper(ops: seq<Node>, level: nat, tmpl: string -> string)
    ensures OpsLines(ops, level + 1, tmpl) == NestLines(Unit, OpsLines(ops, level, tmpl))
    decreases ops
  {
    if ops != [] {
      var init, last := ops[..|ops| - 1], ops[|ops| - 1];
      OpsDeeper(init, level, tmpl);
      OpDeeper(last, level, tmpl);
      NestConcat(Unit, OpsLines(init, level, tmpl), OpLines(last, level, tmpl));
    }
  }

  lemma OpDeeper(op: Node, level: nat, tmpl: string -> string)
    ensures OpLines(op, level + 1, tmpl) == NestLines(Unit, OpLines(op, level, tmpl))
  {
    if op.FilterOp? {
      NestLine(Unit, level, "data = [x for x in data if " + PyExpr(op.condition, tmpl) + "]");
    } else if op.MapOp? && op.expression.Some? {
      NestLine(Unit, level, "data = [" + PyExpr(op.expression.value, tmpl) + " for x in data]");
    }
  }

  /** The statements of a block one level deeper are the same block nested once. */
  lemma {:induction false} BodyDeeper(body: seq<Node>, level: nat, tmpl: string -> string)
    ensures PyBody(body, level + 1, tmpl) == NestLines(Unit, PyBody(body, level, tmpl))
    decreases body, 0
  {
    if body != [] {
      var init, last := body[..|body| - 1], body[|body| - 1];
      BodyDeeper(init, level, tmpl);
      StmtLinesDeeper(last, level, tmpl);
      NestConcat(Unit, PyBody(init, level, tmpl), PyStmtLines(last, level, tmpl));
    }
  }

  // ----- Pipelines -----

  /** Chaining two lists of operations is chaining their concatenation. */
  lemma {:induction false} ChainOpsConcat(result: string, a: seq<Node>, b: seq<Node>, tmpl: string -> string)
    ensures ChainOps(result, a + b, tmpl) == ChainOps(ChainOps(result, a, tmpl), b, tmpl)
    decreases a
  {
    if a != [] {
      assert (a + b)[0] == a[0] && (a + b)[1..] == a[1..] + b;
      ChainOpsConcat(ChainOp(result, a[0], tmpl), a[1..], b, tmpl);
    } else {
      assert a + b == b;
    }
  }

  /** The printer never flattens a nested pipeline, yet prints exactly what flattening it
      first would: the innermost source with every operation, innermost pipeline first,
      wrapped around it in order. */
  lemma {:induction false} PipelinePrintsFlattened(p: Node, tmpl: string -> string)
    requires p.DataPipeline?
    ensures PyExpr(p, tmpl) == ChainOps(PyExpr(CodegenJs.Flatten(p).0, tmpl), CodegenJs.Flatten(p).1, tmpl)
    decreases p
  {
    if p.source.DataPipeline? {
      PipelinePrintsFlattened(p.source, tmpl);
      var (base, ops) := CodegenJs.Flatten(p.source);
      ChainOpsConcat(PyExpr(base, tmpl), ops, p.operations, tmpl);
    }
  }

  /** The operations the Python generator has a case for: filters, and maps with an
      expression. */
  predicate HasCase(op: Node) {
    op.FilterOp? || (op.MapOp? && op.expression.Some?)
  }

  /** The operations with a case, in order. */
  function WithCase(ops: seq<Node>): (r: seq<Node>)
    ensures forall i :: 0 <= i < |r| ==> HasCase(r[i])
  {
    if ops == [] then []
    else WithCase(ops[..|ops| - 1]) + (if HasCase(ops[|ops| - 1]) then [ops[|ops| - 1]] else [])
  }

  /** Groupings, aggregates, sorts, limits, skips, joins, parses and maps without an
      expression leave no trace in the printed expression. */
  lemma {:induction false} DroppedFromExpression(ops: seq<Node>, result: string, tmpl: string -> string)
    ensures ChainOps(result, ops, tmpl) == ChainOps(result, WithCase(ops), tmpl)
  {
    if ops != [] {
      var init, last := ops[..|ops| - 1], ops[|ops| - 1];
      DroppedFromExpression(init, result, tmpl);
      var kept := WithCase(init);
      assert ops == init + [last];
      ChainOpsSnoc(result, init, last, tmpl);
      if HasCase(last) {
        var longer := kept + [last];
        assert longer[..|longer| - 1] == kept && longer[|longer| - 1] == last;
        ChainOpsSnoc(result, kept, last, tmpl);
      } else {
        assert WithCase(ops) == kept;
      }
    }
  }

  /** The same operations leave no trace in the statement either, and every remaining
      operation emits exactly one line. */
  lemma {:induction false} DroppedFromStatement(ops: seq<Node>, level: int, tmpl: string -> string)
    ensures OpsLines(ops, level, tmpl) == OpsLines(WithCase(ops), level, tmpl)
    ensures |OpsLines(ops, level, tmpl)| == |WithCase(ops)|
  {
    if ops != [] {
      var init, last := ops[..|ops| - 1], ops[|ops| - 1];
      DroppedFromStatement(init, level, tmpl);
      var kept := WithCase(init);
      if HasCase(last) {
        var longer := kept + [last];
        assert longer[..|longer| - 1] == kept && longer[|longer| - 1] == last;
      } else {
        assert WithCase(ops) == kept;
        assert OpLines(last, level, tmpl) == [];
        assert OpsLines(ops, level, tmpl) == OpsLines(init, level, tmpl) + [];
      }
    }
  }

  // ----- Lambdas -----

  /** `k` is the position of the body's last `return`. */
  predicate LastReturnAt(body: seq<Node>, k: int) {
    0 <= k < |body| && body[k].ReturnStmt? && forall j :: k < j < |body| ==> !body[j].ReturnStmt?
  }

  /** There are no collected `return` values exactly when the body has no `return`. */
  lemma {:induction false} ReturnTextsEmpty(body: seq<Node>, tmpl: string -> string)
    ensures (forall j :: 0 <= j < |body| ==> !body[j].ReturnStmt?) <==> ReturnTexts(body, tmpl) == []
    decreases |body|
  {
    if body != [] {
      var init, last := body[..|body| - 1], body[|body| - 1];
      ReturnTextsEmpty(init, tmpl);
      if forall j :: 0 <= j < |init| ==> !init[j].ReturnStmt? {
        if !last.ReturnStmt? {
          forall j | 0 <= j < |body|
            ensures !body[j].ReturnStmt?
          {
            if j < |init| {
              assert body[j] == init[j];
            }
          }
        }
      } else {
        var j :| 0 <= j < |init| && init[j].ReturnStmt?;
        assert body[j] == init[j];
      }
    }
  }

  /** The collected `return` values end with the value of the last `return`, and there are
      none when the body has no `return`. */
  lemma {:induction false} ReturnTextsLast(body: seq<Node>, tmpl: string -> string)
    ensures (forall j :: 0 <= j < |body| ==> !body[j].ReturnStmt?) <==> ReturnTexts(body, tmpl) == []
    ensures forall k :: LastReturnAt(body, k) ==>
      (ReturnTexts(body, tmpl) != [] && ReturnTexts(body, tmpl)[|ReturnTexts(body, tmpl)| - 1] == PyExpr(body[k].value, tmpl))
    decreases |body|
  {
    ReturnTextsEmpty(body, tmpl);
    if body != [] {
      var init, last := body[..|body| - 1], body[|body| - 1];
      var texts := ReturnTexts(body, tmpl);
      assert texts == ReturnTexts(init, tmpl) + (if last.ReturnStmt? then [ReturnValueText(last, tmpl)] else []);
      ReturnTextsLast(init, tmpl);
      forall k | LastReturnAt(body, k)
        ensures texts != [] && texts[|texts| - 1] == PyExpr(body[k].value, tmpl)
      {
        if k < |body| - 1 {
          assert !last.ReturnStmt?;
          assert LastReturnAt(init, k);
        }
      }
    }
  }

  /** A lambda returns the value of the body's last `return`: the special case for a body
      that is a single `return` agrees with the general one. */
  lemma LambdaReturnsLast(node: Node, k: int, tmpl: string -> string)
    requires node.FunctionExpr? && LastReturnAt(node.body, k)
    ensures PyExpr(node, tmpl) == "lambda " + Join(ParamNames(|node.inputTypes|), ", ") + ": " + PyExpr(node.body[k].value, tmpl)
  {
    ReturnTextsLast(node.body, tmpl);
  }

  /** A lambda whose body has no `return` prints the placeholder body. */
  lemma LambdaWithoutReturn(node: Node, tmpl: string -> string)
    requires node.FunctionExpr? && forall j :: 0 <= j < |node.body| ==> !node.body[j].ReturnStmt?
    ensures PyExpr(node, tmpl) == "lambda " + Join(ParamNames(|node.inputTypes|), ", ") + ": " + ComplexBody
  {
    ReturnTextsLast(node.body, tmpl);
  }

  /** A lambda's parameters have the names of the function parameters at the same
      positions, without their types. */
  lemma LambdaNamesMatchDef(inputTypes: seq<Type>, k: nat)
    requires k < |inputTypes|
    ensures Params(inputTypes)[k] == ParamNames(|inputTypes|)[k] + ": " + inputTypes[k].name
  {
    assert Params(inputTypes)[k] == "i" + NatToString(k) + ": " + TypeName(inputTypes[k]);
  }

  // ----- Conditionals -----

  /** An `if` prints as a conditional expression exactly when neither branch is a `return`;
      otherwise it prints the placeholder, which no conditional expression equals. */
  lemma TernaryOrPlaceholder(node: Node, tmpl: string -> string)
    requires node.IfStmt?
    ensures PyExpr(node, tmpl) == ReturnBranchPlaceholder <==> node.trueExpr.ReturnStmt? || node.falseExpr.ReturnStmt?
    ensures !node.trueExpr.ReturnStmt? && !node.falseExpr.ReturnStmt? ==> PyExpr(node, tmpl)[0] == '('
  {
    if !node.trueExpr.ReturnStmt? && !node.falseExpr.ReturnStmt? {
      assert PyExpr(node, tmpl)[0] == '(';
      assert ReturnBranchPlaceholder[0] == 'N';
    }
  }
}

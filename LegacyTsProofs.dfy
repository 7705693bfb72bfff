/** Properties of the legacy TypeScript generator: which expressions it can print at all,
    that it prints them as the legacy JavaScript generator does, the import names it
    derives from dependency paths, the pipeline operations it drops, and that every block
    nests by exactly one level. */
module LegacyTsProofs {
  import opened Wrappers
  import opened Strings
  import opened Ast
  import opened CodegenBase
  import opened LegacyTs
  import LegacyJs
  import CodegenC
  import CodegenJs

  // ----- The expressions the printer survives -----

  /** Built only from literals, names, operations, calls, arrays, objects and member access:
      the kinds tested before the `IndexAccess` test that raises. */
  predicate Printable(node: Node)
    decreases node, 1
  {
    if node.Operation? then PrintableList(node.operands)
    else if node.FunctionCall? then Printable(node.callee) && PrintableList(node.arguments)
    else if node.ArrayLiteral? then PrintableList(node.elements)
    else if node.ObjectLiteral? then PrintablePairs(node.pairs)
    else if node.MemberAccess? then Printable(node.target)
    else node.NumberLiteral? || node.StringLiteral? || node.BooleanLiteral? || node.Identifier? || node.VariableRef?
  }

  predicate PrintableList(nodes: seq<Node>)
    decreases nodes, 0
  {
    nodes == [] || (Printable(nodes[0]) && PrintableList(nodes[1..]))
  }

  predicate PrintablePairs(pairs: seq<Pair>)
    decreases pairs, 0
  {
    pairs == [] || (Printable(pairs[0].value) && PrintablePairs(pairs[1..]))
  }

  /** The printer returns text exactly for the printable expressions, and raises on every
      other one. */
  lemma {:induction false} PrintsIffPrintable(node: Node)
    ensures TExpr(node).Some? <==> Printable(node)
    decreases node, 1
  {
    if node.Operation? {
      ListPrintsIffPrintable(node.operands);
      if |node.operands| == 1 {
        PrintsIffPrintable(node.operands[0]);
        assert node.operands[1..] == [];
      }
    } else if node.FunctionCall? {
      PrintsIffPrintable(node.callee);
      ListPrintsIffPrintable(node.arguments);
    } else if node.ArrayLiteral? {
      ListPrintsIffPrintable(node.elements);
    } else if node.ObjectLiteral? {
      PairsPrintIffPrintable(node.pairs);
    } else if node.MemberAccess? {
      PrintsIffPrintable(node.target);
    }
  }

  lemma {:induction false} ListPrintsIffPrintable(nodes: seq<Node>)
    ensures TExprs(nodes).Some? <==> PrintableList(nodes)
    decreases nodes, 0
  {
    if nodes != [] {
      PrintsIffPrintable(nodes[0]);
      ListPrintsIffPrintable(nodes[1..]);
    }
  }

  lemma {:induction false} PairsPrintIffPrintable(pairs: seq<Pair>)
    ensures TPairTexts(pairs).Some? <==> PrintablePairs(pairs)
    decreases pairs, 0
  {
    if pairs != [] {
      PrintsIffPrintable(pairs[0].value);
      PairsPrintIffPrintable(pairs[1..]);
    }
  }

  // ----- Agreement with the legacy JavaScript printer -----

  /** A printable expression in which every operation has an operand. */
  predicate JsPrintable(node: Node)
    decreases node, 1
  {
    if node.Operation? then |node.operands| >= 1 && JsPrintableList(node.operands)
    else if node.FunctionCall? then JsPrintable(node.callee) && JsPrintableList(node.arguments)
    else if node.ArrayLiteral? then JsPrintableList(node.elements)
    else if node.ObjectLiteral? then JsPrintablePairs(node.pairs)
    else if node.MemberAccess? then JsPrintable(node.target)
    else node.NumberLiteral? || node.StringLiteral? || node.BooleanLiteral? || node.Identifier? || node.VariableRef?
  }

  predicate JsPrintableList(nodes: seq<Node>)
    decreases nodes, 0
  {
    nodes == [] || (JsPrintable(nodes[0]) && JsPrintableList(nodes[1..]))
  }

  predicate JsPrintablePairs(pairs: seq<Pair>)
    decreases pairs, 0
  {
    pairs == [] || (JsPrintable(pairs[0].value) && JsPrintablePairs(pairs[1..]))
  }

  /** On those expressions the TypeScript printer prints exactly the legacy JavaScript text:
      the same operator map, quoting, parentheses and separators. */
  lemma {:induction false} PrintsLikeLegacyJs(node: Node)
    requires JsPrintable(node)
    ensures TExpr(node) == Some(LegacyJs.LExpr(node))
    decreases node, 1
  {
    if node.Operation? {
      ListPrintsLikeLegacyJs(node.operands);
      if |node.operands| == 1 {
        assert TExprs(node.operands).value[0] == TExpr(node.operands[0]).value;
        assert LegacyJs.LExprs(node.operands)[0] == LegacyJs.LExpr(node.operands[0]);
      }
    } else if node.FunctionCall? {
      PrintsLikeLegacyJs(node.callee);
      ListPrintsLikeLegacyJs(node.arguments);
    } else if node.ArrayLiteral? {
      ListPrintsLikeLegacyJs(node.elements);
    } else if node.ObjectLiteral? {
      PairsPrintLikeLegacyJs(node.pairs);
    } else if node.MemberAccess? {
      PrintsLikeLegacyJs(node.target);
    }
  }

  lemma {:induction false} ListPrintsLikeLegacyJs(nodes: seq<Node>)
    requires JsPrintableList(nodes)
    ensures TExprs(nodes) == Some(LegacyJs.LExprs(nodes))
    decreases nodes, 0
  {
    if nodes != [] {
      PrintsLikeLegacyJs(nodes[0]);
      ListPrintsLikeLegacyJs(nodes[1..]);
    }
  }

  lemma {:induction false} PairsPrintLikeLegacyJs(pairs: seq<Pair>)
    requires JsPrintablePairs(pairs)
    ensures TPairTexts(pairs) == Some(LegacyJs.LPairTexts(pairs))
    decreases pairs, 0
  {
    if pairs != [] {
      PrintsLikeLegacyJs(pairs[0].value);
      PairsPrintLikeLegacyJs(pairs[1..]);
    }
  }

  /** The one place the two printers part: an operation without operands is `null` here
      and the unknown-expression comment in JavaScript. */
  lemma EmptyOperationDiffers(line: int, column: int, op: string)
    ensures TExpr(Operation(line, column, op, [])) == Some("null")
    ensures LegacyJs.LExpr(Operation(line, column, op, [])) == "/* Unknown Expr: Operation */"
  {
  }

  // ----- Imports -----

  /** An import name is the dependency path with each `/` replaced by `_` and every other
      character kept, so it never contains a `/`. */
  lemma {:induction false} ImportAliasChars(dep: string)
    ensures |ImportAlias(dep)| == |dep|
    ensures forall i :: 0 <= i < |dep| ==> ImportAlias(dep)[i] == (if dep[i] == '/' then '_' else dep[i])
    ensures forall i :: 0 <= i < |dep| ==> ImportAlias(dep)[i] != '/'
    decreases |dep|
  {
    if dep != [] {
      ImportAliasChars(dep[1..]);
      var rest := ImportAlias(dep[1..]);
      assert dep[..1] == [dep[0]];
      var head := if dep[0] == '/' then "_" else [dep[0]];
      assert ImportAlias(dep) == head + rest;
      forall i | 0 <= i < |dep|
        ensures ImportAlias(dep)[i] == (if dep[i] == '/' then '_' else dep[i])
      {
        if i > 0 {
          assert ImportAlias(dep)[i] == rest[i - 1] && dep[i] == dep[1..][i - 1];
        }
      }
    }
  }

  // ----- Pipelines -----

  /** The pipeline operations that have a case: filters, maps, groupings and sorts. */
  predicate HasCase(op: Node) {
    op.FilterOp? || op.MapOp? || op.GroupByOp? || op.SortOp?
  }

  /** The operations with a case, in order. */
  function WithCase(ops: seq<Node>): (r: seq<Node>)
    ensures forall i :: 0 <= i < |r| ==> HasCase(r[i])
  {
    if ops == [] then []
    else WithCase(ops[..|ops| - 1]) + (if HasCase(ops[|ops| - 1]) then [ops[|ops| - 1]] else [])
  }

  /** Aggregates, limits, skips, joins and parses are dropped without a trace: a pipeline
      emits the same lines as the same pipeline with only its filters, maps, groupings and
      sorts. */
  lemma {:induction false} DroppedOperations(ops: seq<Node>, level: int)
    ensures TOpsLines(ops, level) == TOpsLines(WithCase(ops), level)
  {
    if ops != [] {
      var init, last := ops[..|ops| - 1], ops[|ops| - 1];
      DroppedOperations(init, level);
      var kept := WithCase(init);
      if HasCase(last) {
        var longer := kept + [last];
        assert longer[..|longer| - 1] == kept && longer[|longer| - 1] == last;
      } else {
        assert TOpLines(last, level) == Some([]);
        assert WithCase(ops) == kept;
        var before := TOpsLines(init, level);
        if before.Some? {
          assert before.value + [] == before.value;
        }
      }
    }
  }

  // ----- Indentation -----

  /** Lines emitted one level further in, or the same crash. */
  function NestOpt(lines: Option<seq<string>>): Option<seq<string>> {
    if lines.None? then None else Some(NestLines("  ", lines.value))
  }

  /** A line one level further in: two more spaces, and an empty line stays empty. */
  function Deeper(line: string): string {
    if line == [] then "" else "  " + line
  }

  lemma LineDeeper(level: nat, code: string)
    ensures Line(level + 1, code) == Deeper(Line(level, code))
  {
    if code != [] {
      IndentedLineDeeper("  ", level, code);
    }
  }

  /** Lines that are each the corresponding line nested once are the nested lines. */
  lemma NestEach(lines: seq<string>, deep: seq<string>)
    requires |deep| == |lines| && forall k :: 0 <= k < |lines| ==> deep[k] == Deeper(lines[k])
    ensures deep == NestLines("  ", lines)
  {
  }

  /** Every statement emitted one level deeper gives the same lines nested once, or crashes
      just the same: each block handler raises and lowers the level exactly once. */
  lemma {:induction false} TStmtLinesDeeper(stmt: Node, level: nat)
    ensures TStmtLines(stmt, level + 1) == NestOpt(TStmtLines(stmt, level))
    decreases stmt, 1
  {
    if stmt.FunctionDef? {
      TFunctionLinesDeeper(stmt, level);
    } else if stmt.ForLoop? {
      TForLinesDeeper(stmt, level);
    } else if stmt.WhileLoop? {
      TWhileLinesDeeper(stmt, level);
    } else {
      LeafStmtDeeper(stmt, level);
    }
  }

  /** The statements without a body. */
  lemma LeafStmtDeeper(stmt: Node, level: nat)
    requires !stmt.FunctionDef? && !stmt.ForLoop? && !stmt.WhileLoop?
    ensures TStmtLines(stmt, level + 1) == NestOpt(TStmtLines(stmt, level))
  {
    if stmt.VariableDef? {
      TVariableDeeper(stmt.name, stmt.typeAnnotation, TExpr(stmt.value), level);
    } else if stmt.CompoundAssignment? {
      OneLineDeeper(stmt.name + " " + stmt.operator + "= ", TExpr(stmt.value), ";", level);
    } else if stmt.ReturnStmt? {
      OneLineDeeper("return ", TExpr(stmt.value), ";", level);
    } else if stmt.DirectCall? {
      OneLineDeeper("", TExpr(stmt.call), ";", level);
    } else if stmt.IfStmt? {
      IfElseDeeper(TExpr(stmt.condition), TExpr(stmt.trueExpr), TExpr(stmt.falseExpr), level);
    } else {
      DomainStmtDeeper(stmt, level);
    }
  }

  /** Requests, pipelines, file operations, components and the TODO line. */
  lemma DomainStmtDeeper(stmt: Node, level: nat)
    requires !stmt.FunctionDef? && !stmt.ForLoop? && !stmt.WhileLoop? && !stmt.VariableDef?
    requires !stmt.CompoundAssignment? && !stmt.ReturnStmt? && !stmt.DirectCall? && !stmt.IfStmt?
    ensures TStmtLines(stmt, level + 1) == NestOpt(TStmtLines(stmt, level))
  {
    if stmt.APICall? {
      ApiDeeper(Upper(stmt.httpMethod), TExpr(stmt.endpoint), stmt.options, level);
    } else if stmt.DataPipeline? {
      var flat := CodegenJs.Flatten(stmt);
      PipelineFromDeeper(TExpr(flat.0), flat.1, level);
    } else if stmt.FileOperation? {
      FileDeeper(stmt.operation, TExpr(stmt.path), stmt.arguments, level);
    } else if stmt.UIComponent? {
      ComponentDeeper(stmt.name, stmt.stateVars, level);
    } else {
      NestLine("  ", level, "// TODO: " + ClassName(stmt));
    }
  }

  lemma OneLineDeeper(prefix: string, value: Option<string>, suffix: string, level: nat)
    ensures OneLine(prefix, value, suffix, level + 1) == NestOpt(OneLine(prefix, value, suffix, level))
  {
    if value.Some? {
      NestLine("  ", level, prefix + value.value + suffix);
    }
  }

  lemma TVariableDeeper(name: string, annotation: Option<Type>, value: Option<string>, level: nat)
    ensures TVariableLines(name, annotation, value, level + 1) == NestOpt(TVariableLines(name, annotation, value, level))
  {
    if value.Some? {
      if annotation.Some? {
        NestLine("  ", level, "let " + name + ": " + TypeToTs(annotation.value) + " = " + value.value + ";");
      } else {
        NestLine("  ", level, "let " + name + " = " + value.value + ";");
      }
    }
  }

  lemma IfElseDeeper(c: Option<string>, t: Option<string>, f: Option<string>, level: nat)
    ensures IfElse(c, t, f, level + 1) == NestOpt(IfElse(c, t, f, level))
  {
    if c.Some? && t.Some? && f.Some? {
      var lines := IfElse(c, t, f, level).value;
      LineDeeper(level, "if (" + c.value + ") {");
      LineDeeper(level + 1, t.value + ";");
      LineDeeper(level, "} else {");
      LineDeeper(level + 1, f.value + ";");
      LineDeeper(level, "}");
      NestEach(lines, IfElse(c, t, f, level + 1).value);
    }
  }

  lemma ApiDeeper(httpMethod: string, endpoint: Option<string>, options: Option<Node>, level: nat)
    ensures TApiLines(httpMethod, endpoint, options, level + 1) == NestOpt(TApiLines(httpMethod, endpoint, options, level))
  {
    if endpoint.Some? {
      if options.Some? {
        OneLineDeeper("fetch(" + endpoint.value + ", {method: '" + httpMethod + "', ...", TExpr(options.value), "})", level);
      } else if httpMethod == "GET" {
        NestLine("  ", level, "fetch(" + endpoint.value + ")");
      } else {
        NestLine("  ", level, "fetch(" + endpoint.value + ", {method: '" + httpMethod + "'})");
      }
    }
  }

  lemma FileDeeper(operation: string, path: Option<string>, arguments: seq<Node>, level: nat)
    ensures TFileLines(operation, path, arguments, level + 1) == NestOpt(TFileLines(operation, path, arguments, level))
  {
    var fs := "import * as fs from 'fs';";
    if path.Some? {
      LineDeeper(level, fs);
      if operation == "read" {
        var read := "const content: string = fs.readFileSync(" + path.value + ", 'utf8');";
        LineDeeper(level, read);
        NestEach([Line(level, fs), Line(level, read)], [Line(level + 1, fs), Line(level + 1, read)]);
      } else if operation == "write" && arguments != [] {
        var content := TExpr(arguments[0]);
        if content.Some? {
          var write := "fs.writeFileSync(" + path.value + ", " + content.value + ", 'utf8');";
          LineDeeper(level, write);
          NestEach([Line(level, fs), Line(level, write)], [Line(level + 1, fs), Line(level + 1, write)]);
        }
      }
    }
  }

  lemma ComponentDeeper(name: string, stateVars: seq<StateEntry>, level: nat)
    ensures TComponentLines(name, stateVars, level + 1) == NestOpt(TComponentLines(name, stateVars, level))
  {
    if stateVars == [] {
      LineDeeper(level, "// React Component: " + name);
      LineDeeper(level, "function " + name + "(props: any): JSX.Element {");
      LineDeeper(level + 1, "return null as any; // JSX would be generated here");
      LineDeeper(level, "}");
      NestEach(TComponentLines(name, stateVars, level).value, TComponentLines(name, stateVars, level + 1).value);
    }
  }

  lemma PipelineFromDeeper(source: Option<string>, ops: seq<Node>, level: nat)
    ensures PipelineFrom(source, ops, level + 1) == NestOpt(PipelineFrom(source, ops, level))
  {
    if source.Some? {
      var a, b := "// Data pipeline from: " + source.value, "let data = " + source.value + ";";
      LineDeeper(level, a);
      LineDeeper(level, b);
      NestEach([Line(level, a), Line(level, b)], [Line(level + 1, a), Line(level + 1, b)]);
      TOpsDeeper(ops, level);
      var rest := TOpsLines(ops, level);
      if rest.Some? {
        NestConcat("  ", [Line(level, a), Line(level, b)], rest.value);
      }
    }
  }

  lemma {:induction false} TOpsDeeper(ops: seq<Node>, level: nat)
    ensures TOpsLines(ops, level + 1) == NestOpt(TOpsLines(ops, level))
  {
    if ops != [] {
      var init, last := ops[..|ops| - 1], ops[|ops| - 1];
      TOpsDeeper(init, level);
      TOpDeeper(last, level);
      var first, next := TOpsLines(init, level), TOpLines(last, level);
      if first.Some? && next.Some? {
        NestConcat("  ", first.value, next.value);
      }
    }
  }

  lemma TOpDeeper(op: Node, level: nat)
    ensures TOpLines(op, level + 1) == NestOpt(TOpLines(op, level))
  {
    if op.FilterOp? {
      var condition := TExpr(op.condition);
      if condition.Some? {
        NestLine("  ", level, "data = data.filter((x: any) => " + ReplaceAll(condition.value, "item", "x") + ");");
      }
    } else if op.MapOp? {
      if op.expression.Some? {
        var e := TExpr(op.expression.value);
        if e.Some? {
          NestLine("  ", level, "data = data.map((x: any) => " + ReplaceAll(e.value, "item", "x") + ");");
        }
      } else if op.fields.Some? && op.fields.value != [] {
        NestLine("  ", level, "data = data.map((x: any) => ({ " + Join(CodegenJs.FieldCopies(op.fields.value), ", ") + " }));");
      }
    } else if op.GroupByOp? {
      GroupByDeeper(op.field, level);
    } else if op.SortOp? {
      var (first, second) := if op.order == "desc" then ("b", "a") else ("a", "b");
      NestLine("  ", level, "data = data.sort((a: any, b: any) => " + SortKey(first, op.field) + " - " + SortKey(second, op.field) + ");");
    }
  }

  lemma GroupByDeeper(field: string, level: nat)
    ensures TGroupByLines(field, level + 1) == NestLines("  ", TGroupByLines(field, level))
  {
    LineDeeper(level, "data = data.reduce((groups: Record<string, any[]>, x: any) => {");
    LineDeeper(level, "    const key = x." + field + " || x['" + field + "'];");
    LineDeeper(level, "    if (!groups[key]) groups[key] = [];");
    LineDeeper(level, "    groups[key].push(x);");
    LineDeeper(level, "    return groups;");
    LineDeeper(level, "}, {});");
    NestEach(TGroupByLines(field, level), TGroupByLines(field, level + 1));
  }

  /** A block whose header and closing lines nest, around a body that nests or crashes
      alike, nests as a whole. */
  lemma BlockDeeper(header: Option<seq<string>>, body: Option<seq<string>>, closing: seq<string>,
                    deepHeader: Option<seq<string>>, deepBody: Option<seq<string>>, deepClosing: seq<string>)
    requires deepHeader == NestOpt(header) && deepClosing == NestLines("  ", closing)
    requires deepBody == NestOpt(body)
    ensures CodegenC.Block(deepHeader, deepBody, deepClosing) == NestOpt(CodegenC.Block(header, body, closing))
  {
    if header.Some? && body.Some? {
      NestConcat("  ", header.value, body.value);
      NestConcat("  ", header.value + body.value, closing);
    }
  }

  lemma {:induction false} TFunctionLinesDeeper(stmt: Node, level: nat)
    requires stmt.FunctionDef?
    ensures TFunctionLines(stmt, level + 1) == NestOpt(TFunctionLines(stmt, level))
    decreases stmt, 0
  {
    NestLine("  ", level, TsHeader(stmt));
    TBodyDeeper(stmt.body, level + 1);
    NestLine("  ", level, "}");
    NestConcat("  ", [Line(level, "}")], [""]);
    BlockDeeper(Some([Line(level, TsHeader(stmt))]), TBody(stmt.body, level + 1), [Line(level, "}"), ""],
      Some([Line(level + 1, TsHeader(stmt))]), TBody(stmt.body, level + 2), [Line(level + 1, "}"), ""]);
  }

  lemma {:induction false} TForLinesDeeper(stmt: Node, level: nat)
    requires stmt.ForLoop?
    ensures TForLines(stmt, level + 1) == NestOpt(TForLines(stmt, level))
    decreases stmt, 0
  {
    var prefix := "for (const " + stmt.variable + " of ";
    OneLineDeeper(prefix, TExpr(stmt.iterable), ") {", level);
    TBodyDeeper(stmt.body, level + 1);
    NestLine("  ", level, "}");
    BlockDeeper(OneLine(prefix, TExpr(stmt.iterable), ") {", level), TBody(stmt.body, level + 1), [Line(level, "}")],
      OneLine(prefix, TExpr(stmt.iterable), ") {", level + 1), TBody(stmt.body, level + 2), [Line(level + 1, "}")]);
  }

  lemma {:induction false} TWhileLinesDeeper(stmt: Node, level: nat)
    requires stmt.WhileLoop?
    ensures TWhileLines(stmt, level + 1) == NestOpt(TWhileLines(stmt, level))
    decreases stmt, 0
  {
    OneLineDeeper("while (", TExpr(stmt.condition), ") {", level);
    TBodyDeeper(stmt.body, level + 1);
    NestLine("  ", level, "}");
    BlockDeeper(OneLine("while (", TExpr(stmt.condition), ") {", level), TBody(stmt.body, level + 1), [Line(level, "}")],
      OneLine("while (", TExpr(stmt.condition), ") {", level + 1), TBody(stmt.body, level + 2), [Line(level + 1, "}")]);
  }

  /** The statements of a block one level deeper are the same block nested once. */
  lemma {:induction false} TBodyDeeper(body: seq<Node>, level: nat)
    ensures TBody(body, level + 1) == NestOpt(TBody(body, level))
    decreases body
  {
    if body != [] {
      var last := body[|body| - 1];
      TBodyDeeper(body[..|body| - 1], level);
      TStmtLinesDeeper(last, level);
      var first := TBody(body[..|body| - 1], level);
      var next := TStmtLines(last, level);
      if first.Some? && next.Some? {
        NestConcat("  ", first.value, next.value);
      }
    }
  }
}

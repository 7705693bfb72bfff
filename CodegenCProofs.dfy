/** Properties of the C generator's specification functions: the headers come out sorted,
    every top-level function is declared before the statements, the signature's "void"
    parameter list, what a power does to the output and to the headers, and how string
    literals are quoted. */
module CodegenCProofs {
  import opened Wrappers
  import opened Strings
  import opened Ast
  import opened CodegenBase
  import opened CodegenC

  // ----- Sorted headers -----

  /** Python's `<` on strings: code-point order, a proper prefix first. */
  predicate LexLess(a: string, b: string)
    decreases |a|
  {
    if a == [] then b != []
    else b != [] && (a[0] < b[0] || (a[0] == b[0] && LexLess(a[1..], b[1..])))
  }

  /** The known headers are in strictly increasing order. */
  lemma KnownHeadersIncreasing()
    ensures LexLess("math.h", "stdbool.h")
    ensures LexLess("stdbool.h", "stdio.h")
    ensures LexLess("stdio.h", "stdlib.h")
  {
    assert LexLess("bool.h", "io.h");
    assert "stdbool.h"[1..] == "tdbool.h" && "stdio.h"[1..] == "tdio.h";
    assert "tdbool.h"[1..] == "dbool.h" && "tdio.h"[1..] == "dio.h";
    assert "dbool.h"[1..] == "bool.h" && "dio.h"[1..] == "io.h";
    assert LexLess("dbool.h", "dio.h");
    assert LexLess("tdbool.h", "tdio.h");
    assert LexLess("io.h", "lib.h");
    assert "stdlib.h"[1..] == "tdlib.h" && "tdlib.h"[1..] == "dlib.h" && "dlib.h"[1..] == "lib.h";
    assert LexLess("dio.h", "dlib.h");
    assert LexLess("tdio.h", "tdlib.h");
  }

  /** `LexLess` is transitive. */
  lemma {:induction false} LexLessTransitive(a: string, b: string, c: string)
    requires LexLess(a, b) && LexLess(b, c)
    ensures LexLess(a, c)
    decreases |a|
  {
    if a != [] && a[0] == b[0] && b[0] == c[0] {
      LexLessTransitive(a[1..], b[1..], c[1..]);
    }
  }

  /** `sorted(includes)` on a set of known headers: strictly increasing, and holding
      exactly the headers of the set. */
  lemma SortedHeadersSorted(includes: set<string>)
    requires includes <= {"math.h", "stdbool.h", "stdio.h", "stdlib.h"}
    ensures var r := SortedHeaders(includes);
      (forall j, k :: 0 <= j < k < |r| ==> LexLess(r[j], r[k])) &&
      (forall h :: h in includes <==> h in r)
  {
    KnownHeadersIncreasing();
    LexLessTransitive("math.h", "stdbool.h", "stdio.h");
    LexLessTransitive("math.h", "stdio.h", "stdlib.h");
    LexLessTransitive("stdbool.h", "stdio.h", "stdlib.h");
  }

  /** A fresh generator's headers: the three standard ones, and never "math.h". */
  lemma FreshHeaders()
    ensures SortedHeaders({} + StdHeaders) == ["stdbool.h", "stdio.h", "stdlib.h"]
  {
  }

  // ----- Forward declarations -----

  /** Every top-level function has its forward declaration. */
  lemma {:induction false} ForwardDeclared(stmts: seq<Node>, level: int, k: nat)
    requires k < |stmts| && stmts[k].FunctionDef?
    ensures Line(level, Signature(stmts[k]) + ";") in ForwardDecls(stmts, level)
    decreases |stmts|
  {
    var n := |stmts| - 1;
    var line := Line(level, Signature(stmts[k]) + ";");
    var last := stmts[n];
    var tail := if last.FunctionDef? then [Line(level, Signature(last) + ";")] else [];
    assert ForwardDecls(stmts, level) == ForwardDecls(stmts[..n], level) + tail;
    if k < n {
      assert stmts[..n][k] == stmts[k];
      ForwardDeclared(stmts[..n], level, k);
      assert line in ForwardDecls(stmts[..n], level);
    } else {
      assert tail == [line];
    }
  }

  /** Every forward declaration is that of a top-level function. */
  lemma {:induction false} ForwardDeclsOfFunctions(stmts: seq<Node>, level: int, line: string)
    requires line in ForwardDecls(stmts, level)
    ensures exists k :: 0 <= k < |stmts| && stmts[k].FunctionDef? && line == Line(level, Signature(stmts[k]) + ";")
    decreases |stmts|
  {
    var n := |stmts| - 1;
    if line in ForwardDecls(stmts[..n], level) {
      ForwardDeclsOfFunctions(stmts[..n], level, line);
      var k :| 0 <= k < n && stmts[..n][k].FunctionDef? && line == Line(level, Signature(stmts[..n][k]) + ";");
      assert stmts[k] == stmts[..n][k];
    } else {
      assert stmts[n].FunctionDef? && line == Line(level, Signature(stmts[n]) + ";");
    }
  }

  /** The forward declarations stand after the includes and before the first line of
      any statement. */
  lemma DeclarationsBeforeStatements(prog: Node, includes: set<string>, level: int)
    requires prog.Program? && ProgramLines(prog, includes, level).Some?
    ensures var lines := ProgramLines(prog, includes, level).value;
      var decls := ForwardDecls(prog.statements, level);
      var d := 3 + |SortedHeaders(includes + StdHeaders)|;
      lines[d..d + |decls|] == decls && lines[d + |decls|] == "" &&
      lines[d + |decls| + 1..] == BodyC(prog.statements, level).value
  {
  }

  // ----- Signatures -----

  /** The parameter list is "void" exactly when the function has no inputs. */
  lemma ParamsVoidIffNoInputs(inputTypes: seq<Type>)
    ensures ParamsText(inputTypes) == "void" <==> inputTypes == []
  {
    if inputTypes != [] {
      var params := CParams(inputTypes);
      JoinStartsWithFirst(params, ", ");
      assert |params[0]| > 4;
    }
  }

  // ----- Powers and math.h -----

  lemma ContainsIn(a: string, m: string, b: string, sub: string)
    requires sub != [] && Contains(m, sub)
    ensures Contains(a + m + b, sub)
  {
    var i :| OccursAt(m, sub, i);
    assert (a + m + b)[|a| + i..|a| + i + |sub|] == m[i..i + |sub|];
    assert OccursAt(a + m + b, sub, |a| + i);
  }

  /** A part containing `sub` makes the joined text contain it. */
  lemma {:induction false} ContainsInJoin(parts: seq<string>, sep: string, k: nat, sub: string)
    requires sub != [] && k < |parts| && Contains(parts[k], sub)
    ensures Contains(Join(parts, sep), sub)
  {
    if |parts| > 1 {
      if k == 0 {
        ContainsIn("", parts[0], sep + Join(parts[1..], sep), sub);
        assert "" + parts[0] + (sep + Join(parts[1..], sep)) == Join(parts, sep);
      } else {
        ContainsInJoin(parts[1..], sep, k - 1, sub);
        ContainsIn(parts[0] + sep, Join(parts[1..], sep), "", sub);
        assert parts[0] + sep + Join(parts[1..], sep) + "" == Join(parts, sep);
      }
    }
  }

  /** When printing reaches a power and succeeds, the text calls `pow(`: math.h is added
      only for output that uses it. */
  lemma {:induction false} PowPrinted(node: Node)
    requires NeedsMath(node) && CExpr(node).Some?
    ensures Contains(CExpr(node).value, "pow(")
    decreases node, 1
  {
    if node.Operation? {
      OperationPowPrinted(node);
    } else if node.FunctionCall? {
      CallPowPrinted(node);
    } else if node.ArrayLiteral? {
      var elements := CExprs(node.elements).value;
      PowPrintedList(node.elements, ", ");
      ContainsIn("{", Join(elements, ", "), "}", "pow(");
    } else if node.MemberAccess? {
      PowPrinted(node.target);
      ContainsIn("", CExpr(node.target).value, "." + node.property, "pow(");
      assert "" + CExpr(node.target).value + ("." + node.property) == CExpr(node).value;
    } else if node.IndexAccess? {
      IndexPowPrinted(node);
    } else if node.RangeExpr? {
      RangePowPrinted(node);
    }
  }

  lemma {:induction false} OperationPowPrinted(node: Node)
    requires node.Operation? && NeedsMath(node) && CExpr(node).Some?
    ensures Contains(CExpr(node).value, "pow(")
    decreases node, 0
  {
    var text := CExpr(node).value;
    if COperator(node.operator) == "pow" {
      assert OccursAt(text, "pow(", 0);
    } else if |node.operands| == 1 {
      var x := CExpr(node.operands[0]).value;
      PowPrinted(node.operands[0]);
      ContainsIn(COperator(node.operator) + "(", x, ")", "pow(");
    } else {
      var l := CExpr(node.operands[0]).value;
      var r := CExpr(node.operands[1]).value;
      var op := COperator(node.operator);
      if NeedsMath(node.operands[0]) {
        PowPrinted(node.operands[0]);
        ContainsIn("(", l, " " + op + " " + r + ")", "pow(");
        assert "(" + l + (" " + op + " " + r + ")") == text;
      } else {
        PowPrinted(node.operands[1]);
        ContainsIn("(" + l + " " + op + " ", r, ")", "pow(");
      }
    }
  }

  lemma {:induction false} CallPowPrinted(node: Node)
    requires node.FunctionCall? && NeedsMath(node) && CExpr(node).Some?
    ensures Contains(CExpr(node).value, "pow(")
    decreases node, 0
  {
    var callee := CExpr(node.callee).value;
    var args := Join(CExprs(node.arguments).value, ", ");
    if NeedsMath(node.callee) {
      PowPrinted(node.callee);
      ContainsIn("", callee, "(" + args + ")", "pow(");
      assert "" + callee + ("(" + args + ")") == CExpr(node).value;
    } else {
      PowPrintedList(node.arguments, ", ");
      ContainsIn(callee + "(", args, ")", "pow(");
    }
  }

  lemma {:induction false} IndexPowPrinted(node: Node)
    requires node.IndexAccess? && NeedsMath(node) && CExpr(node).Some?
    ensures Contains(CExpr(node).value, "pow(")
    decreases node, 0
  {
    var target := CExpr(node.target).value;
    var index := CExpr(node.index).value;
    if NeedsMath(node.target) {
      PowPrinted(node.target);
      ContainsIn("", target, "[" + index + "]", "pow(");
      assert "" + target + ("[" + index + "]") == CExpr(node).value;
    } else {
      PowPrinted(node.index);
      ContainsIn(target + "[", index, "]", "pow(");
    }
  }

  lemma {:induction false} RangePowPrinted(node: Node)
    requires node.RangeExpr? && NeedsMath(node) && CExpr(node).Some?
    ensures Contains(CExpr(node).value, "pow(")
    decreases node, 0
  {
    var start := CExpr(node.start).value;
    var end := CExpr(node.end).value;
    if NeedsMath(node.start) {
      PowPrinted(node.start);
      ContainsIn("/* range(", start, ", " + end + ") */", "pow(");
      assert "/* range(" + start + (", " + end + ") */") == CExpr(node).value;
    } else {
      PowPrinted(node.end);
      ContainsIn("/* range(" + start + ", ", end, ") */", "pow(");
    }
  }

  lemma {:induction false} PowPrintedList(nodes: seq<Node>, sep: string)
    requires AnyNeedsMath(nodes) && CExprs(nodes).Some?
    ensures Contains(Join(CExprs(nodes).value, sep), "pow(")
    decreases nodes
  {
    var texts := CExprs(nodes).value;
    if NeedsMath(nodes[0]) {
      PowPrinted(nodes[0]);
      ContainsInJoin(texts, sep, 0, "pow(");
    } else {
      PowPrintedList(nodes[1..], sep);
      var rest := CExprs(nodes[1..]).value;
      assert texts == [texts[0]] + rest;
      ContainsIn(texts[0] + sep, Join(rest, sep), "", "pow(");
      assert texts[0] + sep + Join(rest, sep) + "" == Join(texts, sep);
    }
  }

  // ----- math.h as written, and included before use -----

  /** Two lines at the same level with different non-empty code differ. */
  lemma LineDiffers(level: int, a: string, b: string)
    requires a != [] && b != [] && a != b
    ensures Line(level, a) != Line(level, b)
  {
    var p := Repeat("    ", level);
    assert Line(level, a)[|p|..] == a && Line(level, b)[|p|..] == b;
  }

  /** As written, a fresh generator's preamble never includes math.h, whatever the
      statements print afterwards. */
  lemma FreshPreambleOmitsMath(stmts: seq<Node>, level: int)
    ensures Line(level, "#include <math.h>") !in PreambleLines(stmts, {}, level)
  {
    var math := Line(level, "#include <math.h>");
    FreshHeaders();
    var includes := IncludeLines(["stdbool.h", "stdio.h", "stdlib.h"], level);
    var decls := ForwardDecls(stmts, level);
    var lines := PreambleLines(stmts, {}, level);
    assert lines == [Line(level, "/* Generated C code from VL */"), ""] + includes + [""] + decls + [""];
    LineDiffers(level, "/* Generated C code from VL */", "#include <math.h>");
    forall i | 0 <= i < 3
      ensures includes[i] != math
    {
      var h := ["stdbool.h", "stdio.h", "stdlib.h"][i];
      assert ("#include <" + h + ">")[10] != 'm';
      LineDiffers(level, "#include <" + h + ">", "#include <math.h>");
    }
    forall line | line in decls
      ensures line != math
    {
      ForwardDeclsOfFunctions(stmts, level, line);
      var j :| 0 <= j < |stmts| && stmts[j].FunctionDef? && line == Line(level, Signature(stmts[j]) + ";");
      var s := Signature(stmts[j]) + ";";
      assert s[|s| - 1] == ';';
      LineDiffers(level, s, "#include <math.h>");
    }
  }

  /** A one-statement program `return a ** b;` at the top level. */
  function PowProgram(): Node {
    Program(1, 1, None, None,
            [ReturnStmt(1, 1, Operation(1, 1, "**", [Identifier(1, 1, "a"), Identifier(1, 1, "b")]))], None)
  }

  /** The statements of `PowProgram` print as `return pow(a, b);` and need math.h. */
  lemma PowProgramBody()
    ensures BodyNeedsMath(PowProgram().statements)
    ensures BodyC(PowProgram().statements, 0) == Some(["return pow(a, b);"])
  {
    var stmts := PowProgram().statements;
    var ret := stmts[0];
    var power := ret.value;
    assert CExpr(power.operands[0]) == Some("a") && CExpr(power.operands[1]) == Some("b");
    assert COperator(power.operator) == "pow";
    assert |power.operands| == 2;
    assert "pow(" + "a" + ", " + "b" + ")" == "pow(a, b)";
    assert COperationExpr(power) == Some("pow(a, b)");
    assert CExpr(power) == Some("pow(a, b)");
    assert NeedsMath(power);
    assert StmtNeedsMath(ret);
    assert stmts[..0] == [];
    assert BodyNeedsMath(stmts);
    assert Line(0, "return " + "pow(a, b)" + ";") == "return pow(a, b);";
    assert CStmtLines(ret, 0) == Some(["return pow(a, b);"]);
    assert BodyC(stmts[..0], 0) == Some([]);
    assert [] + ["return pow(a, b);"] == ["return pow(a, b);"];
    assert BodyC(stmts, 0) == Then(BodyC(stmts[..0], 0), CStmtLines(ret, 0));
  }

  /** A fresh generator's preamble for statements without functions, at level 0. */
  lemma FreshPreambleNoFunctions(stmts: seq<Node>)
    requires forall k :: 0 <= k < |stmts| ==> !stmts[k].FunctionDef?
    ensures PreambleLines(stmts, {}, 0) ==
            ["/* Generated C code from VL */", "", "#include <stdbool.h>", "#include <stdio.h>", "#include <stdlib.h>", "", ""]
  {
    if ForwardDecls(stmts, 0) != [] {
      ForwardDeclsOfFunctions(stmts, 0, ForwardDecls(stmts, 0)[0]);
    }
    FreshHeaders();
    var includes := IncludeLines(["stdbool.h", "stdio.h", "stdlib.h"], 0);
    assert includes[0] == "#include <stdbool.h>" && includes[1] == "#include <stdio.h>" && includes[2] == "#include <stdlib.h>";
    assert Line(0, "/* Generated C code from VL */") == "/* Generated C code from VL */";
  }

  /** As written, generating `return a ** b;` with a fresh generator prints `pow(a, b)`
      and needs math.h, yet the output includes only the three standard headers. */
  lemma PowWithoutMathHeader()
    ensures BodyNeedsMath(PowProgram().statements)
    ensures ProgramLines(PowProgram(), {}, 0) ==
            Some(["/* Generated C code from VL */", "", "#include <stdbool.h>", "#include <stdio.h>",
                  "#include <stdlib.h>", "", "", "return pow(a, b);"])
    ensures "#include <math.h>" !in ProgramLines(PowProgram(), {}, 0).value
  {
    var prog := PowProgram();
    PowProgramBody();
    FreshPreambleNoFunctions(prog.statements);
    var lines := ProgramLines(prog, {}, 0).value;
    assert lines == ["/* Generated C code from VL */", "", "#include <stdbool.h>", "#include <stdio.h>",
                     "#include <stdlib.h>", "", ""] + ["return pow(a, b);"];
    assert ProgramLines(prog, {}, 0) == Some(lines);
    assert lines == ["/* Generated C code from VL */", "", "#include <stdbool.h>", "#include <stdio.h>",
                     "#include <stdlib.h>", "", "", "return pow(a, b);"];
  }

  /** `generate` with the headers collected first: the statements are printed before the
      includes are emitted, so a power's math.h is among them. */
  function CorrectedProgramLines(prog: Node, includes: set<string>, level: int): Option<seq<string>>
    requires prog.Program?
  {
    var body := BodyC(prog.statements, level);
    if body.None? then None
    else Some(PreambleLines(prog.statements, includes + MathIf(BodyNeedsMath(prog.statements)), level) + body.value)
  }

  /** With the corrected order, a program whose statements reach a power includes math.h;
      otherwise the output is the one as written. */
  lemma CorrectedIncludesMath(prog: Node, includes: set<string>, level: int)
    requires prog.Program? && includes <= {"math.h", "stdbool.h", "stdio.h", "stdlib.h"}
    ensures CorrectedProgramLines(prog, includes, level).Some? == ProgramLines(prog, includes, level).Some?
    ensures BodyNeedsMath(prog.statements) && CorrectedProgramLines(prog, includes, level).Some? ==>
            Line(level, "#include <math.h>") in CorrectedProgramLines(prog, includes, level).value
    ensures !BodyNeedsMath(prog.statements) ==> CorrectedProgramLines(prog, includes, level) == ProgramLines(prog, includes, level)
  {
    if BodyNeedsMath(prog.statements) && CorrectedProgramLines(prog, includes, level).Some? {
      var all := includes + MathIf(true) + StdHeaders;
      var headers := SortedHeaders(all);
      assert headers[0] == "math.h";
      var lines := CorrectedProgramLines(prog, includes, level).value;
      var preamble := PreambleLines(prog.statements, includes + MathIf(true), level);
      assert lines[..|preamble|] == preamble;
      assert preamble[2] == IncludeLines(headers, level)[0] == Line(level, "#include <math.h>");
      assert lines[2] == preamble[2];
    }
  }

  // ----- String literals -----

  /** How C reads the body of a string literal after its opening quote: `\c` stands for
      `c` (which is exact for the two escapes `\\` and `\"`), and the first unescaped `"`
      ends it; `None` when the literal never ends. */
  function ReadCString(s: string): Option<string>
    decreases |s|
  {
    if s == [] then None
    else if s[0] == '"' then Some([])
    else if s[0] == '\\' then
      if |s| == 1 then None
      else
        var rest := ReadCString(s[2..]);
        if rest.None? then None else Some([s[1]] + rest.value)
    else
      var rest := ReadCString(s[1..]);
      if rest.None? then None else Some([s[0]] + rest.value)
  }

  /** As written, a text without backslashes reads back from its literal, whatever
      follows the closing quote. */
  lemma {:induction false} CStringReadsBack(text: string, rest: string)
    requires '\\' !in text
    ensures ReadCString(CString(text)[1..] + rest) == Some(text)
  {
    QuotesReadBack(text, rest);
    assert CString(text)[1..] + rest == ReplaceAll(text, "\"", "\\\"") + "\"" + rest;
  }

  lemma {:induction false} QuotesReadBack(text: string, rest: string)
    requires '\\' !in text
    ensures ReadCString(ReplaceAll(text, "\"", "\\\"") + "\"" + rest) == Some(text)
    decreases |text|
  {
    var s := ReplaceAll(text, "\"", "\\\"") + "\"" + rest;
    if text != [] {
      var tail := ReplaceAll(text[1..], "\"", "\\\"") + "\"" + rest;
      QuotesReadBack(text[1..], rest);
      if text[..1] == "\"" {
        assert s == "\\\"" + tail;
        assert s[2..] == tail;
      } else {
        assert s == [text[0]] + tail;
        assert s[1..] == tail;
      }
      assert text == [text[0]] + text[1..];
    }
  }

  /** As written, the literal of the text `a\` ends with an escaped quote, so C reads on
      past it. */
  lemma TrailingBackslashUnterminated()
    ensures CString("a\\") == "\"a\\\""
    ensures ReadCString(CString("a\\")[1..]) == None
  {
    assert ReplaceAll("\\", "\"", "\\\"") == "\\";
    assert ReplaceAll("a\\", "\"", "\\\"") == "a\\";
    assert ReadCString("") == None;
    assert ReadCString("\\\"") == None;
  }

  /** The escaping the quoting evidently intends: a backslash and a quote each get a
      backslash in front. */
  function EscapeC(text: string): string
    decreases |text|
  {
    if text == [] then ""
    else if text[0] == '\\' || text[0] == '"' then ['\\', text[0]] + EscapeC(text[1..])
    else [text[0]] + EscapeC(text[1..])
  }

  /** Reading an escaped character: the character itself, then the rest. */
  lemma ReadEscaped(c: char, t: string)
    ensures ReadCString(['\\', c] + t) == if ReadCString(t).None? then None else Some([c] + ReadCString(t).value)
  {
    assert (['\\', c] + t)[2..] == t;
  }

  /** Reading an ordinary character: the character itself, then the rest. */
  lemma ReadPlain(c: char, t: string)
    requires c != '"' && c != '\\'
    ensures ReadCString([c] + t) == if ReadCString(t).None? then None else Some([c] + ReadCString(t).value)
  {
    assert ([c] + t)[1..] == t;
  }

  /** With backslashes escaped too, every text reads back from its literal. */
  lemma {:induction false} EscapeCReadsBack(text: string, rest: string)
    ensures ReadCString(EscapeC(text) + "\"" + rest) == Some(text)
    decreases |text|
  {
    if text != [] {
      var tail := EscapeC(text[1..]) + "\"" + rest;
      EscapeCReadsBack(text[1..], rest);
      if text[0] == '\\' || text[0] == '"' {
        assert EscapeC(text) + "\"" + rest == ['\\', text[0]] + tail;
        ReadEscaped(text[0], tail);
      } else {
        assert EscapeC(text) + "\"" + rest == [text[0]] + tail;
        ReadPlain(text[0], tail);
      }
      assert text == [text[0]] + text[1..];
    }
  }
}

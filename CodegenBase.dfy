/** The shared code-generator base (src/vl/codegen/base.py): line emission with an
    indentation level, the whole-word `item` replacement used in pipeline lambdas, the
    expression classifiers, function-signature parameters and the dispatch fallbacks.

    `IndentedLine` is the line every generator's `_emit` appends; the other generator
    modules use it with their own indentation unit. */
module CodegenBase {
  import opened Wrappers
  import opened Strings
  import opened Ast

  // ----- Emission -----

  /** The line `_emit(line)` appends at indentation `level` with indentation unit `unit`:
      `unit * level + line` for a non-empty line and exactly "" for an empty one. */
  function IndentedLine(unit: string, level: int, line: string): string {
    if line == [] then "" else Repeat(unit, level) + line
  }

  /** An emitted non-empty line is `level` copies of the unit followed by the line itself,
      and an empty line stays empty whatever the level. */
  lemma {:induction false} IndentedLineShape(unit: string, level: nat, line: string)
    ensures line == [] ==> IndentedLine(unit, level, line) == ""
    ensures line != [] ==> |IndentedLine(unit, level, line)| == level * |unit| + |line|
    ensures line != [] ==> IndentedLine(unit, level, line)[level * |unit|..] == line
  {
    if line != [] {
      RepeatLength(unit, level);
    }
  }

  /** One more level puts one more copy of the unit in front of a non-empty line. */
  lemma {:induction false} IndentedLineDeeper(unit: string, level: nat, line: string)
    requires line != []
    ensures IndentedLine(unit, level + 1, line) == unit + IndentedLine(unit, level, line)
  {
    assert Repeat(unit, level + 1) == unit + Repeat(unit, level);
  }

  /** Every non-empty line one unit deeper; empty lines stay empty. This is what emitting
      the same lines one indentation level further in does to them. */
  function NestLines(unit: string, lines: seq<string>): (r: seq<string>)
    ensures |r| == |lines|
  {
    seq(|lines|, k requires 0 <= k < |lines| => if lines[k] == [] then "" else unit + lines[k])
  }

  lemma NestConcat(unit: string, a: seq<string>, b: seq<string>)
    ensures NestLines(unit, a + b) == NestLines(unit, a) + NestLines(unit, b)
  {
  }

  /** An emitted line one level deeper is the nested emitted line. */
  lemma NestLine(unit: string, level: nat, line: string)
    ensures [IndentedLine(unit, level + 1, line)] == NestLines(unit, [IndentedLine(unit, level, line)])
  {
    if line != [] {
      IndentedLineDeeper(unit, level, line);
    }
  }

  /** The shape of the tree every generator starts from: a `Program` whose optional parts are
      the node classes its fields are declared with. */
  predicate IsProgram(node: Node) {
    node.Program? &&
    (node.metadata.Some? ==> node.metadata.value.Metadata?) &&
    (node.dependencies.Some? ==> node.dependencies.value.Dependencies?) &&
    (node.exportDecl.Some? ==> node.exportDecl.value.Export?)
  }

  // ----- Expression classifiers -----

  /** `_is_simple_expression`: a literal, an identifier or a variable reference. */
  predicate IsSimpleExpression(node: Node) {
    node.NumberLiteral? || node.StringLiteral? || node.BooleanLiteral? ||
    node.Identifier? || node.VariableRef?
  }

  /** `_needs_parentheses`: only an operation. */
  predicate NeedsParentheses(node: Node) {
    node.Operation?
  }

  /** A simple expression never needs parentheses, and a node that needs them is not
      simple; every other kind (a call, an array, a member access...) is neither. */
  lemma ClassifiersDisjoint(node: Node)
    ensures IsSimpleExpression(node) ==> !NeedsParentheses(node)
    ensures NeedsParentheses(node) ==> !IsSimpleExpression(node)
    ensures node.FunctionCall? ==> !IsSimpleExpression(node) && !NeedsParentheses(node)
  {
  }

  // ----- Whole-word `item` replacement -----

  /** A character of Python's `\w` class, on ASCII. */
  predicate IsWordChar(c: char) {
    IsAlnum(c) || c == '_'
  }

  /** `\bitem\b` matches at index `i`: the four letters with no word character on either
      side. */
  predicate ItemWordAt(s: string, i: nat) {
    i + 4 <= |s| && s[i..i + 4] == "item" &&
    (i == 0 || !IsWordChar(s[i - 1])) &&
    (i + 4 == |s| || !IsWordChar(s[i + 4]))
  }

  /** `re.sub(r'\bitem\b', replacement, code)` from index `i` on: scanning left to right,
      each match is replaced and the scan resumes after it; other characters are copied. */
  function ReplaceItemFrom(s: string, i: nat, replacement: string): string
    requires i <= |s|
    decreases |s| - i
  {
    if i == |s| then ""
    else if ItemWordAt(s, i) then replacement + ReplaceItemFrom(s, i + 4, replacement)
    else [s[i]] + ReplaceItemFrom(s, i + 1, replacement)
  }

  /** `_replace_item_keyword(code, replacement)`. */
  function ReplaceItemKeyword(code: string, replacement: string): string {
    ReplaceItemFrom(code, 0, replacement)
  }

  /** Code without a whole-word `item` comes back unchanged. */
  lemma {:induction false} ReplaceItemAbsent(s: string, i: nat, replacement: string)
    requires i <= |s|
    requires forall j :: i <= j < |s| ==> !ItemWordAt(s, j)
    ensures ReplaceItemFrom(s, i, replacement) == s[i..]
    decreases |s| - i
  {
    if i < |s| {
      ReplaceItemAbsent(s, i + 1, replacement);
      assert s[i..] == [s[i]] + s[i + 1..];
    }
  }

  /** Replacing `item` by itself changes nothing. */
  lemma {:induction false} ReplaceItemByItself(s: string, i: nat)
    requires i <= |s|
    ensures ReplaceItemFrom(s, i, "item") == s[i..]
    decreases |s| - i
  {
    if i < |s| {
      if ItemWordAt(s, i) {
        ReplaceItemByItself(s, i + 4);
        assert s[i..] == s[i..i + 4] + s[i + 4..];
      } else {
        ReplaceItemByItself(s, i + 1);
        assert s[i..] == [s[i]] + s[i + 1..];
      }
    }
  }

  /** The number of whole-word matches the scan from `i` replaces. */
  function ItemWordCount(s: string, i: nat): nat
    requires i <= |s|
    decreases |s| - i
  {
    if i == |s| then 0
    else if ItemWordAt(s, i) then 1 + ItemWordCount(s, i + 4)
    else ItemWordCount(s, i + 1)
  }

  /** Nothing but the matches changes: the length grows by `|replacement| - 4` per
      replaced word and by nothing else. */
  lemma {:induction false} ReplaceItemLength(s: string, i: nat, replacement: string)
    requires i <= |s|
    ensures |ReplaceItemFrom(s, i, replacement)| ==
            |s| - i + ItemWordCount(s, i) * (|replacement| - 4)
    decreases |s| - i
  {
    if i < |s| {
      if ItemWordAt(s, i) {
        ReplaceItemLength(s, i + 4, replacement);
        var c, k := ItemWordCount(s, i + 4), |replacement| - 4;
        assert (c + 1) * k == c * k + k;
      } else {
        ReplaceItemLength(s, i + 1, replacement);
      }
    }
  }

  /** `item` alone is a whole word and is replaced. */
  lemma ReplaceItemWholeWord(replacement: string)
    ensures ReplaceItemKeyword("item", replacement) == replacement
  {
    assert ItemWordAt("item", 0);
    assert ReplaceItemFrom("item", 4, replacement) == "";
  }

  /** `items` and `item_id` contain `item` only as part of a longer word and are left
      alone. */
  lemma ReplaceItemInsideWord(replacement: string)
    ensures ReplaceItemKeyword("items", replacement) == "items"
    ensures ReplaceItemKeyword("item_id", replacement) == "item_id"
  {
    forall j | 0 <= j < |"items"|
      ensures !ItemWordAt("items", j)
    {
      assert IsWordChar("items"[4]);
    }
    ReplaceItemAbsent("items", 0, replacement);
    forall j | 0 <= j < |"item_id"|
      ensures !ItemWordAt("item_id", j)
    {
      assert IsWordChar("item_id"[4]);
    }
    ReplaceItemAbsent("item_id", 0, replacement);
  }

  // ----- Function signature parameters -----

  /** The parameter list `_generate_function_signature_params` builds:
      `{prefix}{k}: {target type}` for each input type, in order. */
  function SignatureParamList(inputTypes: seq<Type>, prefix: string, toTarget: Type -> string)
    : seq<string>
  {
    seq(|inputTypes|, k requires 0 <= k < |inputTypes| => prefix + NatToString(k) + ": " + toTarget(inputTypes[k]))
  }

  /** Parameter names are pairwise distinct: the k-th name carries the index k. */
  lemma ParamNamesDistinct(prefix: string, j: nat, k: nat)
    requires j != k
    ensures prefix + NatToString(j) != prefix + NatToString(k)
  {
    if prefix + NatToString(j) == prefix + NatToString(k) {
      assert NatToString(j) == (prefix + NatToString(j))[|prefix|..];
      assert NatToString(k) == (prefix + NatToString(k))[|prefix|..];
      DecimalRoundTrip(j);
      DecimalRoundTrip(k);
    }
  }

  /** The abstract `_type_to_target` of a concrete generator, and its statement handlers,
      are parameters: `handled` names the node classes that have a handler and
      `handlerLines` gives the lines a handler emits. */
  class BaseCodeGenerator {
    const ast: Node
    var code: seq<string>
    var indentLevel: int
    var indentString: string

    /** `__init__`: no code, level 0, four spaces per level. */
    constructor (ast: Node)
      ensures this.ast == ast && code == [] && indentLevel == 0 && indentString == "    "
    {
      this.ast := ast;
      code := [];
      indentLevel := 0;
      indentString := "    ";
    }

    /** `_emit(line)`. */
    method Emit(line: string)
      modifies this
      ensures code == old(code) + [IndentedLine(indentString, indentLevel, line)]
      ensures indentLevel == old(indentLevel) && indentString == old(indentString)
    {
      code := code + [IndentedLine(indentString, indentLevel, line)];
    }

    /** `_get_output`: the lines joined by newlines, so that splitting the text at
        newlines gives back lines that hold none. */
    function GetOutput(): (r: string)
      reads this
      ensures code != [] && (forall k :: 0 <= k < |code| ==> '\n' !in code[k]) ==> Split(r, '\n') == code
    {
      JoinSplitLines(code);
      Join(code, "\n")
    }

    /** `_indent`. */
    method Indent()
      modifies this
      ensures indentLevel == old(indentLevel) + 1
      ensures code == old(code) && indentString == old(indentString)
    {
      indentLevel := indentLevel + 1;
    }

    /** `_dedent`: one level less, never below zero. */
    method Dedent()
      modifies this
      ensures indentLevel == if old(indentLevel) <= 0 then 0 else old(indentLevel) - 1
      ensures code == old(code) && indentString == old(indentString)
    {
      indentLevel := if indentLevel - 1 < 0 then 0 else indentLevel - 1;
    }

    /** `_generate_function_signature_params`, the loop over the input types. */
    method SignatureParams(inputTypes: seq<Type>, prefix: string, toTarget: Type -> string)
      returns (params: seq<string>)
      ensures params == SignatureParamList(inputTypes, prefix, toTarget)
    {
      params := [];
      var i := 0;
      while i < |inputTypes|
        invariant 0 <= i <= |inputTypes|
        invariant params == SignatureParamList(inputTypes[..i], prefix, toTarget)
      {
        params := params + [prefix + NatToString(i) + ": " + toTarget(inputTypes[i])];
        i := i + 1;
        assert inputTypes[..i][..i - 1] == inputTypes[..i - 1];
      }
      assert inputTypes[..i] == inputTypes;
    }

    /** `_collect_dependencies`: the declared dependencies, or none. */
    function CollectDependencies(): (r: seq<string>)
      ensures ast.Program? && ast.dependencies.Some? && ast.dependencies.value.Dependencies? ==>
              r == ast.dependencies.value.deps
      ensures !(ast.Program? && ast.dependencies.Some?) ==> r == []
    {
      if ast.Program? && ast.dependencies.Some? then
        var deps := ast.dependencies.value;
        if deps.Dependencies? then deps.deps else []
      else []
    }

    /** `_dispatch_statement`: the handler's lines for a handled class, otherwise one
        "Unhandled" comment line. */
    method DispatchStatement(node: Node, handled: set<string>, handlerLines: Node -> seq<string>)
      modifies this
      ensures ClassName(node) in handled ==> code == old(code) + handlerLines(node)
      ensures ClassName(node) !in handled ==>
              code == old(code) + [IndentedLine(indentString, indentLevel, "# Unhandled statement: " + ClassName(node))]
      ensures indentLevel == old(indentLevel) && indentString == old(indentString)
    {
      if ClassName(node) in handled {
        code := code + handlerLines(node);
      } else {
        Emit("# Unhandled statement: " + ClassName(node));
      }
    }
  }

  /** `_dispatch_expression`: the handler's text for a handled class, otherwise an
      "Unhandled" comment. */
  function DispatchExpression(node: Node, handled: set<string>, handler: Node -> string): (r: string)
    ensures ClassName(node) in handled ==> r == handler(node)
    ensures ClassName(node) !in handled ==> StartsWith(r, "/* Unhandled expression: ")
  {
    if ClassName(node) in handled then handler(node)
    else "/* Unhandled expression: " + ClassName(node) + " */"
  }

  /** Lines without newlines come back from their joined text by splitting it. */
  lemma JoinSplitLines(lines: seq<string>)
    ensures lines != [] && (forall k :: 0 <= k < |lines| ==> '\n' !in lines[k]) ==>
            Split(Join(lines, "\n"), '\n') == lines
  {
    if lines != [] && (forall k :: 0 <= k < |lines| ==> '\n' !in lines[k]) {
      JoinSplit(lines, '\n');
    }
  }
}

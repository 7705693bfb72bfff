/** The syntax tree of the VL compiler (interpreter/ast_nodes.py), extended with the node
    kinds the current parser (src/vl/parser.py) builds, and the debugging printer
    `ast_to_string`.

    Every node kind is one constructor of `Node`; each carries the `line` and `column` that
    all nodes inherit from `ASTNode`. Python's dynamic typing lets a field typed as an
    expression hold a statement (a ternary branch holding a `ReturnStmt`), so all fields that
    hold nodes have type `Node`. Type annotations are the separate value type `Type`. */
module Ast {
  import opened Wrappers
  import opened Strings

  /** A number literal's value, kept by its source spelling: `int(...)` when the lexeme has
      no '.', otherwise `float(...)` of the lexeme. */
  datatype Number = IntNum(n: int) | FloatNum(lexeme: string)

  /** A type annotation (`Type`): the type token's text. */
  datatype Type = Type(line: int, column: int, name: string)

  /** One `key: value` entry of an object literal (a Python tuple). */
  datatype Pair = Pair(key: string, value: Node)

  /** The tuples the parser stores for `props:` and `state:` clauses of a UI component. */
  datatype PropEntry = PropEntry(name: string, typeName: Option<string>)
  datatype StateEntry = StateEntry(name: string, typeName: Option<string>, initial: Node)

  datatype Node =
      // Program structure
    | Program(line: int, column: int, metadata: Option<Node>, dependencies: Option<Node>,
              statements: seq<Node>, exportDecl: Option<Node>)
    | Metadata(line: int, column: int, name: string, programType: string, targetLanguage: string)
    | Dependencies(line: int, column: int, deps: seq<string>)
    | Export(line: int, column: int, name: string)
      // Statements
    | FunctionDef(line: int, column: int, name: string, inputTypes: seq<Type>, outputType: Type,
                  body: seq<Node>, decorators: Option<seq<Node>> := None)
    | VariableDef(line: int, column: int, name: string, typeAnnotation: Option<Type>, value: Node)
    | CompoundAssignment(line: int, column: int, name: string, operator: string, value: Node)
    | ReturnStmt(line: int, column: int, value: Node)
    | DirectCall(line: int, column: int, call: Node)
    | IfStmt(line: int, column: int, condition: Node, trueExpr: Node, falseExpr: Node)
    | ForLoop(line: int, column: int, variable: string, iterable: Node, body: seq<Node>)
    | WhileLoop(line: int, column: int, condition: Node, body: seq<Node>)
      // Expressions
    | FunctionExpr(line: int, column: int, name: string, inputTypes: seq<Type>, outputType: Type,
                   body: seq<Node>)
    | NumberLiteral(line: int, column: int, number: Number)
    | StringLiteral(line: int, column: int, text: string, isTemplate: bool := false)
    | BooleanLiteral(line: int, column: int, flag: bool)
    | ArrayLiteral(line: int, column: int, elements: seq<Node>)
    | ObjectLiteral(line: int, column: int, pairs: seq<Pair>)
    | Identifier(line: int, column: int, name: string)
    | VariableRef(line: int, column: int, name: string)
    | MemberAccess(line: int, column: int, target: Node, property: string)
    | Operation(line: int, column: int, operator: string, operands: seq<Node>)
    | FunctionCall(line: int, column: int, callee: Node, arguments: seq<Node>)
    | RangeExpr(line: int, column: int, start: Node, end: Node)
      // API domain
    | APICall(line: int, column: int, httpMethod: string, endpoint: Node, options: Option<Node>,
              isAsync: bool := false, chained: Option<seq<Node>> := None)
    | FilterOp(line: int, column: int, condition: Node)
    | MapOp(line: int, column: int, fields: Option<seq<string>>, expression: Option<Node>)
    | ParseOp(line: int, column: int, format: string)
      // UI domain
    | UIComponent(line: int, column: int, name: string, props: seq<PropEntry>,
                  stateVars: seq<StateEntry>, body: seq<Node>)
    | PropDef(line: int, column: int, name: string, propType: Type)
    | StateDef(line: int, column: int, name: string, stateType: Type, initialValue: Node)
    | SetState(line: int, column: int, variable: string, value: Node)
    | EventHandler(line: int, column: int, eventName: string, body: seq<Node>)
    | RenderStmt(line: int, column: int, elementName: string, attrs: Option<Node>,
                 children: seq<Node>)
    | HookCall(line: int, column: int, hookName: string, arguments: seq<Node>)
      // Data domain
    | DataPipeline(line: int, column: int, source: Node, operations: seq<Node>)
    | GroupByOp(line: int, column: int, field: string)
    | AggregateOp(line: int, column: int, aggFunction: string, aggField: Option<string>)
    | SortOp(line: int, column: int, field: string, order: string := "asc")
    | LimitOp(line: int, column: int, limit: int)
    | SkipOp(line: int, column: int, skip: int)
    | JoinOp(line: int, column: int, other: Node, leftKey: string, rightKey: Option<string>,
             joinType: string := "inner")
      // File domain and foreign calls
    | FileOperation(line: int, column: int, operation: string, path: Node, arguments: seq<Node>)
    | DirOperation(line: int, column: int, operation: string, path: Node, arguments: seq<Node>)
    | PathOperation(line: int, column: int, operation: string, arguments: seq<Node>)
    | FFICall(line: int, column: int, language: string, functionPath: string, arguments: seq<Node>)
      // Kinds built only by the current parser
    | IndexAccess(line: int, column: int, target: Node, index: Node)
    | IfElseBlock(line: int, column: int, condition: Node, ifBody: seq<Node>,
                  elseBody: Option<seq<Node>>)
    | ClassDef(line: int, column: int, name: string, baseClasses: Option<seq<string>>,
               methods: Option<seq<Node>>, attributes: Option<seq<Node>>,
               decorators: Option<seq<Node>>)
    | Decorator(line: int, column: int, name: string, args: Option<seq<Node>>)
    | PythonExpr(line: int, column: int, code: string)
    | PythonStmt(line: int, column: int, code: string)
    | InOp(line: int, column: int, element: Node, container: Node)

  /** The dataclass defaults: a string literal is not a template, an API call is synchronous
      with no chained operations, a sort is ascending and a join is an inner join. */
  lemma NodeDefaults(line: int, column: int, text: string, endpoint: Node, other: Node)
    ensures !StringLiteral(line, column, text).isTemplate
    ensures var call := APICall(line, column, "GET", endpoint, None);
            !call.isAsync && call.chained == None
    ensures SortOp(line, column, "f").order == "asc"
    ensures JoinOp(line, column, other, "k", None).joinType == "inner"
  {
  }

  /** The Python class name of a node, `node.__class__.__name__`. */
  function ClassName(node: Node): string
  {
    match node
    case Program(_, _, _, _, _, _) => "Program"
    case Metadata(_, _, _, _, _) => "Metadata"
    case Dependencies(_, _, _) => "Dependencies"
    case Export(_, _, _) => "Export"
    case FunctionDef(_, _, _, _, _, _, _) => "FunctionDef"
    case VariableDef(_, _, _, _, _) => "VariableDef"
    case CompoundAssignment(_, _, _, _, _) => "CompoundAssignment"
    case ReturnStmt(_, _, _) => "ReturnStmt"
    case DirectCall(_, _, _) => "DirectCall"
    case IfStmt(_, _, _, _, _) => "IfStmt"
    case ForLoop(_, _, _, _, _) => "ForLoop"
    case WhileLoop(_, _, _, _) => "WhileLoop"
    case FunctionExpr(_, _, _, _, _, _) => "FunctionExpr"
    case NumberLiteral(_, _, _) => "NumberLiteral"
    case StringLiteral(_, _, _, _) => "StringLiteral"
    case BooleanLiteral(_, _, _) => "BooleanLiteral"
    case ArrayLiteral(_, _, _) => "ArrayLiteral"
    case ObjectLiteral(_, _, _) => "ObjectLiteral"
    case Identifier(_, _, _) => "Identifier"
    case VariableRef(_, _, _) => "VariableRef"
    case MemberAccess(_, _, _, _) => "MemberAccess"
    case Operation(_, _, _, _) => "Operation"
    case FunctionCall(_, _, _, _) => "FunctionCall"
    case RangeExpr(_, _, _, _) => "RangeExpr"
    case APICall(_, _, _, _, _, _, _) => "APICall"
    case FilterOp(_, _, _) => "FilterOp"
    case MapOp(_, _, _, _) => "MapOp"
    case ParseOp(_, _, _) => "ParseOp"
    case UIComponent(_, _, _, _, _, _) => "UIComponent"
    case PropDef(_, _, _, _) => "PropDef"
    case StateDef(_, _, _, _, _) => "StateDef"
    case SetState(_, _, _, _) => "SetState"
    case EventHandler(_, _, _, _) => "EventHandler"
    case RenderStmt(_, _, _, _, _) => "RenderStmt"
    case HookCall(_, _, _, _) => "HookCall"
    case DataPipeline(_, _, _, _) => "DataPipeline"
    case GroupByOp(_, _, _) => "GroupByOp"
    case AggregateOp(_, _, _, _) => "AggregateOp"
    case SortOp(_, _, _, _) => "SortOp"
    case LimitOp(_, _, _) => "LimitOp"
    case SkipOp(_, _, _) => "SkipOp"
    case JoinOp(_, _, _, _, _, _) => "JoinOp"
    case FileOperation(_, _, _, _, _) => "FileOperation"
    case DirOperation(_, _, _, _, _) => "DirOperation"
    case PathOperation(_, _, _, _) => "PathOperation"
    case FFICall(_, _, _, _, _) => "FFICall"
    case IndexAccess(_, _, _, _) => "IndexAccess"
    case IfElseBlock(_, _, _, _, _) => "IfElseBlock"
    case ClassDef(_, _, _, _, _, _, _) => "ClassDef"
    case Decorator(_, _, _, _) => "Decorator"
    case PythonExpr(_, _, _) => "PythonExpr"
    case PythonStmt(_, _, _) => "PythonStmt"
    case InOp(_, _, _, _) => "InOp"
  }

  // ----- ast_to_string -----

  /** `"  " * indent`. */
  function Spaces(indent: nat): string {
    Repeat("  ", indent)
  }

  /** Python's `str(value)` for a number, by its lexeme for a float. */
  function NumberText(v: Number): string {
    match v
    case IntNum(n) => IntToString(n)
    case FloatNum(lexeme) => lexeme
  }

  /** Python's `str` of a list of names: `['int', 'str']`. */
  function NameListRepr(types: seq<Type>): string {
    "[" + Join(seq(|types|, i requires 0 <= i < |types| => "'" + types[i].name + "'"), ", ") + "]"
  }

  /** The kinds `ast_to_string` has a case of its own for. */
  predicate HasOwnCase(node: Node) {
    node.Program? || node.Metadata? || node.FunctionDef? || node.Operation? ||
    node.NumberLiteral? || node.StringLiteral? || node.Identifier? || node.VariableRef? ||
    node.ReturnStmt?
  }

  /** The text of the node's own line, without indentation. */
  function Header(node: Node): string {
    if node.Program? then "Program:"
    else if node.Metadata? then
      "Metadata(name=" + node.name + ", type=" + node.programType + ", target=" + node.targetLanguage + ")"
    else if node.FunctionDef? then
      "FunctionDef(name=" + node.name + ", inputs=" + NameListRepr(node.inputTypes)
      + ", output=" + node.outputType.name + "):"
    else if node.Operation? then "Operation(" + node.operator + "):"
    else if node.NumberLiteral? then "Number(" + NumberText(node.number) + ")"
    else if node.StringLiteral? then "String('" + node.text + "')"
    else if node.Identifier? then "Identifier(" + node.name + ")"
    else if node.VariableRef? then "VarRef($" + node.name + ")"
    else if node.ReturnStmt? then "Return:"
    else ClassName(node)
  }

  /** `ast_to_string(node, indent)`. */
  function AstToString(node: Node, indent: nat): string {
    var line := Spaces(indent) + Header(node) + "\n";
    if node.Program? then
      line + OptionToString(node.metadata, indent + 1) + OptionToString(node.dependencies, indent + 1)
      + SeqToString(node.statements, indent + 1) + OptionToString(node.exportDecl, indent + 1)
    else if node.FunctionDef? then line + SeqToString(node.body, indent + 1)
    else if node.Operation? then line + SeqToString(node.operands, indent + 1)
    else if node.ReturnStmt? then line + AstToString(node.value, indent + 1)
    else line
  }

  /** The rendering of an optional child: nothing when it is absent. */
  function OptionToString(child: Option<Node>, indent: nat): string {
    match child
    case None => ""
    case Some(c) => AstToString(c, indent)
  }

  /** The renderings of a list of children, in order. */
  function SeqToString(children: seq<Node>, indent: nat): string {
    if children == [] then "" else AstToString(children[0], indent) + SeqToString(children[1..], indent)
  }

  // ----- The outline: the same tree as lines with relative indentation -----

  /** Two more spaces in front of every line. */
  function Nest(lines: seq<string>): (r: seq<string>)
    ensures |r| == |lines|
  {
    seq(|lines|, i requires 0 <= i < |lines| => "  " + lines[i])
  }

  /** `Spaces(indent)` in front of every line. */
  function IndentLines(lines: seq<string>, indent: nat): (r: seq<string>)
    ensures |r| == |lines|
  {
    seq(|lines|, i requires 0 <= i < |lines| => Spaces(indent) + lines[i])
  }

  /** Every line followed by a newline. */
  function Terminate(lines: seq<string>): string {
    if lines == [] then "" else lines[0] + "\n" + Terminate(lines[1..])
  }

  /** A node as an outline: its own line, then each printed child's outline nested one
      level, in the order the printer visits them. */
  function Outline(node: Node): (r: seq<string>)
    ensures |r| >= 1 && r[0] == Header(node)
    decreases node, 1
  {
    [Header(node)] + Nest(ChildOutlines(node))
  }

  /** The outlines of the children the printer visits, in its order. */
  function ChildOutlines(node: Node): seq<string>
    decreases node, 0
  {
    if node.Program? then
      OptionOutline(node.metadata) + OptionOutline(node.dependencies) + Outlines(node.statements)
      + OptionOutline(node.exportDecl)
    else if node.FunctionDef? then Outlines(node.body)
    else if node.Operation? then Outlines(node.operands)
    else if node.ReturnStmt? then Outline(node.value)
    else []
  }

  function OptionOutline(child: Option<Node>): seq<string> {
    match child
    case None => []
    case Some(c) => Outline(c)
  }

  function Outlines(children: seq<Node>): seq<string> {
    if children == [] then [] else Outline(children[0]) + Outlines(children[1..])
  }

  lemma {:induction false} SpacesSucc(indent: nat)
    ensures Spaces(indent + 1) == Spaces(indent) + "  "
  {
    if indent > 0 {
      SpacesSucc(indent - 1);
      assert Spaces(indent + 1) == "  " + Spaces(indent);
      assert Spaces(indent) == "  " + Spaces(indent - 1);
    }
  }

  lemma {:induction false} TerminateConcat(a: seq<string>, b: seq<string>)
    ensures Terminate(a + b) == Terminate(a) + Terminate(b)
  {
    if a == [] {
      assert a + b == b;
    } else {
      assert (a + b)[1..] == a[1..] + b;
      TerminateConcat(a[1..], b);
      calc {
        Terminate(a + b);
        a[0] + "\n" + Terminate(a[1..] + b);
        a[0] + "\n" + (Terminate(a[1..]) + Terminate(b));
        (a[0] + "\n" + Terminate(a[1..])) + Terminate(b);
      }
    }
  }

  lemma IndentConcat(a: seq<string>, b: seq<string>, indent: nat)
    ensures IndentLines(a + b, indent) == IndentLines(a, indent) + IndentLines(b, indent)
  {
  }

  lemma IndentNest(lines: seq<string>, indent: nat)
    ensures IndentLines(Nest(lines), indent) == IndentLines(lines, indent + 1)
  {
    SpacesSucc(indent);
    forall i | 0 <= i < |lines|
      ensures IndentLines(Nest(lines), indent)[i] == IndentLines(lines, indent + 1)[i]
    {
      assert Spaces(indent) + ("  " + lines[i]) == (Spaces(indent) + "  ") + lines[i];
    }
  }

  /** Splitting off the node's own line. */
  lemma RenderHead(node: Node, children: seq<string>, indent: nat)
    ensures Terminate(IndentLines([Header(node)] + Nest(children), indent))
         == Spaces(indent) + Header(node) + "\n" + Terminate(IndentLines(children, indent + 1))
  {
    IndentConcat([Header(node)], Nest(children), indent);
    IndentNest(children, indent);
    var rest := IndentLines(children, indent + 1);
    assert IndentLines([Header(node)] + Nest(children), indent) == [Spaces(indent) + Header(node)] + rest;
    assert ([Spaces(indent) + Header(node)] + rest)[1..] == rest;
  }

  /** `ast_to_string` indents two spaces per level and prints every child one level deeper:
      its text is the node's outline with `indent` levels of indentation, one line each. */
  lemma {:induction false} RenderIsIndentedOutline(node: Node, indent: nat)
    ensures AstToString(node, indent) == Terminate(IndentLines(Outline(node), indent))
    decreases node, 2
  {
    if node.Program? {
      ProgramRender(node, indent);
    } else if node.FunctionDef? || node.Operation? {
      ListRender(node, indent);
    } else if node.ReturnStmt? {
      ReturnRender(node, indent);
    } else {
      assert Outline(node) == [Header(node)] + Nest([]);
      RenderHead(node, [], indent);
    }
  }

  lemma {:induction false} ListRender(node: Node, indent: nat)
    requires node.FunctionDef? || node.Operation?
    ensures AstToString(node, indent) == Terminate(IndentLines(Outline(node), indent))
    decreases node, 1
  {
    var kids := if node.FunctionDef? then node.body else node.operands;
    assert AstToString(node, indent) == Spaces(indent) + Header(node) + "\n" + SeqToString(kids, indent + 1);
    assert Outline(node) == [Header(node)] + Nest(Outlines(kids));
    RenderHead(node, Outlines(kids), indent);
    SeqRender(kids, indent + 1);
  }

  lemma {:induction false} ReturnRender(node: Node, indent: nat)
    requires node.ReturnStmt?
    ensures AstToString(node, indent) == Terminate(IndentLines(Outline(node), indent))
    decreases node, 1
  {
    assert Outline(node) == [Header(node)] + Nest(Outline(node.value));
    RenderHead(node, Outline(node.value), indent);
    RenderIsIndentedOutline(node.value, indent + 1);
  }

  lemma {:induction false} ProgramRender(node: Node, indent: nat)
    requires node.Program?
    ensures AstToString(node, indent) == Terminate(IndentLines(Outline(node), indent))
    decreases node, 1
  {
    var a, b, c, d := OptionOutline(node.metadata), OptionOutline(node.dependencies),
                      Outlines(node.statements), OptionOutline(node.exportDecl);
    var k := indent + 1;
    var head := Spaces(indent) + Header(node) + "\n";
    var ra, rb := OptionToString(node.metadata, k), OptionToString(node.dependencies, k);
    var rc, rd := SeqToString(node.statements, k), OptionToString(node.exportDecl, k);
    assert AstToString(node, indent) == head + ra + rb + rc + rd;
    assert Outline(node) == [Header(node)] + Nest(a + b + c + d);
    RenderHead(node, a + b + c + d, indent);
    OptionRender(node.metadata, k);
    OptionRender(node.dependencies, k);
    SeqRender(node.statements, k);
    OptionRender(node.exportDecl, k);
    RenderedConcat(a + b + c, d, k);
    RenderedConcat(a + b, c, k);
    RenderedConcat(a, b, k);
    assert Terminate(IndentLines(a + b + c + d, k)) == ra + rb + rc + rd;
    ConcatAssoc(head, ra, rb, rc, rd);
  }

  lemma ConcatAssoc(h: string, a: string, b: string, c: string, d: string)
    ensures h + a + b + c + d == h + (a + b + c + d)
  {
  }

  lemma RenderedConcat(x: seq<string>, y: seq<string>, indent: nat)
    ensures Terminate(IndentLines(x + y, indent))
         == Terminate(IndentLines(x, indent)) + Terminate(IndentLines(y, indent))
  {
    IndentConcat(x, y, indent);
    TerminateConcat(IndentLines(x, indent), IndentLines(y, indent));
  }

  lemma {:induction false} OptionRender(child: Option<Node>, indent: nat)
    ensures OptionToString(child, indent) == Terminate(IndentLines(OptionOutline(child), indent))
    decreases child, 0
  {
    match child
    case None =>
    case Some(c) => RenderIsIndentedOutline(c, indent);
  }

  lemma {:induction false} SeqRender(children: seq<Node>, indent: nat)
    ensures SeqToString(children, indent) == Terminate(IndentLines(Outlines(children), indent))
    decreases children, 0
  {
    if children != [] {
      RenderIsIndentedOutline(children[0], indent);
      SeqRender(children[1..], indent);
      IndentConcat(Outline(children[0]), Outlines(children[1..]), indent);
      TerminateConcat(IndentLines(Outline(children[0]), indent),
                      IndentLines(Outlines(children[1..]), indent));
    }
  }

  /** Every printed line starts with the node's indentation, and every line after the node's
      own line (its children's) with one level more. */
  lemma LinesIndented(node: Node, indent: nat)
    ensures var lines := IndentLines(Outline(node), indent);
            lines[0] == Spaces(indent) + Header(node) &&
            forall i :: 1 <= i < |lines| ==> StartsWith(lines[i], Spaces(indent + 1))
  {
    var lines := IndentLines(Outline(node), indent);
    var kids := ChildOutlines(node);
    SpacesSucc(indent);
    forall i | 1 <= i < |lines|
      ensures StartsWith(lines[i], Spaces(indent + 1))
    {
      assert Outline(node)[i] == "  " + kids[i - 1];
      assert lines[i] == Spaces(indent + 1) + kids[i - 1];
    }
  }

  lemma {:induction false} SeqToStringSnoc(children: seq<Node>, last: Node, indent: nat)
    ensures SeqToString(children + [last], indent) == SeqToString(children, indent) + AstToString(last, indent)
  {
    if children != [] {
      assert (children + [last])[1..] == children[1..] + [last];
      SeqToStringSnoc(children[1..], last, indent);
    } else {
      assert [] + [last] == [last];
    }
  }

  /** A Program prints its statements in order, after the metadata and the dependencies and
      before the export: one more statement is printed right before the export. */
  lemma ProgramStatementOrder(line: int, column: int, metadata: Option<Node>, dependencies: Option<Node>,
                              statements: seq<Node>, s: Node, exportDecl: Option<Node>, indent: nat)
    ensures AstToString(Program(line, column, metadata, dependencies, statements + [s], exportDecl), indent)
         == AstToString(Program(line, column, metadata, dependencies, statements, None), indent)
            + AstToString(s, indent + 1) + OptionToString(exportDecl, indent + 1)
  {
    var k := indent + 1;
    var p1 := Program(line, column, metadata, dependencies, statements + [s], exportDecl);
    var p0 := Program(line, column, metadata, dependencies, statements, None);
    var head := Spaces(indent) + Header(p1) + "\n";
    var a, b := OptionToString(metadata, k), OptionToString(dependencies, k);
    assert AstToString(p1, indent) == head + a + b + SeqToString(statements + [s], k) + OptionToString(exportDecl, k);
    assert AstToString(p0, indent) == head + a + b + SeqToString(statements, k) + "";
    SeqToStringSnoc(statements, s, k);
    SnocAssoc(head + a + b, SeqToString(statements, k), AstToString(s, k), OptionToString(exportDecl, k));
  }

  lemma SnocAssoc(h: string, x: string, y: string, z: string)
    ensures h + (x + y) + z == h + x + "" + y + z
  {
  }

  /** An Operation prints its operator, then its operands in order: one more operand is
      printed after all the others. */
  lemma OperationOperandOrder(line: int, column: int, op: string, operands: seq<Node>, x: Node,
                              indent: nat)
    ensures AstToString(Operation(line, column, op, operands + [x]), indent)
         == AstToString(Operation(line, column, op, operands), indent) + AstToString(x, indent + 1)
  {
    SeqToStringSnoc(operands, x, indent + 1);
  }

  /** A return statement's value is printed one level deeper than the `Return:` line. */
  lemma ReturnValueDeeper(line: int, column: int, value: Node, indent: nat)
    ensures var lines := IndentLines(Outline(ReturnStmt(line, column, value)), indent);
            lines == [Spaces(indent) + "Return:"] + IndentLines(Outline(value), indent + 1)
  {
    var r := ReturnStmt(line, column, value);
    IndentConcat([Header(r)], Nest(Outline(value)), indent);
    IndentNest(Outline(value), indent);
  }

  /** A node kind without a case of its own prints as its class name on one line. */
  lemma FallbackSingleLine(node: Node, indent: nat)
    requires !HasOwnCase(node)
    ensures AstToString(node, indent) == Spaces(indent) + ClassName(node) + "\n"
  {
  }
}

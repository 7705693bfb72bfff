/** The pure helpers of the current VL parser (src/vl/parser.py): token lookup, the hint
    table of `expect`, how `parse_statement` routes on the current and next token, number
    literal values, the left fold that builds binary operations, the list-comprehension
    scan, the Python passthrough capture and `_expr_to_string`.

    The class in Parser.dfy moves a cursor through the tokens; its loops are proved to
    compute exactly what these functions say. */
module ParserSupport {
  import opened Wrappers
  import opened Strings
  import opened Tokens
  import opened Ast
  import Errors

  // ---------------------------------------------------------------------------
  // Token lookup

  /** `tokens[p] if p < len(tokens) else None`: both `peek` and the token after `advance`. */
  function TokenAt(tokens: seq<Token>, p: nat): (t: Option<Token>)
    ensures t.Some? <==> p < |tokens|
    ensures t.Some? ==> t.value == tokens[p]
  {
    if p < |tokens| then Some(tokens[p]) else None
  }

  /** How `expect` names the token it found: its kind, or 'EOF' past the end. */
  function GotName(t: Option<Token>): string {
    if t.Some? then KindName(t.value.kind) else "EOF"
  }

  /** `Parser.PIPELINE_OPS`. */
  const PipelineOps: set<TokenType> := {FILTER, MAP, PARSE}

  /** A `|` at offset `p` followed by `filter`, `map` or `parse`: the start of a pipeline chain. */
  predicate PipelineStartsAt(tokens: seq<Token>, p: nat) {
    p + 1 < |tokens| && tokens[p].kind == PIPE && tokens[p + 1].kind in PipelineOps
  }

  /** The assignment operators that make an identifier statement an assignment. */
  const AssignOps: set<TokenType> := {EQUALS, PLUS_EQUALS, MINUS_EQUALS, TIMES_EQUALS, DIV_EQUALS}

  /** `op_map` of the compound assignments. */
  function CompoundOperator(k: TokenType): string
    requires k in AssignOps - {EQUALS}
  {
    if k == PLUS_EQUALS then "+" else if k == MINUS_EQUALS then "-" else if k == TIMES_EQUALS then "*" else "/"
  }

  // ---------------------------------------------------------------------------
  // The hints attached to `expect` errors

  /** The kind names for which a missing identifier earns the reserved-keyword hint. */
  const ReservedGot: set<string> := {"INPUT", "OUTPUT", "DATA", "FILTER", "MAP"}

  /** `hint_map.get(expected, [])`. */
  function BaseHints(expected: TokenType): seq<string> {
    if expected == PIPE then
      ["VL uses | to separate statements and clauses", "Example: fn:name|i:int|o:int|ret:value"]
    else if expected == COLON then
      ["VL uses : after keywords", "Example: fn:name, v:var, ret:value"]
    else if expected == IDENTIFIER then ["Expected a variable or function name"]
    else if expected == RPAREN then ["Check for matching parentheses"]
    else if expected == RBRACE then ["Check for matching braces"]
    else if expected == RBRACKET then ["Check for matching brackets"]
    else []
  }

  /** `_get_expect_hints`. */
  function ExpectHints(expected: TokenType, got: string): seq<string> {
    var base := BaseHints(expected);
    if expected == IDENTIFIER && got in ReservedGot then
      base + ["'" + got + "' is a reserved keyword, try a different name"]
    else base
  }

  /** `error` with the parser at token `cur`: a `ParseError` located there, or at 1:1 with no
      source line past the end. */
  function ErrorAt(source: string, cur: Option<Token>, message: string, hints: seq<string>): Errors.Failure {
    if cur.Some? then
      Errors.Raised(Errors.VLError(Errors.ParseError, message,
                                   Some(Errors.At(cur.value.line, cur.value.column)),
                                   Errors.FormatErrorContext(source, cur.value.line, cur.value.column),
                                   hints))
    else
      Errors.Raised(Errors.VLError(Errors.ParseError, message, Some(Errors.At(1, 1)), "", hints))
  }

  /** The error `expect(k)` raises at token `cur`: the expected and the found kind, with hints. */
  function ExpectFailure(source: string, cur: Option<Token>, k: TokenType): Errors.Failure {
    var got := GotName(cur);
    ErrorAt(source, cur, "Expected " + KindName(k) + ", got " + got, ExpectHints(k, got))
  }

  /** The table's shape: two hints for `|` and `:`, one for an identifier and each closing
      bracket, none for anything else; a reserved keyword found where an identifier was
      expected adds one more hint, which names that keyword, and nothing else does. */
  lemma ExpectHintCounts(expected: TokenType, got: string)
    ensures expected in {PIPE, COLON} ==> |ExpectHints(expected, got)| == 2
    ensures expected in {RPAREN, RBRACE, RBRACKET} ==> |ExpectHints(expected, got)| == 1
    ensures expected == IDENTIFIER ==>
      |ExpectHints(expected, got)| == (if got in ReservedGot then 2 else 1)
    ensures expected !in {PIPE, COLON, IDENTIFIER, RPAREN, RBRACE, RBRACKET} ==>
      ExpectHints(expected, got) == []
    ensures expected == IDENTIFIER && got in ReservedGot ==>
      OccursAt(ExpectHints(expected, got)[1], got, 1)
  {
    if expected == IDENTIFIER && got in ReservedGot {
      var h := ExpectHints(expected, got)[1];
      assert h == "'" + got + "' is a reserved keyword, try a different name";
      assert h[1..1 + |got|] == got;
    }
  }

  // ---------------------------------------------------------------------------
  // How `parse_statement` chooses a parser

  datatype Route =
    | NoStatement        // no token, or `else` (left for the enclosing `if`)
    | DecoratedRoute | ClassRoute | FunctionRoute | VariableRoute
    | AssignRoute        // `name=`, `name+=`, ...
    | TargetFirstRoute   // `name[` or `name.`: parse the target, then decide
    | CallRoute          // `name(`
    | BadIdentifierRoute // an identifier followed by anything else
    | ReturnRoute | IfRoute | ForRoute | WhileRoute | ApiRoute | UiRoute | DataRoute
    | FileRoute | PythonRoute
    | UnexpectedRoute    // any other token

  /** The branch of `parse_statement` taken for the current token `cur` and `peek(1)`. */
  function RouteOf(cur: Option<Token>, next: Option<Token>): Route {
    if cur.None? then NoStatement
    else
      var k := cur.value.kind;
      if k == ELSE then NoStatement
      else if k == AT then DecoratedRoute
      else if k == CLASS then ClassRoute
      else if k == FN then FunctionRoute
      else if k == VAR then VariableRoute
      else if k == IDENTIFIER || k == SELF then
        if next.Some? && next.value.kind in AssignOps then AssignRoute
        else if next.Some? && next.value.kind in {LBRACKET, DOT} then TargetFirstRoute
        else if next.Some? && next.value.kind == LPAREN then CallRoute
        else BadIdentifierRoute
      else if k == RET then ReturnRoute
      else if k == IF then IfRoute
      else if k == FOR then ForRoute
      else if k == WHILE then WhileRoute
      else if k == API || k == ASYNC then ApiRoute
      else if k == UI then UiRoute
      else if k == DATA then DataRoute
      else if k == FILE then FileRoute
      else if k == PY then PythonRoute
      else UnexpectedRoute
  }

  /** An identifier (or `self`) statement is classified by the token after it alone: an
      assignment operator, then `[` or `.`, then `(`; anything else, including the end of
      the input, is an error. */
  lemma IdentifierRouting(cur: Token, next: Option<Token>)
    requires cur.kind in {IDENTIFIER, SELF}
    ensures RouteOf(Some(cur), next) in {AssignRoute, TargetFirstRoute, CallRoute, BadIdentifierRoute}
    ensures RouteOf(Some(cur), next) == AssignRoute <==> next.Some? && next.value.kind in AssignOps
    ensures RouteOf(Some(cur), next) == TargetFirstRoute <==> next.Some? && next.value.kind in {LBRACKET, DOT}
    ensures RouteOf(Some(cur), next) == CallRoute <==> next.Some? && next.value.kind == LPAREN
    ensures next.None? ==> RouteOf(Some(cur), next) == BadIdentifierRoute
  {
  }

  /** Only a missing token or `else` yields no statement. */
  lemma NoStatementOnlyAtElse(cur: Option<Token>, next: Option<Token>)
    ensures RouteOf(cur, next) == NoStatement <==> cur.None? || cur.value.kind == ELSE
  {
  }

  /** Every route but the identifier ones ignores the next token. */
  lemma KeywordRouteIgnoresNext(cur: Token, next: Option<Token>, other: Option<Token>)
    requires cur.kind !in {IDENTIFIER, SELF}
    ensures RouteOf(Some(cur), next) == RouteOf(Some(cur), other)
  {
  }

  // ---------------------------------------------------------------------------
  // Number literals

  /** A lexeme Python's `float` accepts among those the lexer produces: digits around one '.',
      with at least one digit. */
  predicate FloatLexeme(s: string) {
    exists d :: 0 <= d < |s| && s[d] == '.' && AllDigits(s[..d]) && AllDigits(s[d + 1..]) && |s| >= 2
  }

  /** `float(v) if '.' in v else int(v)`, by lexeme; `None` where Python raises ValueError. */
  function NumberValue(lexeme: string): (r: Option<Number>)
    ensures r.Some? && r.value.FloatNum? ==> r.value.lexeme == lexeme && '.' in lexeme
    ensures r.Some? && r.value.IntNum? ==> '.' !in lexeme && AllDigits(lexeme)
  {
    if '.' in lexeme then
      if FloatLexeme(lexeme) then Some(FloatNum(lexeme)) else None
    else if lexeme != [] && AllDigits(lexeme) then Some(IntNum(DecimalValue(lexeme)))
    else None
  }

  /** The lexeme `str(n)` of a natural number reads back as that number. */
  lemma NumberValueOfDecimal(n: nat)
    ensures NumberValue(NatToString(n)) == Some(IntNum(n))
  {
    DecimalRoundTrip(n);
  }

  // ---------------------------------------------------------------------------
  // Binary operator levels

  /** One round of a binary level's loop: the operator token and the right operand. */
  datatype BinaryStep = BinaryStep(op: Token, right: Node)

  /** What a level's loop has built after `steps`: `Operation(op, [left, right])` nested to
      the left, each located at its operator token. */
  function FoldLeft(left: Node, steps: seq<BinaryStep>): Node
    decreases |steps|
  {
    if steps == [] then left
    else
      var s := steps[|steps| - 1];
      Operation(s.op.line, s.op.column, s.op.value, [FoldLeft(left, steps[..|steps| - 1]), s.right])
  }

  /** One more round of a level's loop: the tree built so far becomes the left operand. */
  lemma FoldLeftSnoc(left: Node, steps: seq<BinaryStep>, op: Token, right: Node, kinds: set<TokenType>)
    requires StepsAt(steps, kinds) && op.kind in kinds
    ensures FoldLeft(left, steps + [BinaryStep(op, right)]) ==
      Operation(op.line, op.column, op.value, [FoldLeft(left, steps), right])
    ensures StepsAt(steps + [BinaryStep(op, right)], kinds)
  {
    assert (steps + [BinaryStep(op, right)])[..|steps|] == steps;
  }

  /** Follows the first operand `k` times. */
  function Descend(n: Node, k: nat): Node {
    if k == 0 || !n.Operation? || |n.operands| == 0 then n else Descend(n.operands[0], k - 1)
  }

  /** Left associativity: going down the left spine `|steps| - i` times finds what the loop
      had built after `i` rounds, so after all of them the first operand reached is `left`. */
  lemma {:induction false} FoldLeftSpine(left: Node, steps: seq<BinaryStep>, i: nat)
    requires i <= |steps|
    ensures Descend(FoldLeft(left, steps), |steps| - i) == FoldLeft(left, steps[..i])
    decreases |steps|
  {
    if i < |steps| {
      var prefix := steps[..|steps| - 1];
      FoldLeftSpine(left, prefix, i);
      assert prefix[..i] == steps[..i];
    } else {
      assert steps[..i] == steps;
    }
  }

  /** The `i`-th round's operator and right operand sit at depth `|steps| - 1 - i` of the spine. */
  lemma FoldLeftRound(left: Node, steps: seq<BinaryStep>, i: nat)
    requires i < |steps|
    ensures var n := Descend(FoldLeft(left, steps), |steps| - 1 - i);
      n.Operation? && n.operator == steps[i].op.value && |n.operands| == 2 &&
      n.operands[0] == FoldLeft(left, steps[..i]) && n.operands[1] == steps[i].right &&
      n.line == steps[i].op.line && n.column == steps[i].op.column
  {
    FoldLeftSpine(left, steps, i + 1);
    assert steps[..i + 1][..i] == steps[..i];
  }

  /** `a - b + c` is `(a - b) + c`. */
  lemma LeftAssociative(a: Node, s1: BinaryStep, s2: BinaryStep)
    ensures FoldLeft(a, [s1, s2])
         == Operation(s2.op.line, s2.op.column, s2.op.value,
                      [Operation(s1.op.line, s1.op.column, s1.op.value, [a, s1.right]), s2.right])
  {
    assert [s1, s2][..1] == [s1];
    assert [s1][..0] == [];
    assert FoldLeft(a, [s1]) == Operation(s1.op.line, s1.op.column, s1.op.value, [a, s1.right]);
  }

  const LogicalOps: set<TokenType> := {AND, OR}
  const ComparisonOps: set<TokenType> := {EQUAL, NOT_EQUAL, LESS_THAN, GREATER_THAN, LESS_EQUAL, GREATER_EQUAL}
  const TermOps: set<TokenType> := {PLUS, MINUS}
  const FactorOps: set<TokenType> := {MULTIPLY, DIVIDE, FLOOR_DIVIDE, MODULO}

  /** Every round of `steps` used an operator of the given level. */
  predicate StepsAt(steps: seq<BinaryStep>, kinds: set<TokenType>) {
    forall i :: 0 <= i < |steps| ==> steps[i].op.kind in kinds
  }

  /** The four levels are disjoint, so each operator token belongs to exactly one. */
  lemma LevelsDisjoint()
    ensures LogicalOps * ComparisonOps == {} && LogicalOps * TermOps == {} && LogicalOps * FactorOps == {}
    ensures ComparisonOps * TermOps == {} && ComparisonOps * FactorOps == {} && TermOps * FactorOps == {}
  {
  }

  /** `else_body if else_body else None`: an empty `else` body is recorded as none. */
  function OptionalBody(body: seq<Node>): (o: Option<seq<Node>>)
    ensures o.Some? <==> body != []
    ensures o.Some? ==> o.value == body
  {
    if body == [] then None else Some(body)
  }

  // ---------------------------------------------------------------------------
  // List comprehensions

  /** The look-ahead of `parse_array_literal`: from offset `p` at bracket depth `depth`, is
      there a `for` at depth 1 before the matching `]`? */
  function ScanForComprehension(tokens: seq<Token>, p: nat, depth: nat): bool
    decreases |tokens| - p
  {
    if p >= |tokens| || depth == 0 then false
    else
      var k := tokens[p].kind;
      if k == LBRACKET then ScanForComprehension(tokens, p + 1, depth + 1)
      else if k == RBRACKET then ScanForComprehension(tokens, p + 1, depth - 1)
      else if k == FOR && depth == 1 then true
      else ScanForComprehension(tokens, p + 1, depth)
  }

  predicate Plain(t: Token) {
    t.kind !in {LBRACKET, RBRACKET, FOR}
  }

  /** In a bracket without nested brackets, the scan finds a `for` before the closing `]`
      and not after it. */
  lemma {:induction false} ScanFlat(tokens: seq<Token>, p: nat, j: nat)
    requires p <= j < |tokens|
    requires forall i :: p <= i < j ==> Plain(tokens[i])
    ensures tokens[j].kind == FOR ==> ScanForComprehension(tokens, p, 1)
    ensures tokens[j].kind == RBRACKET ==> !ScanForComprehension(tokens, p, 1)
    decreases j - p
  {
    if p < j {
      ScanFlat(tokens, p + 1, j);
    } else if tokens[j].kind == RBRACKET {
      assert !ScanForComprehension(tokens, p + 1, 0);
    }
  }

  /** A `for` inside a nested bracket does not make the outer one a comprehension:
      `[[x for]]` scans as a plain array. */
  lemma NestedForIgnored(tokens: seq<Token>, p: nat)
    requires p + 4 <= |tokens|
    requires tokens[p].kind == LBRACKET && Plain(tokens[p + 1]) && tokens[p + 2].kind == FOR
    requires tokens[p + 3].kind == RBRACKET && tokens[p + 4 - 1].kind == RBRACKET
    requires p + 4 < |tokens| ==> tokens[p + 4].kind == RBRACKET
    ensures !ScanForComprehension(tokens, p, 1)
  {
    assert ScanForComprehension(tokens, p, 1) == ScanForComprehension(tokens, p + 1, 2);
    assert ScanForComprehension(tokens, p + 1, 2) == ScanForComprehension(tokens, p + 2, 2);
    assert ScanForComprehension(tokens, p + 2, 2) == ScanForComprehension(tokens, p + 3, 2);
    assert ScanForComprehension(tokens, p + 3, 2) == ScanForComprehension(tokens, p + 4, 1);
    if p + 4 < |tokens| {
      assert !ScanForComprehension(tokens, p + 5, 0);
    }
  }

  /** The comprehension capture: the token values from `p` up to, not including, the `]`
      that closes depth `depth`, and the offset where the capture stopped. */
  function CaptureValues(tokens: seq<Token>, p: nat, depth: nat): (r: (seq<string>, nat))
    ensures p <= r.1 && (p <= |tokens| ==> r.1 <= |tokens|)
    ensures |r.0| == r.1 - p
    decreases |tokens| - p
  {
    if p >= |tokens| || depth == 0 then ([], p)
    else
      var k := tokens[p].kind;
      if k == RBRACKET && depth == 1 then ([], p)
      else
        var d := if k == LBRACKET then depth + 1 else if k == RBRACKET then depth - 1 else depth;
        var rest := CaptureValues(tokens, p + 1, d);
        ([tokens[p].value] + rest.0, rest.1)
  }

  /** One round of the comprehension capture: a token other than the closing `]` adds its
      value, and the capture goes on at the depth that token leaves. */
  lemma CaptureStep(tokens: seq<Token>, p: nat, depth: nat, next: nat)
    requires p < |tokens| && depth > 0 && !(tokens[p].kind == RBRACKET && depth == 1)
    requires next == if tokens[p].kind == LBRACKET then depth + 1 else if tokens[p].kind == RBRACKET then depth - 1 else depth
    ensures CaptureValues(tokens, p, depth) ==
      ([tokens[p].value] + CaptureValues(tokens, p + 1, next).0, CaptureValues(tokens, p + 1, next).1)
  {
  }

  /** The loop invariant of the comprehension capture carried over one round. */
  lemma CaptureAdvance(tokens: seq<Token>, start: nat, values: seq<string>, p: nat, depth: nat, next: nat)
    requires p < |tokens| && depth > 0 && !(tokens[p].kind == RBRACKET && depth == 1)
    requires next == if tokens[p].kind == LBRACKET then depth + 1 else if tokens[p].kind == RBRACKET then depth - 1 else depth
    requires CaptureValues(tokens, start, 1).0 == values + CaptureValues(tokens, p, depth).0
    ensures CaptureValues(tokens, start, 1).0 == (values + [tokens[p].value]) + CaptureValues(tokens, p + 1, next).0
    ensures CaptureValues(tokens, p, depth).1 == CaptureValues(tokens, p + 1, next).1
  {
    CaptureStep(tokens, p, depth, next);
    MovePiece(values, tokens[p].value, CaptureValues(tokens, p + 1, next).0);
  }

  /** Where the comprehension capture stops: at the end of the tokens, or at the `]` that
      closes depth 1. */
  lemma CaptureStop(tokens: seq<Token>, p: nat, depth: nat, values: seq<string>)
    requires p >= |tokens| || (tokens[p].kind == RBRACKET && depth == 1)
    ensures CaptureValues(tokens, p, depth) == ([], p) && values + CaptureValues(tokens, p, depth).0 == values
  {
  }

  /** When the capture stops before the end, it stops at a `]`, and the values are those
      of the tokens it passed over, in order. */
  lemma {:induction false} CaptureValuesAgree(tokens: seq<Token>, p: nat, depth: nat)
    requires p <= |tokens| && depth > 0
    ensures var r := CaptureValues(tokens, p, depth);
      (r.1 < |tokens| ==> tokens[r.1].kind == RBRACKET) && r.0 == Values(tokens[p..r.1])
    decreases |tokens| - p
  {
    var r := CaptureValues(tokens, p, depth);
    if p < |tokens| {
      var k := tokens[p].kind;
      if !(k == RBRACKET && depth == 1) {
        var d := if k == LBRACKET then depth + 1 else if k == RBRACKET then depth - 1 else depth;
        var rest := CaptureValues(tokens, p + 1, d);
        CaptureValuesAgree(tokens, p + 1, d);
        CaptureStep(tokens, p, depth, d);
        ValuesSlice(tokens, p, rest.1);
      } else {
        assert tokens[p..r.1] == [];
      }
    } else {
      assert tokens[p..r.1] == [];
    }
  }

  lemma ValuesSlice(ts: seq<Token>, p: nat, e: nat)
    requires p < e <= |ts|
    ensures Values(ts[p..e]) == [ts[p].value] + Values(ts[p + 1..e])
  {
    assert ts[p..e] == [ts[p]] + ts[p + 1..e];
    ValuesCons(ts[p], ts[p + 1..e]);
  }

  lemma ValuesCons(t: Token, ts: seq<Token>)
    ensures Values([t] + ts) == [t.value] + Values(ts)
  {
    assert ([t] + ts)[1..] == ts;
  }

  /** The code of a comprehension: `'[' + ' '.join(values) + ']'`. */
  function ComprehensionCode(values: seq<string>): (code: string)
    ensures |code| >= 2 && code[0] == '[' && code[|code| - 1] == ']'
  {
    "[" + Join(values, " ") + "]"
  }

  // ---------------------------------------------------------------------------
  // Python passthrough

  datatype Depths = Depths(paren: nat, bracket: nat, brace: nat)

  /** One round of `parse_python_expr`'s loop on token `t` at depths `d`: the text it adds
      and the depths after it, or `None` where the loop stops (an unmatched closing bracket,
      or a `|`, `,` or newline outside brackets). */
  function ExprPiece(t: Token, d: Depths): Option<(string, Depths)> {
    var k := t.kind;
    if k == STRING then Some(("'" + t.value + "'", d))
    else if k == LPAREN then Some(("(", d.(paren := d.paren + 1)))
    else if k == RPAREN then
      if d.paren > 0 then Some((")", d.(paren := d.paren - 1))) else None
    else if k == LBRACKET then Some(("[", d.(bracket := d.bracket + 1)))
    else if k == RBRACKET then
      if d.bracket > 0 then Some(("]", d.(bracket := d.bracket - 1))) else None
    else if k == LBRACE then Some(("{", d.(brace := d.brace + 1)))
    else if k == RBRACE then
      if d.brace > 0 then Some(("}", d.(brace := d.brace - 1))) else None
    else if d == Depths(0, 0, 0) && k in {PIPE, COMMA, NEWLINE} then None
    else Some((t.value, d))
  }

  /** `parse_python_expr`'s loop from offset `p`: the captured pieces and where it stopped. */
  function PythonExprCapture(tokens: seq<Token>, p: nat, d: Depths): (r: (seq<string>, nat))
    ensures p <= r.1 && (p <= |tokens| ==> r.1 <= |tokens|)
    decreases |tokens| - p
  {
    if p >= |tokens| || tokens[p].kind == EOF then ([], p)
    else
      var step := ExprPiece(tokens[p], d);
      if step.None? then ([], p)
      else Prepend(step.value.0, PythonExprCapture(tokens, p + 1, step.value.1))
  }

  /** Where `parse_python_expr`'s loop stops, nothing more is captured. */
  lemma ExprCaptureStop(tokens: seq<Token>, p: nat, d: Depths, parts: seq<string>)
    requires p >= |tokens| || tokens[p].kind == EOF || ExprPiece(tokens[p], d).None?
    ensures PythonExprCapture(tokens, p, d) == ([], p) && parts + PythonExprCapture(tokens, p, d).0 == parts
  {
  }

  /** One round of `parse_python_expr`'s loop that does not stop it. */
  lemma ExprCaptureStep(tokens: seq<Token>, p: nat, d: Depths)
    requires p < |tokens| && tokens[p].kind != EOF && ExprPiece(tokens[p], d).Some?
    ensures var step := ExprPiece(tokens[p], d).value;
      PythonExprCapture(tokens, p, d) == Prepend(step.0, PythonExprCapture(tokens, p + 1, step.1))
  {
  }

  function Prepend(piece: string, r: (seq<string>, nat)): (seq<string>, nat) {
    ([piece] + r.0, r.1)
  }

  /** Tokens that are neither strings, brackets nor VL delimiters are copied verbatim. */
  predicate Verbatim(t: Token) {
    t.kind !in {STRING, LPAREN, RPAREN, LBRACKET, RBRACKET, LBRACE, RBRACE, PIPE, COMMA, NEWLINE, EOF}
  }

  function Values(ts: seq<Token>): (vs: seq<string>)
    ensures |vs| == |ts| && forall i :: 0 <= i < |ts| ==> vs[i] == ts[i].value
  {
    if ts == [] then [] else [ts[0].value] + Values(ts[1..])
  }

  /** Outside brackets, the capture stops at the first `|`, `,` or newline and keeps the
      values before it. */
  lemma {:induction false} PythonExprStopsAtDelimiter(tokens: seq<Token>, p: nat, j: nat)
    requires p <= j < |tokens|
    requires forall i :: p <= i < j ==> Verbatim(tokens[i])
    requires tokens[j].kind in {PIPE, COMMA, NEWLINE}
    ensures PythonExprCapture(tokens, p, Depths(0, 0, 0)) == (Values(tokens[p..j]), j)
    decreases j - p
  {
    if p < j {
      PythonExprStopsAtDelimiter(tokens, p + 1, j);
      VerbatimPiece(tokens[p]);
      ValuesSlice(tokens, p, j);
    } else {
      DelimiterStops(tokens[p]);
      assert tokens[p..j] == [];
    }
  }

  lemma VerbatimPiece(t: Token)
    requires Verbatim(t)
    ensures ExprPiece(t, Depths(0, 0, 0)) == Some((t.value, Depths(0, 0, 0)))
  {
  }

  lemma DelimiterStops(t: Token)
    requires t.kind in {PIPE, COMMA, NEWLINE}
    ensures ExprPiece(t, Depths(0, 0, 0)).None?
  {
  }

  /** Inside any bracket a `|`, `,` or newline is kept as part of the code. */
  lemma DelimiterKeptInsideBrackets(tokens: seq<Token>, p: nat, d: Depths)
    requires p < |tokens| && tokens[p].kind in {PIPE, COMMA, NEWLINE} && d != Depths(0, 0, 0)
    ensures PythonExprCapture(tokens, p, d) == Prepend(tokens[p].value, PythonExprCapture(tokens, p + 1, d))
  {
  }

  /** The number of consecutive `@` tokens from offset `p`. */
  function AtRun(tokens: seq<Token>, p: nat): (n: nat)
    ensures p + n <= |tokens| || n == 0
    decreases |tokens| - p
  {
    if p < |tokens| && tokens[p].kind == AT then 1 + AtRun(tokens, p + 1) else 0
  }

  /** The text `parse_python_stmt` emits for one token other than `@`. */
  function StmtPiece(t: Token): string {
    if t.kind == STRING then "'" + t.value + "'"
    else if t.kind == COMMA then ", "
    else if t.kind == DOT then "."
    else if t.kind == COLON then ":"
    else t.value
  }

  /** Where `parse_python_stmt`'s loop stops, nothing more is captured. */
  lemma StmtCaptureStop(tokens: seq<Token>, p: nat, parts: seq<string>)
    requires p >= |tokens| || tokens[p].kind in {EOF, PIPE}
    ensures PythonStmtCapture(tokens, p) == ([], p) && parts + PythonStmtCapture(tokens, p).0 == parts
  {
  }

  /** `parse_python_stmt`'s loop from offset `p`: pieces up to the first `|` or EOF; a run of
      `@` tokens becomes one piece of that many '@'. */
  function PythonStmtCapture(tokens: seq<Token>, p: nat): (r: (seq<string>, nat))
    ensures p <= r.1 && (p <= |tokens| ==> r.1 <= |tokens|)
    decreases |tokens| - p
  {
    if p >= |tokens| || tokens[p].kind in {EOF, PIPE} then ([], p)
    else if tokens[p].kind == AT then
      var n := AtRun(tokens, p);
      Prepend(RepeatChar('@', n), PythonStmtCapture(tokens, p + n))
    else Prepend(StmtPiece(tokens[p]), PythonStmtCapture(tokens, p + 1))
  }

  /** One round of `parse_python_stmt`'s loop: the piece it emits and the offset after it. */
  lemma StmtCaptureStep(tokens: seq<Token>, p: nat, piece: string, next: nat)
    requires p < |tokens| && tokens[p].kind !in {EOF, PIPE}
    requires tokens[p].kind == AT ==> piece == RepeatChar('@', AtRun(tokens, p)) && next == p + AtRun(tokens, p)
    requires tokens[p].kind != AT ==> piece == StmtPiece(tokens[p]) && next == p + 1
    ensures PythonStmtCapture(tokens, p) == Prepend(piece, PythonStmtCapture(tokens, next))
  {
  }

  /** The loop invariant of `parse_python_stmt` carried over one round. */
  lemma StmtCaptureAdvance(tokens: seq<Token>, start: nat, parts: seq<string>, p: nat, piece: string, next: nat)
    requires p < |tokens| && tokens[p].kind !in {EOF, PIPE}
    requires tokens[p].kind == AT ==> piece == RepeatChar('@', AtRun(tokens, p)) && next == p + AtRun(tokens, p)
    requires tokens[p].kind != AT ==> piece == StmtPiece(tokens[p]) && next == p + 1
    requires PythonStmtCapture(tokens, start).0 == parts + PythonStmtCapture(tokens, p).0
    ensures PythonStmtCapture(tokens, start).0 == (parts + [piece]) + PythonStmtCapture(tokens, next).0
    ensures PythonStmtCapture(tokens, p).1 == PythonStmtCapture(tokens, next).1
  {
    StmtCaptureStep(tokens, p, piece, next);
    MovePiece(parts, piece, PythonStmtCapture(tokens, next).0);
  }

  lemma NothingBefore(parts: seq<string>)
    ensures [] + parts == parts
  {
  }

  lemma MovePiece(parts: seq<string>, piece: string, rest: seq<string>)
    ensures parts + ([piece] + rest) == (parts + [piece]) + rest
  {
  }

  /** `@@@` (three `@` tokens) is kept as the three-character line separator. */
  lemma AtRunSeparator(tokens: seq<Token>, p: nat)
    requires p + 4 <= |tokens|
    requires tokens[p].kind == AT && tokens[p + 1].kind == AT && tokens[p + 2].kind == AT
    requires tokens[p + 3].kind !in {AT, EOF, PIPE}
    ensures var pieces := PythonStmtCapture(tokens, p).0;
      |pieces| >= 2 && pieces[0] == "@@@" && pieces[1] == StmtPiece(tokens[p + 3])
  {
    assert AtRun(tokens, p + 3) == 0;
    assert AtRun(tokens, p + 2) == 1;
    assert AtRun(tokens, p + 1) == 2;
    assert AtRun(tokens, p) == 3;
    var rest := PythonStmtCapture(tokens, p + 3);
    assert rest == Prepend(StmtPiece(tokens[p + 3]), PythonStmtCapture(tokens, p + 4));
    assert RepeatChar('@', 3) == "@@@";
    assert PythonStmtCapture(tokens, p) == Prepend("@@@", rest);
  }

  /** The capture never contains the `|` that ends it: it stops at the first one. */
  lemma {:induction false} PythonStmtStopsAtPipe(tokens: seq<Token>, p: nat)
    requires p <= |tokens|
    ensures var r := PythonStmtCapture(tokens, p);
      (r.1 < |tokens| ==> tokens[r.1].kind in {EOF, PIPE}) &&
      forall i :: p <= i < r.1 ==> tokens[i].kind !in {EOF, PIPE}
    decreases |tokens| - p
  {
    if p < |tokens| && tokens[p].kind !in {EOF, PIPE} {
      var next := if tokens[p].kind == AT then p + AtRun(tokens, p) else p + 1;
      AtRunAllAt(tokens, p);
      assert forall i :: p <= i < next ==> tokens[i].kind !in {EOF, PIPE};
      assert PythonStmtCapture(tokens, p).1 == PythonStmtCapture(tokens, next).1;
      PythonStmtStopsAtPipe(tokens, next);
    }
  }

  lemma {:induction false} AtRunAllAt(tokens: seq<Token>, p: nat)
    ensures forall i :: p <= i < p + AtRun(tokens, p) ==> tokens[i].kind == AT
    decreases |tokens| - p
  {
    if p < |tokens| && tokens[p].kind == AT {
      AtRunAllAt(tokens, p + 1);
    }
  }

  // ---------------------------------------------------------------------------
  // Assignment targets

  /** `str(expr)` of a dataclass node is its generated repr; the model keeps only the
      class name in front of it. */
  function ReprPlaceholder(e: Node): string {
    ClassName(e) + "(...)"
  }

  /** `_expr_to_string`. */
  function ExprToString(e: Node): string {
    if e.Identifier? then e.name
    else if e.IndexAccess? then ExprToString(e.target) + "[" + ExprToString(e.index) + "]"
    else if e.MemberAccess? then ExprToString(e.target) + "." + e.property
    else ReprPlaceholder(e)
  }

  /** A chain of member and index accesses on an identifier. */
  predicate IsPath(e: Node) {
    if e.Identifier? then true
    else if e.MemberAccess? then IsPath(e.target)
    else if e.IndexAccess? then IsPath(e.target)
    else false
  }

  function RootName(e: Node): string
    requires IsPath(e)
  {
    if e.Identifier? then e.name else RootName(e.target)
  }

  /** The name of an assignment to `a.b[i]` starts with the root variable `a`, and one to
      `obj.prop` ends with `.prop`. */
  lemma {:induction false} PathNameStartsWithRoot(e: Node)
    requires IsPath(e)
    ensures StartsWith(ExprToString(e), RootName(e))
    ensures e.MemberAccess? ==> ExprToString(e) == ExprToString(e.target) + "." + e.property
  {
    if !e.Identifier? {
      PathNameStartsWithRoot(e.target);
      var t := ExprToString(e.target);
      var s := ExprToString(e);
      assert s[..|t|] == t;
      assert t[..|RootName(e)|] == RootName(e);
    }
  }

  /** `self.count = ...` is recorded under the name "self.count". */
  lemma SelfMemberName(line: int, column: int, property: string)
    ensures ExprToString(MemberAccess(line, column, Identifier(line, column, "self"), property))
         == "self." + property
  {
  }
}

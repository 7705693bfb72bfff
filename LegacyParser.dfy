/** The legacy VL parser (interpreter/parser.py): the older recursive-descent parser over
    the token list of interpreter/lexer.py, with the same cursor (`pos`, the current token)
    and `_in_pipeline` guard as the current one, but a smaller grammar: `if` is only the
    ternary form, a function has at least one input type, a function body runs to a stop
    token, loop bodies end at a newline, the end or a `|`, postfix has no indexing, the
    factor level has no `//`, arrays have no comprehensions and object keys are identifiers.

    Outcomes follow the current parser's model (Parser.dfy): raised `ParseError`s, Python
    run-time errors, loops that never end and exhausted recursion are `Failure`s, and every
    method takes `fuel` for Python's recursion limit. */
module LegacyParser {
  import opened Wrappers
  import opened Strings
  import opened Tokens
  import opened Ast
  import opened ParserSupport
  import Errors
  import Lexer
  import Current = Parser

  type Outcome<T> = Result<T, Errors.Failure>

  /** The factor level of the legacy grammar: `*`, `/` and `%`. */
  const LegacyFactorOps: set<TokenType> := {MULTIPLY, DIVIDE, MODULO}

  /** Every binary operator of the legacy grammar. */
  const LegacyBinaryOps: set<TokenType> := LogicalOps + ComparisonOps + TermOps + LegacyFactorOps

  /** The tokens at which a `for` or `while` body stops. */
  const LoopStops: set<TokenType> := {NEWLINE, EOF, PIPE}

  /** The keyword kinds `parse_primary` accepts as identifiers when their lexeme is short. */
  const ShortKeywords: set<TokenType> := {INPUT, OUTPUT, VAR}

  /** The kinds `parse_primary` has a branch for, besides the short keywords. */
  const PrimaryStarts: set<TokenType> :=
    {NUMBER, STRING, DOLLAR, AT, OP, IF, DATA, API, ASYNC, IDENTIFIER, LPAREN, LBRACKET, LBRACE}

  // ---------------------------------------------------------------------------
  // How `parse_statement` chooses a parser

  /** The branch of the legacy `parse_statement`. */
  datatype Start =
    | ToNothing        // no current token
    | ToDirectCall     // `@expr`
    | ToFunction | ToVariable
    | ToAssignment     // `name=`, `name+=`, ...
    | ToImplicitCall   // `name(` or `name.`
    | ToReturn | ToIf | ToFor | ToWhile | ToApi | ToUi | ToData | ToFile
    | ToUnexpected     // anything else, including an identifier followed by anything else

  /** The branch taken for the current token `cur` and `peek(1)`. An identifier that is not
      an assignment or a call falls through the keyword tests to the final error. */
  function StartOf(cur: Option<Token>, next: Option<Token>): Start {
    if cur.None? then ToNothing
    else
      var k := cur.value.kind;
      if k == AT then ToDirectCall
      else if k == FN then ToFunction
      else if k == VAR then ToVariable
      else if k == IDENTIFIER && next.Some? && next.value.kind in AssignOps then ToAssignment
      else if k == IDENTIFIER && next.Some? && next.value.kind in {LPAREN, DOT} then ToImplicitCall
      else if k == RET then ToReturn
      else if k == IF then ToIf
      else if k == FOR then ToFor
      else if k == WHILE then ToWhile
      else if k == API || k == ASYNC then ToApi
      else if k == UI then ToUi
      else if k == DATA then ToData
      else if k == FILE then ToFile
      else ToUnexpected
  }

  /** Only the end of the tokens yields no statement; every token either starts one or is
      an error. */
  lemma NothingOnlyAtEnd(cur: Option<Token>, next: Option<Token>)
    ensures StartOf(cur, next) == ToNothing <==> cur.None?
  {
  }

  /** An identifier starts a statement only when an assignment operator, `(` or `.` follows;
      otherwise it is reported as an unexpected IDENTIFIER. */
  lemma IdentifierFallsThrough(cur: Token, next: Option<Token>)
    requires cur.kind == IDENTIFIER
    ensures StartOf(Some(cur), next) in {ToAssignment, ToImplicitCall, ToUnexpected}
    ensures StartOf(Some(cur), next) == ToUnexpected <==>
      next.None? || next.value.kind !in AssignOps + {LPAREN, DOT}
  {
  }

  /** The current parser's route for the legacy branch, where the two grammars share it. */
  function CurrentRoute(s: Start): Route {
    match s
    case ToNothing => NoStatement
    case ToDirectCall => DecoratedRoute
    case ToFunction => FunctionRoute
    case ToVariable => VariableRoute
    case ToAssignment => AssignRoute
    case ToImplicitCall => CallRoute
    case ToReturn => ReturnRoute
    case ToIf => IfRoute
    case ToFor => ForRoute
    case ToWhile => WhileRoute
    case ToApi => ApiRoute
    case ToUi => UiRoute
    case ToData => DataRoute
    case ToFile => FileRoute
    case ToUnexpected => UnexpectedRoute
  }

  /** Away from the tokens the current grammar added (`else`, `class`, `self`, `py`), `@`
      and identifiers, both parsers route a token alike; an identifier routes alike when
      an assignment operator or `(` follows it. */
  lemma RoutesAgreeWithCurrent(cur: Token, next: Option<Token>)
    requires cur.kind !in {AT, ELSE, CLASS, SELF, PY}
    requires cur.kind == IDENTIFIER ==> next.Some? && next.value.kind in AssignOps + {LPAREN}
    ensures RouteOf(Some(cur), next) == CurrentRoute(StartOf(Some(cur), next))
  {
  }

  /** Where the two grammars part: `else` is an error here but ends a block in the current
      parser; `name[` and `name` followed by anything but `=`-like, `(` or `.` are errors
      here; `name.` is a call here but parsed target-first in the current parser. */
  lemma RoutesDiffer(cur: Token, next: Token)
    ensures cur.kind == ELSE ==>
      StartOf(Some(cur), Some(next)) == ToUnexpected && RouteOf(Some(cur), Some(next)) == NoStatement
    ensures cur.kind == IDENTIFIER && next.kind == LBRACKET ==>
      StartOf(Some(cur), Some(next)) == ToUnexpected && RouteOf(Some(cur), Some(next)) == TargetFirstRoute
    ensures cur.kind == IDENTIFIER && next.kind == DOT ==>
      StartOf(Some(cur), Some(next)) == ToImplicitCall && RouteOf(Some(cur), Some(next)) == TargetFirstRoute
  {
  }

  /** The key an object-literal token gives: only an identifier's name. */
  function LegacyKeyOf(t: Token): (key: Option<string>)
    ensures key.Some? <==> t.kind == IDENTIFIER
    ensures key.Some? ==> key.value == t.value
  {
    if t.kind == IDENTIFIER then Some(t.value) else None
  }

  /** Every identifier key the legacy parser accepts the current one accepts with the same
      name, while the keyword keys the current one accepts (`fn`, `if`, `ret`, ...) are
      refused here. */
  lemma KeysNarrowed(t: Token)
    ensures LegacyKeyOf(t).Some? ==> Current.KeyOf(t) == LegacyKeyOf(t)
    ensures t.kind != IDENTIFIER && KindName(t.kind) in Current.KeywordKeys ==>
      Current.KeyOf(t).Some? && LegacyKeyOf(t).None?
  {
  }

  class Parser {
    const tokens: seq<Token>
    const source: string
    var pos: nat
    var current: Option<Token>
    var inPipeline: bool

    /** The current token is the one at `pos`, or none past the end. */
    ghost predicate Valid()
      reads this
    {
      pos <= |tokens| && current == TokenAt(tokens, pos)
    }

    /** The cursor has not moved back and the pipeline guard is as it was. */
    ghost predicate Moved(p0: nat, flag: bool)
      reads this
    {
      Valid() && p0 <= pos && inPipeline == flag
    }

    constructor(tokens: seq<Token>, source: string)
      ensures Valid() && this.tokens == tokens && this.source == source
      ensures pos == 0 && !inPipeline
      ensures current == (if tokens == [] then None else Some(tokens[0]))
    {
      this.tokens := tokens;
      this.source := source;
      pos := 0;
      current := if tokens == [] then None else Some(tokens[0]);
      inPipeline := false;
    }

    // ----- Cursor helpers -----

    /** `error`: a `ParseError` at the current token, or at 1:1 with no source line. */
    function ErrorHere(message: string, hints: seq<string>): Errors.Failure
      reads this
    {
      ErrorAt(source, current, message, hints)
    }

    /** `peek(offset)`. */
    function Peek(offset: nat): Option<Token>
      reads this
    {
      TokenAt(tokens, pos + offset)
    }

    /** `match(k)`. */
    predicate Is(k: TokenType)
      reads this
    {
      current.Some? && current.value.kind == k
    }

    /** `match(*kinds)`. */
    predicate IsAny(kinds: set<TokenType>)
      reads this
    {
      current.Some? && current.value.kind in kinds
    }

    /** `_is_pipeline_lookahead`. */
    predicate PipelineLookahead()
      reads this
    {
      Peek(1).Some? && Peek(1).value.kind in PipelineOps
    }

    /** A postfix `|` that would start a pipeline chain is not waiting at the cursor. */
    predicate NoPendingPipeline()
      reads this
    {
      inPipeline || !PipelineStartsAt(tokens, pos)
    }

    /** The test `parse_postfix` makes before a pipeline chain, in terms of the token list. */
    lemma PendingPipelineCheck()
      requires Valid()
      ensures NoPendingPipeline() <==> !(Is(PIPE) && !inPipeline && PipelineLookahead())
    {
    }

    /** `advance`, where a current token exists. */
    method Advance() returns (t: Token)
      requires Valid() && current.Some?
      modifies this
      ensures Valid() && pos == old(pos) + 1 && inPipeline == old(inPipeline)
      ensures t == old(current).value && t == tokens[old(pos)]
    {
      t := current.value;
      pos := pos + 1;
      current := TokenAt(tokens, pos);
    }

    /** `expect(k)`. */
    method Expect(k: TokenType) returns (r: Outcome<Token>)
      requires Valid()
      modifies this
      ensures Valid() && inPipeline == old(inPipeline)
      ensures r.Success? <==> old(Is(k))
      ensures r.Success? ==> pos == old(pos) + 1 && r.value == old(current).value && r.value == tokens[old(pos)]
      ensures r.Failure? ==> pos == old(pos) && r.error.Raised?
    {
      if Is(k) {
        var t := Advance();
        return Success(t);
      }
      return Failure(ExpectFailure(source, current, k));
    }

    /** `skip_newlines`. */
    method SkipNewlines()
      requires Valid()
      modifies this
      ensures Moved(old(pos), old(inPipeline)) && !Is(NEWLINE)
      ensures forall i :: old(pos) <= i < pos ==> tokens[i].kind == NEWLINE
    {
      while Is(NEWLINE)
        invariant Moved(old(pos), old(inPipeline))
        invariant forall i :: old(pos) <= i < pos ==> tokens[i].kind == NEWLINE
        decreases |tokens| - pos
      {
        var _ := Advance();
      }
    }

    // ----- Program -----

    /** `parse`: optional metadata, optional dependencies, statements (at most 1000 rounds),
        optional export. */
    method Parse(fuel: nat) returns (r: Outcome<Node>)
      requires Valid()
      modifies this
      ensures Moved(old(pos), old(inPipeline))
      ensures r.Success? ==> r.value.Program? && r.value.line == 1 && r.value.column == 1
      ensures r.Success? ==> |r.value.statements| <= Current.MaxTopLevel
      ensures r.Success? ==> (r.value.metadata.Some? ==> r.value.metadata.value.Metadata?) &&
                             (r.value.dependencies.Some? ==> r.value.dependencies.value.Dependencies?) &&
                             (r.value.exportDecl.Some? ==> r.value.exportDecl.value.Export?)
      ensures r.Success? && r.value.exportDecl.None? ==> !Is(EXPORT)
      decreases fuel, 40
    {
      SkipNewlines();
      var metadata: Option<Node> := None;
      if Is(META) {
        var m :- ParseMetadata();
        metadata := Some(m);
        SkipNewlines();
      }
      var dependencies: Option<Node> := None;
      if Is(DEPS) {
        var d :- ParseDependencies();
        dependencies := Some(d);
        SkipNewlines();
      }
      var statements: seq<Node> := [];
      var loopCount := 0;
      while current.Some? && current.value.kind !in {EXPORT, EOF} && loopCount < Current.MaxTopLevel
        invariant Moved(old(pos), old(inPipeline))
        invariant loopCount <= Current.MaxTopLevel && |statements| <= loopCount
        decreases Current.MaxTopLevel - loopCount
      {
        loopCount := loopCount + 1;
        if Is(NEWLINE) {
          SkipNewlines();
          continue;
        }
        if Is(PIPE) {
          var _ := Advance();
          continue;
        }
        var stmt :- ParseStatement(fuel);
        if stmt.Some? {
          statements := statements + [stmt.value];
        }
        SkipNewlines();
      }
      var exportDecl: Option<Node> := None;
      if Is(EXPORT) {
        var e :- ParseExport();
        exportDecl := Some(e);
      }
      return Success(Program(1, 1, metadata, dependencies, statements, exportDecl));
    }

    /** `parse_metadata`: `meta:name,type,target`. */
    method ParseMetadata() returns (r: Outcome<Node>)
      requires Valid()
      modifies this
      ensures Moved(old(pos), old(inPipeline))
      ensures r.Success? ==> (pos == old(pos) + 7 && r.value.Metadata? &&
        r.value.name == tokens[old(pos) + 2].value && r.value.programType == tokens[old(pos) + 4].value &&
        r.value.targetLanguage == tokens[old(pos) + 6].value)
    {
      var token :- Expect(META);
      var colon :- Expect(COLON);
      var name :- Expect(IDENTIFIER);
      var comma1 :- Expect(COMMA);
      var programType :- Expect(IDENTIFIER);
      var comma2 :- Expect(COMMA);
      var target :- Expect(IDENTIFIER);
      return Success(Metadata(token.line, token.column, name.value, programType.value, target.value));
    }

    /** `parse_dependencies`: `deps:lib` or `deps:[lib1,lib2]`. */
    method ParseDependencies() returns (r: Outcome<Node>)
      requires Valid()
      modifies this
      ensures Moved(old(pos), old(inPipeline))
      ensures r.Success? ==> r.value.Dependencies? && old(pos) + 3 <= pos
      ensures r.Success? && tokens[old(pos) + 2].kind != LBRACKET ==>
        r.value.deps == [tokens[old(pos) + 2].value] && pos == old(pos) + 3
    {
      var origin := pos;
      var token :- Expect(DEPS);
      var colon :- Expect(COLON);
      assert pos == origin + 2;
      var deps: seq<string>;
      if Is(LBRACKET) {
        deps :- ParseDependencyList();
      } else {
        var d :- Expect(IDENTIFIER);
        deps := [d.value];
      }
      return Success(Dependencies(token.line, token.column, deps));
    }

    /** The bracketed form of `parse_dependencies`: identifiers, each optionally followed by
        a comma, up to `]`. */
    method ParseDependencyList() returns (r: Outcome<seq<string>>)
      requires Valid() && Is(LBRACKET)
      modifies this
      ensures Moved(old(pos), old(inPipeline))
      ensures r.Success? ==> pos >= old(pos) + 2
    {
      var origin := pos;
      var _ := Advance();
      var deps: seq<string> := [];
      while !Is(RBRACKET)
        invariant Moved(origin + 1, old(inPipeline))
        decreases |tokens| - pos
      {
        var d :- Expect(IDENTIFIER);
        deps := deps + [d.value];
        if Is(COMMA) {
          var _ := Advance();
        }
      }
      var _ := Advance();
      return Success(deps);
    }

    /** `parse_export`: `export:name`. */
    method ParseExport() returns (r: Outcome<Node>)
      requires Valid()
      modifies this
      ensures Moved(old(pos), old(inPipeline))
      ensures r.Success? ==> pos == old(pos) + 3 && r.value == Export(tokens[old(pos)].line, tokens[old(pos)].column, tokens[old(pos) + 2].value)
    {
      var origin := pos;
      var token :- Expect(EXPORT);
      var colon :- Expect(COLON);
      var name :- Expect(IDENTIFIER);
      assert pos == origin + 3 && token == tokens[origin] && name == tokens[origin + 2];
      return Success(Export(token.line, token.column, name.value));
    }

    // ----- Statements -----

    /** `parse_statement`: chooses a parser by the current token and, for an identifier, by
        the next one. Only a missing token yields no statement; every statement parsed
        moves the cursor. */
    method ParseStatement(fuel: nat) returns (r: Outcome<Option<Node>>)
      requires Valid()
      modifies this
      ensures Moved(old(pos), old(inPipeline))
      ensures old(current).None? ==> r == Success(None) && pos == old(pos)
      ensures r.Success? && old(current).Some? ==> r.value.Some? && pos > old(pos)
      ensures StartOf(old(current), old(Peek(1))) == ToUnexpected ==>
        pos == old(pos) && r == Failure(ErrorHere("Unexpected token: " + KindName(old(current).value.kind), []))
      ensures r.Success? && StartOf(old(current), old(Peek(1))) == ToAssignment ==>
        r.value.value.VariableDef? || r.value.value.CompoundAssignment?
      ensures r.Success? && StartOf(old(current), old(Peek(1))) in {ToImplicitCall, ToDirectCall} ==>
        r.value.value.DirectCall?
      ensures r.Success? && StartOf(old(current), old(Peek(1))) == ToIf ==> r.value.value.IfStmt?
      decreases fuel, 33
    {
      var start := StartOf(current, Peek(1));
      if start == ToNothing {
        return Success(None);
      } else if start in {ToDirectCall, ToFunction, ToVariable, ToAssignment, ToImplicitCall, ToReturn} {
        var s :- ParseSimpleStatement(start, fuel);
        return Success(Some(s));
      } else {
        var s :- ParseKeywordStatement(start, fuel);
        return Success(Some(s));
      }
    }

    /** The branches of `parse_statement` up to `ret`: `@`, `fn`, `v:`, the identifier forms
        and `ret`. */
    method ParseSimpleStatement(start: Start, fuel: nat) returns (r: Outcome<Node>)
      requires Valid() && start == StartOf(current, Peek(1))
      requires start in {ToDirectCall, ToFunction, ToVariable, ToAssignment, ToImplicitCall, ToReturn}
      modifies this
      ensures Moved(old(pos), old(inPipeline))
      ensures r.Success? ==> pos > old(pos)
      ensures r.Success? && start == ToAssignment ==> r.value.VariableDef? || r.value.CompoundAssignment?
      ensures r.Success? && start in {ToImplicitCall, ToDirectCall} ==> r.value.DirectCall?
      decreases fuel, 32
    {
      if start == ToDirectCall {
        r := ParseDirectCallStmt(fuel);
      } else if start == ToFunction {
        r := ParseFunctionDef(fuel);
      } else if start == ToVariable {
        r := ParseVariableDef(fuel);
      } else if start == ToAssignment {
        r := ParseImplicitAssignment(fuel);
      } else if start == ToImplicitCall {
        r := ParseImplicitCall(fuel);
      } else {
        r := ParseReturn(fuel);
      }
    }

    /** The keyword branches of `parse_statement`, from `if` to `file`, and the error for a
        token that starts no statement. */
    method ParseKeywordStatement(start: Start, fuel: nat) returns (r: Outcome<Node>)
      requires Valid() && start == StartOf(current, Peek(1))
      requires start in {ToIf, ToFor, ToWhile, ToApi, ToUi, ToData, ToFile, ToUnexpected}
      modifies this
      ensures Moved(old(pos), old(inPipeline))
      ensures r.Success? ==> pos > old(pos)
      ensures start == ToUnexpected ==>
        pos == old(pos) && r == Failure(ErrorHere("Unexpected token: " + KindName(old(current).value.kind), []))
      ensures r.Success? && start == ToIf ==> r.value.IfStmt?
      decreases fuel, 32
    {
      if start == ToIf {
        ghost var afterCondition;
        r, afterCondition := ParseIf(fuel);
      } else if start == ToFor {
        r := ParseFor(fuel);
      } else if start == ToWhile {
        r := ParseWhile(fuel);
      } else if start == ToApi {
        r := ParseApiCall(fuel);
      } else if start == ToUi {
        r := ParseUiComponent(fuel);
      } else if start == ToData {
        ghost var sourceEnd;
        r, sourceEnd := ParseDataPipeline(fuel);
      } else if start == ToFile {
        r := ParseFileOperation(fuel);
      } else {
        r := Failure(ErrorHere("Unexpected token: " + KindName(current.value.kind), []));
      }
    }

    /** `parse_direct_call`: `@` and then any expression, located at the `@`. */
    method ParseDirectCallStmt(fuel: nat) returns (r: Outcome<Node>)
      requires Valid()
      modifies this
      ensures Moved(old(pos), old(inPipeline))
      ensures r.Success? ==> (pos > old(pos) + 1 && r.value.DirectCall? &&
        r.value.line == tokens[old(pos)].line && r.value.column == tokens[old(pos)].column)
      decreases fuel, 20
    {
      var token :- Expect(AT);
      var call :- ParseExpression(fuel);
      return Success(DirectCall(token.line, token.column, call));
    }

    /** `parse_function_def`. */
    method ParseFunctionDef(fuel: nat) returns (r: Outcome<Node>)
      requires Valid()
      modifies this
      ensures Moved(old(pos), old(inPipeline))
      ensures r.Success? ==> pos > old(pos) + 7 && r.value.FunctionDef? && r.value.decorators.None?
      ensures r.Success? ==> r.value.name == tokens[old(pos) + 2].value && |r.value.inputTypes| >= 1
      ensures r.Success? ==> current.None? || current.value.kind in Current.DefinitionStops
      decreases fuel, 27
    {
      var parts :- ParseFunctionCommon(Current.DefinitionStops, fuel);
      return Success(FunctionDef(parts.token.line, parts.token.column, parts.name, parts.inputs, parts.output, parts.body));
    }

    /** `parse_function_expr`: a function written as an object value. */
    method ParseFunctionExpr(fuel: nat) returns (r: Outcome<Node>)
      requires Valid()
      modifies this
      ensures Moved(old(pos), old(inPipeline))
      ensures r.Success? ==> pos > old(pos) + 7 && r.value.FunctionExpr?
      ensures r.Success? ==> r.value.name == tokens[old(pos) + 2].value && |r.value.inputTypes| >= 1
      ensures r.Success? ==> current.None? || current.value.kind in Current.ExpressionStops
      decreases fuel, 27
    {
      var parts :- ParseFunctionCommon(Current.ExpressionStops, fuel);
      return Success(FunctionExpr(parts.token.line, parts.token.column, parts.name, parts.inputs, parts.output, parts.body));
    }

    /** `_parse_function_common`: `fn:name|i:types|o:type|body`, the body running to one of
        `stops`. */
    method ParseFunctionCommon(stops: set<TokenType>, fuel: nat) returns (r: Outcome<Current.FunctionParts>)
      requires Valid()
      modifies this
      ensures Moved(old(pos), old(inPipeline))
      ensures r.Success? ==> pos > old(pos) + 7 && r.value.token == tokens[old(pos)]
      ensures r.Success? ==> r.value.name == tokens[old(pos) + 2].value && |r.value.inputs| >= 1
      ensures r.Success? ==> current.None? || current.value.kind in stops
      decreases fuel, 26
    {
      var signature :- ParseSignature();
      var body :- ParseFunctionBody(stops, fuel);
      return Success(Current.FunctionParts(signature.token, signature.name, signature.inputs, signature.output, body));
    }

    /** The part of `_parse_function_common` before the body. The input section is a type
        list, so `i:` must be followed by a type: `fn:f|i:|...` is an error. */
    method ParseSignature() returns (r: Outcome<Current.FunctionParts>)
      requires Valid()
      modifies this
      ensures Moved(old(pos), old(inPipeline))
      ensures r.Success? ==> pos > old(pos) + 7 && r.value.token == tokens[old(pos)] && r.value.body == []
      ensures r.Success? ==> r.value.name == tokens[old(pos) + 2].value
      ensures r.Success? ==> |r.value.inputs| >= 1 && tokens[old(pos) + 6].kind in Current.TypeKinds
    {
      var origin := pos;
      var token :- Expect(FN);
      var colon :- Expect(COLON);
      var name :- Expect(IDENTIFIER);
      var pipe1 :- Expect(PIPE);
      var input :- Expect(INPUT);
      var colon2 :- Expect(COLON);
      assert pos == origin + 6 && token == tokens[origin] && name == tokens[origin + 2];
      var inputs :- ParseTypeList();
      var pipe2 :- Expect(PIPE);
      var output :- Expect(OUTPUT);
      var colon3 :- Expect(COLON);
      var outputType :- ParseType();
      var pipe3 :- Expect(PIPE);
      return Success(Current.FunctionParts(token, name.value, inputs, outputType, []));
    }

    /** `_parse_function_body`: statements until a stop token, with no column rule. Newlines
        are skipped; a separator `|` after a statement is consumed, one that starts a
        pipeline is not. Every round moves the cursor, so the loop always ends. */
    method ParseFunctionBody(stops: set<TokenType>, fuel: nat) returns (r: Outcome<seq<Node>>)
      requires Valid()
      modifies this
      ensures Moved(old(pos), old(inPipeline))
      ensures r.Success? ==> current.None? || current.value.kind in stops
      decreases fuel, 25
    {
      var body: seq<Node> := [];
      while current.Some? && current.value.kind !in stops
        invariant Moved(old(pos), old(inPipeline))
        decreases |tokens| - pos
      {
        if Is(NEWLINE) {
          SkipNewlines();
          continue;
        }
        if fuel == 0 {
          return Failure(Errors.DepthExceeded);
        }
        var stmt :- ParseStatement(fuel - 1);
        body := body + [stmt.value];
        if Is(PIPE) && !PipelineLookahead() {
          var _ := Advance();
        }
      }
      return Success(body);
    }

    /** `parse_type_list`: one or more types separated by commas. */
    method ParseTypeList() returns (r: Outcome<seq<Type>>)
      requires Valid()
      modifies this
      ensures Moved(old(pos), old(inPipeline))
      ensures r.Success? ==> |r.value| >= 1 && pos > old(pos) && !Is(COMMA)
      ensures r.Success? ==> old(IsAny(Current.TypeKinds))
    {
      var first :- ParseType();
      var types := [first];
      while Is(COMMA)
        invariant Moved(old(pos), old(inPipeline)) && pos > old(pos) && |types| >= 1
        decreases |tokens| - pos
      {
        var _ := Advance();
        var t :- ParseType();
        types := types + [t];
      }
      return Success(types);
    }

    /** `parse_type`: one of the twelve type tokens, by its lexeme. */
    method ParseType() returns (r: Outcome<Type>)
      requires Valid()
      modifies this
      ensures Valid() && inPipeline == old(inPipeline)
      ensures r.Success? <==> old(IsAny(Current.TypeKinds))
      ensures r.Success? ==> (pos == old(pos) + 1 &&
        r.value == Type(old(current).value.line, old(current).value.column, old(current).value.value))
      ensures r.Failure? ==> pos == old(pos)
      ensures old(current).None? ==> r == Failure(Errors.Crash(Current.NoneType))
    {
      if current.None? {
        return Failure(Errors.Crash(Current.NoneType));
      }
      if IsAny(Current.TypeKinds) {
        var t := Advance();
        return Success(Type(t.line, t.column, t.value));
      }
      return Failure(ErrorHere("Expected type, got " + KindName(current.value.kind), []));
    }

    /** `parse_implicit_variable_or_compound`: `name=value` or `name op= value`. */
    method ParseImplicitAssignment(fuel: nat) returns (r: Outcome<Node>)
      requires Valid()
      modifies this
      ensures Moved(old(pos), old(inPipeline))
      ensures r.Success? ==> pos > old(pos) + 1 && old(Is(IDENTIFIER))
      ensures r.Success? ==> ((r.value.CompoundAssignment? || r.value.VariableDef?) &&
        r.value.name == tokens[old(pos)].value &&
        r.value.line == tokens[old(pos)].line && r.value.column == tokens[old(pos)].column)
      ensures r.Success? ==> (r.value.CompoundAssignment? <==> tokens[old(pos) + 1].kind in AssignOps - {EQUALS})
      ensures r.Success? && r.value.CompoundAssignment? ==> r.value.operator == CompoundOperator(tokens[old(pos) + 1].kind)
      ensures r.Success? && r.value.VariableDef? ==> r.value.typeAnnotation.None?
      decreases fuel, 20
    {
      var origin := pos;
      var token :- Expect(IDENTIFIER);
      assert token == tokens[origin] && pos == origin + 1;
      if IsAny(AssignOps - {EQUALS}) {
        r := ParseCompoundAssignment(token, fuel);
      } else {
        r := ParsePlainAssignment(token, fuel);
      }
    }

    /** The `name=value` branch of `parse_implicit_variable_or_compound`: a definition with no
        type annotation. */
    method ParsePlainAssignment(token: Token, fuel: nat) returns (r: Outcome<Node>)
      requires Valid()
      modifies this
      ensures Moved(old(pos), old(inPipeline))
      ensures r.Success? ==> (pos > old(pos) + 1 && old(Is(EQUALS)) && r.value.VariableDef? &&
        r.value.name == token.value && r.value.line == token.line && r.value.column == token.column &&
        r.value.typeAnnotation.None?)
      decreases fuel, 11
    {
      var eq :- Expect(EQUALS);
      var value :- ParseExpression(fuel);
      r := Success(VariableDef(token.line, token.column, token.value, None, value));
    }

    /** The compound branch of `parse_implicit_variable_or_compound`. */
    method ParseCompoundAssignment(token: Token, fuel: nat) returns (r: Outcome<Node>)
      requires Valid() && IsAny(AssignOps - {EQUALS})
      modifies this
      ensures Moved(old(pos), old(inPipeline))
      ensures r.Success? ==> (pos > old(pos) && r.value.CompoundAssignment? &&
        r.value.name == token.value && r.value.line == token.line && r.value.column == token.column &&
        r.value.operator == CompoundOperator(tokens[old(pos)].kind))
      decreases fuel, 11
    {
      var op := Advance();
      var value :- ParseExpression(fuel);
      return Success(CompoundAssignment(token.line, token.column, token.value, CompoundOperator(op.kind), value));
    }

    /** `parse_variable_def`: `v:name=value` or `v:name:type=value`. */
    method ParseVariableDef(fuel: nat) returns (r: Outcome<Node>)
      requires Valid()
      modifies this
      ensures Moved(old(pos), old(inPipeline))
      ensures r.Success? ==> pos > old(pos) + 3 && r.value.VariableDef? && r.value.name == tokens[old(pos) + 2].value
      ensures r.Success? ==> (r.value.typeAnnotation.Some? <==> tokens[old(pos) + 3].kind == COLON)
      decreases fuel, 20
    {
      var origin := pos;
      var token :- Expect(VAR);
      var colon :- Expect(COLON);
      var name :- Expect(IDENTIFIER);
      assert pos == origin + 3 && name == tokens[origin + 2];
      var annotation :- ParseAnnotation();
      var eq :- Expect(EQUALS);
      var value :- ParseExpression(fuel);
      return Success(VariableDef(token.line, token.column, name.value, annotation, value));
    }

    /** The optional `:type` of `parse_variable_def`. */
    method ParseAnnotation() returns (r: Outcome<Option<Type>>)
      requires Valid()
      modifies this
      ensures Moved(old(pos), old(inPipeline))
      ensures r.Success? ==> (r.value.Some? <==> old(pos) < |tokens| && tokens[old(pos)].kind == COLON)
      ensures r.Success? && r.value.Some? ==> pos == old(pos) + 2
    {
      if Is(COLON) {
        var _ := Advance();
        var t :- ParseType();
        return Success(Some(t));
      }
      return Success(None);
    }

    /** `parse_return_stmt`: `ret:value`. */
    method ParseReturn(fuel: nat) returns (r: Outcome<Node>)
      requires Valid()
      modifies this
      ensures Moved(old(pos), old(inPipeline))
      ensures r.Success? ==> (pos > old(pos) && r.value.ReturnStmt? &&
        r.value.line == tokens[old(pos)].line && r.value.column == tokens[old(pos)].column)
      decreases fuel, 20
    {
      var token :- Expect(RET);
      var colon :- Expect(COLON);
      var value :- ParseExpression(fuel);
      return Success(ReturnStmt(token.line, token.column, value));
    }

    /** `parse_implicit_call`: an expression statement located at its first token. */
    method ParseImplicitCall(fuel: nat) returns (r: Outcome<Node>)
      requires Valid()
      modifies this
      ensures Moved(old(pos), old(inPipeline))
      ensures r.Success? ==> (pos > old(pos) && r.value.DirectCall? &&
        r.value.line == tokens[old(pos)].line && r.value.column == tokens[old(pos)].column)
      decreases fuel, 20
    {
      var token := current;
      var call :- ParseExpression(fuel);
      return Success(DirectCall(token.value.line, token.value.column, call));
    }

    /** `parse_if_stmt` (and `parse_if_expr`): `if:cond?t:f` only. A `?` must follow the
        condition; each branch written `ret:x` becomes a `ReturnStmt` located at the `if`. */
    method ParseIf(fuel: nat) returns (r: Outcome<Node>, ghost afterCondition: nat)
      requires Valid()
      modifies this
      ensures Moved(old(pos), old(inPipeline))
      ensures r.Success? ==> pos > old(pos) && r.value.IfStmt?
      ensures r.Success? ==> old(pos) + 2 < afterCondition < |tokens| && tokens[afterCondition].kind == QUESTION
      ensures r.Success? ==>
        (r.value.trueExpr.ReturnStmt? ==> r.value.trueExpr.line == tokens[old(pos)].line &&
                                          r.value.trueExpr.column == tokens[old(pos)].column) &&
        (r.value.falseExpr.ReturnStmt? ==> r.value.falseExpr.line == tokens[old(pos)].line &&
                                           r.value.falseExpr.column == tokens[old(pos)].column)
      decreases fuel, 22
    {
      var origin := pos;
      afterCondition := origin + 3;
      var token :- Expect(IF);
      var colon :- Expect(COLON);
      assert token == tokens[origin];
      var condition :- ParseExpression(fuel);
      afterCondition := pos;
      r := ParseTernary(token, condition, fuel);
    }

    /** The part of `parse_if_stmt` after the condition: `?`, the true branch, `:` and the
        false branch. */
    method ParseTernary(token: Token, condition: Node, fuel: nat) returns (r: Outcome<Node>)
      requires Valid()
      modifies this
      ensures Moved(old(pos), old(inPipeline))
      ensures r.Success? ==> pos > old(pos) + 1 && old(Is(QUESTION)) && r.value.IfStmt? && r.value.condition == condition
      ensures r.Success? ==> (r.value.trueExpr.ReturnStmt? <==> tokens[old(pos) + 1].kind == RET)
      ensures r.Success? ==>
        (r.value.trueExpr.ReturnStmt? ==> r.value.trueExpr.line == token.line && r.value.trueExpr.column == token.column) &&
        (r.value.falseExpr.ReturnStmt? ==> r.value.falseExpr.line == token.line && r.value.falseExpr.column == token.column)
      decreases fuel, 21
    {
      var question :- Expect(QUESTION);
      var trueExpr :- ParseBranch(token, fuel);
      var colon :- Expect(COLON);
      var falseExpr :- ParseBranch(token, fuel);
      r := Success(IfStmt(token.line, token.column, condition, trueExpr, falseExpr));
    }

    /** One branch of `if:`: `ret:value` becomes a `ReturnStmt` at the `if` token. */
    method ParseBranch(ifToken: Token, fuel: nat) returns (r: Outcome<Node>)
      requires Valid()
      modifies this
      ensures Moved(old(pos), old(inPipeline))
      ensures r.Success? ==> pos > old(pos)
      ensures r.Success? ==> (r.value.ReturnStmt? <==> old(Is(RET)))
      ensures r.Success? && r.value.ReturnStmt? ==> r.value.line == ifToken.line && r.value.column == ifToken.column
      decreases fuel, 19
    {
      if Is(RET) {
        var _ := Advance();
        var colon :- Expect(COLON);
        var value :- ParseExpression(fuel);
        return Success(ReturnStmt(ifToken.line, ifToken.column, value));
      }
      r := ParseExpression(fuel);
    }

    /** `parse_for_loop`: `for:var,iterable|body`; any token is accepted as the variable. */
    method ParseFor(fuel: nat) returns (r: Outcome<Node>)
      requires Valid()
      modifies this
      ensures Moved(old(pos), old(inPipeline))
      ensures r.Success? ==> pos > old(pos) + 3 && r.value.ForLoop? && r.value.variable == tokens[old(pos) + 2].value
      ensures r.Success? ==> IsAny(LoopStops)
      decreases fuel, 20
    {
      var token :- Expect(FOR);
      var colon :- Expect(COLON);
      if current.None? {
        return Failure(ErrorHere("Expected variable name in for loop", []));
      }
      var variable := Advance();
      var comma :- Expect(COMMA);
      var iterable :- ParseExpression(fuel);
      var pipe :- Expect(PIPE);
      var body :- ParseLoopBody(fuel);
      return Success(ForLoop(token.line, token.column, variable.value, iterable, body));
    }

    /** `parse_while_loop`: `while:condition|body`. */
    method ParseWhile(fuel: nat) returns (r: Outcome<Node>)
      requires Valid()
      modifies this
      ensures Moved(old(pos), old(inPipeline))
      ensures r.Success? ==> pos > old(pos) && r.value.WhileLoop? && IsAny(LoopStops)
      decreases fuel, 20
    {
      var token :- Expect(WHILE);
      var colon :- Expect(COLON);
      var condition :- ParseExpression(fuel);
      var pipe :- Expect(PIPE);
      var body :- ParseLoopBody(fuel);
      return Success(WhileLoop(token.line, token.column, condition, body));
    }

    /** The body loop shared by `parse_for_loop` and `parse_while_loop`: statements until a
        newline, the end token or a `|`, none of which is consumed. With no token left at
        all, `match` is false for every kind and `parse_statement` yields nothing, so the
        loop never ends. */
    method ParseLoopBody(fuel: nat) returns (r: Outcome<seq<Node>>)
      requires Valid()
      modifies this
      ensures Moved(old(pos), old(inPipeline))
      ensures r.Success? ==> IsAny(LoopStops)
      ensures old(IsAny(LoopStops)) ==> r == Success([]) && pos == old(pos)
      ensures old(current).None? ==> r == Failure(Errors.Diverges)
      decreases fuel, 19
    {
      var body: seq<Node> := [];
      while !IsAny(LoopStops)
        invariant Moved(old(pos), old(inPipeline))
        invariant pos == old(pos) ==> body == []
        invariant old(IsAny(LoopStops)) ==> pos == old(pos)
        decreases |tokens| - pos
      {
        if current.None? {
          return Failure(Errors.Diverges);
        }
        if fuel == 0 {
          return Failure(Errors.DepthExceeded);
        }
        var stmt :- ParseStatement(fuel - 1);
        body := body + [stmt.value];
        if Is(PIPE) {
          break;
        }
      }
      return Success(body);
    }

    /** `parse_api_call`: `[async|]api:METHOD,endpoint[,options]` then chained operations. */
    method ParseApiCall(fuel: nat) returns (r: Outcome<Node>)
      requires Valid()
      modifies this
      ensures Moved(old(pos), old(inPipeline))
      ensures r.Success? ==> pos > old(pos) && r.value.APICall? && r.value.chained.Some?
      ensures r.Success? ==> (r.value.isAsync <==> tokens[old(pos)].kind == ASYNC)
      ensures r.Success? ==> forall op :: op in r.value.chained.value ==> Current.ChainOp(op)
      ensures r.Success? ==> !(Is(PIPE) && PipelineLookahead())
      decreases fuel, 20
    {
      var origin := pos;
      var isAsync := false;
      if Is(ASYNC) {
        isAsync := true;
        var _ := Advance();
        var pipe :- Expect(PIPE);
      }
      var token :- Expect(API);
      assert isAsync <==> tokens[origin].kind == ASYNC;
      var colon :- Expect(COLON);
      var httpMethod :- Expect(IDENTIFIER);
      var comma :- Expect(COMMA);
      var endpoint :- ParseExpression(fuel);
      var options: Option<Node> := None;
      if Is(COMMA) {
        var _ := Advance();
        var o :- ParseExpression(fuel);
        options := Some(o);
      }
      var operations :- ParseApiOperations(fuel);
      return Success(APICall(token.line, token.column, httpMethod.value, endpoint, options, isAsync, Some(operations)));
    }

    /** The operation loop of `parse_api_call`: while a `|` is followed by `filter`, `map` or
        `parse`, that operation is chained; any other `|` is left for the caller. */
    method ParseApiOperations(fuel: nat) returns (r: Outcome<seq<Node>>)
      requires Valid()
      modifies this
      ensures Moved(old(pos), old(inPipeline))
      ensures r.Success? ==> forall op :: op in r.value ==> Current.ChainOp(op)
      ensures r.Success? ==> !(Is(PIPE) && PipelineLookahead())
      decreases fuel, 2
    {
      var operations: seq<Node> := [];
      while Is(PIPE)
        invariant Moved(old(pos), old(inPipeline))
        invariant forall op :: op in operations ==> Current.ChainOp(op)
        decreases |tokens| - pos
      {
        if PipelineLookahead() {
          var _ := Advance();
          var op :- ParseChainOp(fuel);
          operations := operations + [op];
        } else {
          break;
        }
      }
      return Success(operations);
    }

    /** The operation after a pipeline `|`: `parse_filter_op`, `parse_map_op` or `parse_parse_op`. */
    method ParseChainOp(fuel: nat) returns (r: Outcome<Node>)
      requires Valid() && IsAny(PipelineOps)
      modifies this
      ensures Moved(old(pos), old(inPipeline))
      ensures r.Success? ==> pos > old(pos) && Current.ChainOp(r.value)
      ensures r.Success? ==> (r.value.FilterOp? <==> old(Is(FILTER))) && (r.value.MapOp? <==> old(Is(MAP)))
      ensures r.Success? && r.value.MapOp? ==> r.value.fields.None? && r.value.expression.Some?
      decreases fuel, 1
    {
      if Is(FILTER) {
        var token := Advance();
        var colon :- Expect(COLON);
        if fuel == 0 {
          return Failure(Errors.DepthExceeded);
        }
        var condition :- ParseExpression(fuel - 1);
        return Success(FilterOp(token.line, token.column, condition));
      } else if Is(MAP) {
        var token := Advance();
        var colon :- Expect(COLON);
        if fuel == 0 {
          return Failure(Errors.DepthExceeded);
        }
        var expr :- ParseExpression(fuel - 1);
        return Success(MapOp(token.line, token.column, None, Some(expr)));
      } else {
        var token := Advance();
        var colon :- Expect(COLON);
        var format :- Expect(IDENTIFIER);
        return Success(ParseOp(token.line, token.column, format.value));
      }
    }

    /** `parse_ui_component`: `ui:name` and `|state:`, `|props:`, `|on:`, `|render:` clauses.
        Handlers and the render element are read and dropped; the body is always empty. */
    method ParseUiComponent(fuel: nat) returns (r: Outcome<Node>)
      requires Valid()
      modifies this
      ensures Moved(old(pos), old(inPipeline))
      ensures r.Success? ==> pos > old(pos) + 2 && r.value.UIComponent? && r.value.body == []
      ensures r.Success? ==> r.value.name == tokens[old(pos) + 2].value
      decreases fuel, 20
    {
      var token :- Expect(UI);
      var colon :- Expect(COLON);
      var name :- Expect(IDENTIFIER);
      var clauses :- ParseUiClauses(fuel);
      return Success(UIComponent(token.line, token.column, name.value, clauses.0, clauses.1, []));
    }

    /** The clause loop of `parse_ui_component`: each `|` is consumed; an empty clause is
        skipped, a `state`, `props`, `on` or `render` clause is read, and anything else ends
        the loop. Only states that have a value are kept. */
    method ParseUiClauses(fuel: nat) returns (r: Outcome<(seq<PropEntry>, seq<StateEntry>)>)
      requires Valid()
      modifies this
      ensures Moved(old(pos), old(inPipeline))
      ensures r.Success? ==> !Is(PIPE) || old(pos) < pos
      decreases fuel, 19
    {
      var props: seq<PropEntry> := [];
      var stateVars: seq<StateEntry> := [];
      while Is(PIPE)
        invariant Moved(old(pos), old(inPipeline))
        decreases |tokens| - pos
      {
        var _ := Advance();
        if IsAny({PIPE, NEWLINE, EOF}) {
          continue;
        }
        if Is(STATE) {
          var _ := Advance();
          var c :- Expect(COLON);
          var stateName :- Expect(IDENTIFIER);
          var stateType := ParseTypeSuffix();
          if Is(EQUALS) {
            var _ := Advance();
            var value :- ParseExpression(fuel);
            stateVars := stateVars + [StateEntry(stateName.value, stateType, value)];
          }
          continue;
        }
        if Is(PROPS) {
          var _ := Advance();
          var c :- Expect(COLON);
          var propName :- Expect(IDENTIFIER);
          var propType := ParseTypeSuffix();
          props := props + [PropEntry(propName.value, propType)];
          continue;
        }
        if Is(ON) {
          var _ := Advance();
          var c :- Expect(COLON);
          var handler :- Expect(IDENTIFIER);
          continue;
        }
        if Is(RENDER) {
          var _ := Advance();
          var c :- Expect(COLON);
          var element :- Expect(IDENTIFIER);
          continue;
        }
        break;
      }
      return Success((props, stateVars));
    }

    /** The optional `:type` of a `state:` or `props:` clause: after the colon any token is
        taken, by its lexeme. */
    method ParseTypeSuffix() returns (t: Option<string>)
      requires Valid()
      modifies this
      ensures Moved(old(pos), old(inPipeline))
      ensures !old(Is(COLON)) ==> t.None? && pos == old(pos)
      ensures old(Is(COLON)) && old(pos) + 1 < |tokens| ==> t == Some(tokens[old(pos) + 1].value) && pos == old(pos) + 2
    {
      t := None;
      if Is(COLON) {
        var _ := Advance();
        if current.Some? {
          var token := Advance();
          t := Some(token.value);
        }
      }
    }

    /** `parse_data_pipeline`: `data:source` and up to 100 `|op` clauses. The source is a
        full expression, so (outside a pipeline chain) a `|filter:`, `|map:` or `|parse:`
        right after it has already been taken into the source by postfix chaining. */
    method ParseDataPipeline(fuel: nat) returns (r: Outcome<Node>, ghost sourceEnd: nat)
      requires Valid()
      modifies this
      ensures Moved(old(pos), old(inPipeline))
      ensures r.Success? ==> pos > old(pos) && r.value.DataPipeline?
      ensures r.Success? ==> |r.value.operations| <= Current.MaxDataOps
      ensures r.Success? ==> forall op :: op in r.value.operations ==> Current.DataOp(op)
      ensures r.Success? && !old(inPipeline) ==> !PipelineStartsAt(tokens, sourceEnd)
      decreases fuel, 20
    {
      sourceEnd := 0;
      var token :- Expect(DATA);
      var colon :- Expect(COLON);
      var src :- ParseExpression(fuel);
      sourceEnd := pos;
      var operations: seq<Node> := [];
      while Is(PIPE) && !IsAny({NEWLINE, EOF}) && |operations| < Current.MaxDataOps
        invariant Moved(old(pos), old(inPipeline)) && pos > old(pos)
        invariant |operations| <= Current.MaxDataOps && forall op :: op in operations ==> Current.DataOp(op)
        decreases |tokens| - pos
      {
        var _ := Advance();
        var op :- ParseDataOp(fuel);
        if op.Some? {
          operations := operations + [op.value];
        }
      }
      return Success(DataPipeline(token.line, token.column, src, operations)), sourceEnd;
    }

    /** One clause of the `data:` loop after its `|`: `filter:`, `map:`, `groupby:`, `agg:` or
        `sort:`; any other token adds no operation. Each operation takes its position from the
        token after it, which crashes at the end of the input. */
    method ParseDataOp(fuel: nat) returns (r: Outcome<Option<Node>>)
      requires Valid()
      modifies this
      ensures Moved(old(pos), old(inPipeline))
      ensures r.Success? && r.value.Some? ==> Current.DataOp(r.value.value) && pos > old(pos)
      ensures r.Success? && r.value.Some? ==> current.Some? && r.value.value.line == current.value.line
      ensures old(!IsAny({FILTER, MAP, GROUPBY, AGG, SORT})) ==> r == Success(None) && pos == old(pos)
      decreases fuel, 19
    {
      if Is(FILTER) {
        var _ := Advance();
        var c :- Expect(COLON);
        var condition :- ParseExpression(fuel);
        if current.None? {
          return Failure(Errors.Crash(Current.NoneLine));
        }
        return Success(Some(FilterOp(current.value.line, current.value.column, condition)));
      } else if Is(MAP) {
        var _ := Advance();
        var c :- Expect(COLON);
        var transformation :- ParseExpression(fuel);
        if current.None? {
          return Failure(Errors.Crash(Current.NoneLine));
        }
        return Success(Some(MapOp(current.value.line, current.value.column, None, Some(transformation))));
      } else if Is(GROUPBY) {
        var _ := Advance();
        var c :- Expect(COLON);
        var field :- Expect(IDENTIFIER);
        if current.None? {
          return Failure(Errors.Crash(Current.NoneLine));
        }
        return Success(Some(GroupByOp(current.value.line, current.value.column, field.value)));
      } else if Is(AGG) {
        var _ := Advance();
        var c :- Expect(COLON);
        var func :- Expect(IDENTIFIER);
        if current.None? {
          return Failure(Errors.Crash(Current.NoneLine));
        }
        return Success(Some(AggregateOp(current.value.line, current.value.column, func.value, None)));
      } else if Is(SORT) {
        var _ := Advance();
        var c :- Expect(COLON);
        var field :- Expect(IDENTIFIER);
        if current.None? {
          return Failure(Errors.Crash(Current.NoneLine));
        }
        return Success(Some(SortOp(current.value.line, current.value.column, field.value, "asc")));
      }
      return Success(None);
    }

    /** `parse_file_operation`: `file:operation,path[,arg]*`. */
    method ParseFileOperation(fuel: nat) returns (r: Outcome<Node>)
      requires Valid()
      modifies this
      ensures Moved(old(pos), old(inPipeline))
      ensures r.Success? ==> pos > old(pos) && r.value.FileOperation? && !Is(COMMA)
      decreases fuel, 20
    {
      var token :- Expect(FILE);
      var colon :- Expect(COLON);
      var operation :- Expect(IDENTIFIER);
      var comma :- Expect(COMMA);
      var path :- ParseExpression(fuel);
      var arguments: seq<Node> := [];
      while Is(COMMA)
        invariant Moved(old(pos), old(inPipeline)) && pos > old(pos)
        decreases |tokens| - pos
      {
        var _ := Advance();
        var arg :- ParseExpression(fuel);
        arguments := arguments + [arg];
      }
      return Success(FileOperation(token.line, token.column, operation.value, path, arguments));
    }

    // ----- Expressions -----

    /** `parse_expression`. An expression never stops before a binary operator of the legacy
        grammar, nor (outside a pipeline chain) before a `|` that starts one. */
    method ParseExpression(fuel: nat) returns (r: Outcome<Node>)
      requires Valid()
      modifies this
      ensures Moved(old(pos), old(inPipeline))
      ensures r.Success? ==> pos > old(pos) && !r.value.ReturnStmt?
      ensures r.Success? ==> !IsAny(LegacyBinaryOps) && NoPendingPipeline()
      decreases fuel, 10
    {
      ghost var first, steps;
      r, first, steps := ParseLogical(fuel);
    }

    /** `parse_logical`: `&&` and `||`, folded to the left. */
    method ParseLogical(fuel: nat) returns (r: Outcome<Node>, ghost first: Node, ghost steps: seq<BinaryStep>)
      requires Valid()
      modifies this
      ensures Moved(old(pos), old(inPipeline))
      ensures r.Success? ==> pos > old(pos) && !r.value.ReturnStmt?
      ensures r.Success? ==> r.value == FoldLeft(first, steps) && StepsAt(steps, LogicalOps)
      ensures r.Success? ==> !IsAny(LegacyBinaryOps) && NoPendingPipeline()
      decreases fuel, 9
    {
      steps := [];
      ghost var f, s;
      var left;
      left, f, s := ParseComparison(fuel);
      if left.Failure? {
        return left, f, steps;
      }
      first := left.value;
      var acc := left.value;
      while IsAny(LogicalOps)
        invariant Moved(old(pos), old(inPipeline)) && pos > old(pos)
        invariant acc == FoldLeft(first, steps) && StepsAt(steps, LogicalOps) && !acc.ReturnStmt?
        invariant !IsAny(ComparisonOps + TermOps + LegacyFactorOps) && NoPendingPipeline()
        decreases |tokens| - pos
      {
        var op := Advance();
        var right;
        right, f, s := ParseComparison(fuel);
        if right.Failure? {
          return right, first, steps;
        }
        FoldLeftSnoc(first, steps, op, right.value, LogicalOps);
        steps := steps + [BinaryStep(op, right.value)];
        acc := Operation(op.line, op.column, op.value, [acc, right.value]);
      }
      return Success(acc), first, steps;
    }

    /** `parse_comparison`: `==`, `!=`, `<`, `>`, `<=`, `>=`, folded to the left. */
    method ParseComparison(fuel: nat) returns (r: Outcome<Node>, ghost first: Node, ghost steps: seq<BinaryStep>)
      requires Valid()
      modifies this
      ensures Moved(old(pos), old(inPipeline))
      ensures r.Success? ==> pos > old(pos) && !r.value.ReturnStmt?
      ensures r.Success? ==> r.value == FoldLeft(first, steps) && StepsAt(steps, ComparisonOps)
      ensures r.Success? ==> !IsAny(ComparisonOps + TermOps + LegacyFactorOps) && NoPendingPipeline()
      decreases fuel, 8
    {
      steps := [];
      ghost var f, s;
      var left;
      left, f, s := ParseTerm(fuel);
      if left.Failure? {
        return left, f, steps;
      }
      first := left.value;
      var acc := left.value;
      while IsAny(ComparisonOps)
        invariant Moved(old(pos), old(inPipeline)) && pos > old(pos)
        invariant acc == FoldLeft(first, steps) && StepsAt(steps, ComparisonOps) && !acc.ReturnStmt?
        invariant !IsAny(TermOps + LegacyFactorOps) && NoPendingPipeline()
        decreases |tokens| - pos
      {
        var op := Advance();
        var right;
        right, f, s := ParseTerm(fuel);
        if right.Failure? {
          return right, first, steps;
        }
        FoldLeftSnoc(first, steps, op, right.value, ComparisonOps);
        steps := steps + [BinaryStep(op, right.value)];
        acc := Operation(op.line, op.column, op.value, [acc, right.value]);
      }
      return Success(acc), first, steps;
    }

    /** `parse_term`: `+` and `-`, folded to the left. */
    method ParseTerm(fuel: nat) returns (r: Outcome<Node>, ghost first: Node, ghost steps: seq<BinaryStep>)
      requires Valid()
      modifies this
      ensures Moved(old(pos), old(inPipeline))
      ensures r.Success? ==> pos > old(pos) && !r.value.ReturnStmt?
      ensures r.Success? ==> r.value == FoldLeft(first, steps) && StepsAt(steps, TermOps)
      ensures r.Success? ==> !IsAny(TermOps + LegacyFactorOps) && NoPendingPipeline()
      decreases fuel, 7
    {
      steps := [];
      ghost var f, s;
      var left;
      left, f, s := ParseFactor(fuel);
      if left.Failure? {
        return left, f, steps;
      }
      first := left.value;
      var acc := left.value;
      while IsAny(TermOps)
        invariant Moved(old(pos), old(inPipeline)) && pos > old(pos)
        invariant acc == FoldLeft(first, steps) && StepsAt(steps, TermOps) && !acc.ReturnStmt?
        invariant !IsAny(LegacyFactorOps) && NoPendingPipeline()
        decreases |tokens| - pos
      {
        var op := Advance();
        var right;
        right, f, s := ParseFactor(fuel);
        if right.Failure? {
          return right, first, steps;
        }
        FoldLeftSnoc(first, steps, op, right.value, TermOps);
        steps := steps + [BinaryStep(op, right.value)];
        acc := Operation(op.line, op.column, op.value, [acc, right.value]);
      }
      return Success(acc), first, steps;
    }

    /** `parse_factor`: `*`, `/` and `%`, folded to the left. A `//` token is not an
        operator here: the expression ends before it. */
    method ParseFactor(fuel: nat) returns (r: Outcome<Node>, ghost first: Node, ghost steps: seq<BinaryStep>)
      requires Valid()
      modifies this
      ensures Moved(old(pos), old(inPipeline))
      ensures r.Success? ==> pos > old(pos) && !r.value.ReturnStmt?
      ensures r.Success? ==> r.value == FoldLeft(first, steps) && StepsAt(steps, LegacyFactorOps)
      ensures r.Success? ==> !IsAny(LegacyFactorOps) && NoPendingPipeline()
      decreases fuel, 6
    {
      steps := [];
      var left := ParseUnary(fuel);
      if left.Failure? {
        return left, BooleanLiteral(0, 0, false), steps;
      }
      first := left.value;
      var acc := left.value;
      while IsAny(LegacyFactorOps)
        invariant Moved(old(pos), old(inPipeline)) && pos > old(pos)
        invariant acc == FoldLeft(first, steps) && StepsAt(steps, LegacyFactorOps) && !acc.ReturnStmt?
        invariant NoPendingPipeline()
        decreases |tokens| - pos
      {
        var op := Advance();
        var right := ParseUnary(fuel);
        if right.Failure? {
          return right, first, steps;
        }
        FoldLeftSnoc(first, steps, op, right.value, LegacyFactorOps);
        steps := steps + [BinaryStep(op, right.value)];
        acc := Operation(op.line, op.column, op.value, [acc, right.value]);
      }
      return Success(acc), first, steps;
    }

    /** `parse_unary`: a prefix `-` or `!` applies to the whole unary expression after it. */
    method ParseUnary(fuel: nat) returns (r: Outcome<Node>)
      requires Valid()
      modifies this
      ensures Moved(old(pos), old(inPipeline))
      ensures r.Success? ==> pos > old(pos) && !r.value.ReturnStmt? && NoPendingPipeline()
      ensures r.Success? && old(IsAny({MINUS, NOT})) ==>
        r.value.Operation? && r.value.operator == old(current).value.value && |r.value.operands| == 1 &&
        r.value.line == old(current).value.line && r.value.column == old(current).value.column
      decreases fuel, 5
    {
      if IsAny({MINUS, NOT}) {
        var op := Advance();
        if fuel == 0 {
          return Failure(Errors.DepthExceeded);
        }
        var operand :- ParseUnary(fuel - 1);
        return Success(Operation(op.line, op.column, op.value, [operand]));
      }
      r := ParsePostfix(fuel);
    }

    /** `parse_postfix`: member access, calls and (outside a chain) pipeline chains, applied
        until none follows. A `[` after an expression is not indexing: it is left where it
        is. */
    method ParsePostfix(fuel: nat) returns (r: Outcome<Node>)
      requires Valid()
      modifies this
      ensures Moved(old(pos), old(inPipeline))
      ensures r.Success? ==> pos > old(pos) && !r.value.ReturnStmt?
      ensures r.Success? ==> !Is(DOT) && !Is(LPAREN) && NoPendingPipeline()
      decreases fuel, 4
    {
      var expr :- ParsePrimary(fuel);
      while true
        invariant Moved(old(pos), old(inPipeline)) && pos > old(pos) && !expr.ReturnStmt?
        decreases |tokens| - pos
      {
        var next :- ParsePostfixStep(expr, fuel);
        if next.None? {
          break;
        }
        expr := next.value;
      }
      return Success(expr);
    }

    /** One round of the `parse_postfix` loop on `expr`; `None` where the loop breaks, which
        is where a `[` stands. */
    method ParsePostfixStep(expr: Node, fuel: nat) returns (r: Outcome<Option<Node>>)
      requires Valid() && !expr.ReturnStmt?
      modifies this
      ensures Moved(old(pos), old(inPipeline))
      ensures r.Success? && r.value.Some? ==>
        pos > old(pos) && !r.value.value.ReturnStmt?
      ensures r.Success? && r.value.None? ==> pos == old(pos) && !Is(DOT) && !Is(LPAREN) && NoPendingPipeline()
      ensures old(Is(LBRACKET)) ==> r == Success(None) && pos == old(pos)
      decreases fuel, 3
    {
      if Is(DOT) {
        var _ := Advance();
        var property :- Expect(IDENTIFIER);
        return Success(Some(MemberAccess(expr.line, expr.column, expr, property.value)));
      } else if Is(LPAREN) {
        var call :- ParseCallArgs(expr, fuel);
        return Success(Some(call));
      } else if Is(PIPE) && !inPipeline && PipelineLookahead() {
        var chain :- ParsePipelineChain(expr, fuel);
        return Success(Some(chain));
      }
      PendingPipelineCheck();
      return Success(None);
    }

    /** `_parse_call_args`: `(arg, ...)` after a callee, located at the callee. */
    method ParseCallArgs(callee: Node, fuel: nat) returns (r: Outcome<Node>)
      requires Valid() && Is(LPAREN)
      modifies this
      ensures Moved(old(pos), old(inPipeline))
      ensures r.Success? ==> (pos > old(pos) && r.value.FunctionCall? && r.value.callee == callee &&
        r.value.line == callee.line && r.value.column == callee.column)
      decreases fuel, 2
    {
      var _ := Advance();
      var arguments :- ParseArguments(fuel);
      return Success(FunctionCall(callee.line, callee.column, callee, arguments));
    }

    /** The argument loop `while not match(RPAREN): parse_expression; skip a comma` and the
        closing `)`, shared by calls, `@name(...)` and `op:`. */
    method ParseArguments(fuel: nat) returns (r: Outcome<seq<Node>>)
      requires Valid()
      modifies this
      ensures Moved(old(pos), old(inPipeline))
      ensures r.Success? ==> pos > old(pos) && tokens[pos - 1].kind == RPAREN
      decreases fuel, 0
    {
      var arguments: seq<Node> := [];
      while !Is(RPAREN)
        invariant Moved(old(pos), old(inPipeline))
        decreases |tokens| - pos
      {
        if fuel == 0 {
          return Failure(Errors.DepthExceeded);
        }
        var arg :- ParseExpression(fuel - 1);
        arguments := arguments + [arg];
        if Is(COMMA) {
          var _ := Advance();
        }
      }
      var close := Advance();
      return Success(arguments);
    }

    /** `_parse_pipeline_chain`: `|filter:`, `|map:` and `|parse:` clauses after `source`,
        parsed with the guard set so that they do not nest; the guard is cleared afterwards,
        also when a clause fails. */
    method ParsePipelineChain(source: Node, fuel: nat) returns (r: Outcome<Node>)
      requires Valid() && !inPipeline && Is(PIPE) && PipelineLookahead()
      modifies this
      ensures Moved(old(pos), false)
      ensures r.Success? ==> (pos > old(pos) && r.value.DataPipeline? && r.value.source == source &&
        r.value.line == source.line && r.value.column == source.column &&
        (forall op :: op in r.value.operations ==> Current.ChainOp(op)) &&
        !(Is(PIPE) && PipelineLookahead()))
      decreases fuel, 2
    {
      inPipeline := true;
      var operations: seq<Node> := [];
      while Is(PIPE) && PipelineLookahead()
        invariant Moved(old(pos), true)
        invariant pos == old(pos) || pos > old(pos) + 1
        invariant forall op :: op in operations ==> Current.ChainOp(op)
        decreases |tokens| - pos
      {
        var _ := Advance();
        var op := ParseChainOp(fuel);
        if op.Failure? {
          inPipeline := false;
          return Failure(op.error);
        }
        operations := operations + [op.value];
      }
      inPipeline := false;
      return Success(DataPipeline(source.line, source.column, source, operations));
    }

    /** `parse_primary`. A token with no branch (such as `for`, `]`, or a keyword other than
        a short `i`/`o`/`v`) is an error at that token. The branches test disjoint kinds, so
        they are grouped here by what follows the token. */
    method ParsePrimary(fuel: nat) returns (r: Outcome<Node>)
      requires Valid()
      modifies this
      ensures Moved(old(pos), old(inPipeline))
      ensures r.Success? ==> pos > old(pos) && !r.value.ReturnStmt?
      ensures old(current).None? ==> r == Failure(Errors.Crash(Current.NoneType))
      ensures old(current).Some? && old(current).value.kind !in PrimaryStarts &&
              !(old(current).value.kind in ShortKeywords && |old(current).value.value| <= 2) ==>
        pos == old(pos) &&
        r == Failure(ErrorHere("Unexpected token in expression: " + KindName(old(current).value.kind), []))
      decreases fuel, 3
    {
      if current.None? {
        return Failure(Errors.Crash(Current.NoneType));
      }
      if IsAny({OP, IF, DATA, API, ASYNC}) {
        r := ParseKeywordPrimary(fuel);
      } else if IsAny({LPAREN, LBRACKET, LBRACE}) {
        r := ParseEnclosed(fuel);
      } else {
        r := ParseAtom(fuel);
      }
    }

    /** The remaining branches of `parse_primary`: numbers, strings, `$name`, `@name(...)`,
        identifiers and short keywords, and the error for any other token. */
    method ParseAtom(fuel: nat) returns (r: Outcome<Node>)
      requires Valid() && current.Some? && !IsAny({OP, IF, DATA, API, ASYNC, LPAREN, LBRACKET, LBRACE})
      modifies this
      ensures Moved(old(pos), old(inPipeline))
      ensures r.Success? ==> pos > old(pos) && !r.value.ReturnStmt?
      ensures old(current).value.kind !in PrimaryStarts &&
              !(old(current).value.kind in ShortKeywords && |old(current).value.value| <= 2) ==>
        pos == old(pos) &&
        r == Failure(ErrorHere("Unexpected token in expression: " + KindName(old(current).value.kind), []))
      ensures old(Is(NUMBER)) && r.Success? ==>
        var t := old(current).value;
        NumberValue(t.value).Some? &&
        (r.value.RangeExpr? <==> old(pos) + 1 < |tokens| && tokens[old(pos) + 1].kind == DOTDOT) &&
        (if r.value.RangeExpr? then r.value.start else r.value) == NumberLiteral(t.line, t.column, NumberValue(t.value).value)
      ensures old(Is(STRING)) ==>
        var t := old(current).value;
        r == Success(StringLiteral(t.line, t.column, t.value, Contains(t.value, "${")))
      decreases fuel, 2
    {
      if Is(NUMBER) {
        r := ParseNumber(fuel);
      } else if Is(STRING) {
        var t := Advance();
        r := Success(StringLiteral(t.line, t.column, t.value, Contains(t.value, "${")));
      } else if Is(DOLLAR) {
        var t := Advance();
        var name :- Expect(IDENTIFIER);
        r := Success(VariableRef(t.line, t.column, name.value));
      } else if Is(AT) {
        r := ParseDirectCall(fuel);
      } else if Is(IDENTIFIER) || (|current.value.value| <= 2 && current.value.kind in ShortKeywords) {
        var t := Advance();
        r := Success(Identifier(t.line, t.column, t.value));
      } else {
        r := Failure(ErrorHere("Unexpected token in expression: " + KindName(current.value.kind), []));
      }
    }

    /** The branches of `parse_primary` that hand over to a statement-like parser: `op:`,
        `if:`, `data:` and `api:`. */
    method ParseKeywordPrimary(fuel: nat) returns (r: Outcome<Node>)
      requires Valid() && IsAny({OP, IF, DATA, API, ASYNC})
      modifies this
      ensures Moved(old(pos), old(inPipeline))
      ensures r.Success? ==> pos > old(pos) && !r.value.ReturnStmt?
      decreases fuel, 2
    {
      if Is(OP) {
        r := ParseOperationExpr(fuel);
        return;
      }
      if fuel == 0 {
        return Failure(Errors.DepthExceeded);
      }
      if Is(IF) {
        ghost var afterCondition;
        r, afterCondition := ParseIf(fuel - 1);
      } else if Is(DATA) {
        ghost var sourceEnd;
        r, sourceEnd := ParseDataPipeline(fuel - 1);
      } else {
        r := ParseApiCall(fuel - 1);
      }
    }

    /** The bracketed branches of `parse_primary`: `(expr)`, `[...]` and `{...}`. */
    method ParseEnclosed(fuel: nat) returns (r: Outcome<Node>)
      requires Valid() && IsAny({LPAREN, LBRACKET, LBRACE})
      modifies this
      ensures Moved(old(pos), old(inPipeline))
      ensures r.Success? ==> pos > old(pos) && !r.value.ReturnStmt?
      ensures old(Is(LBRACKET)) && r.Success? ==> r.value.ArrayLiteral?
      ensures old(Is(LBRACE)) && r.Success? ==> r.value.ObjectLiteral?
      decreases fuel, 2
    {
      if Is(LPAREN) {
        r := ParseParenthesized(fuel);
      } else if Is(LBRACKET) {
        r := ParseArrayLiteral(fuel);
      } else {
        ghost var keyAt;
        r, keyAt := ParseObjectLiteral(fuel);
      }
    }

    /** The number branch of `parse_primary`: `int` or `float` of the lexeme, and a range
        `start..end` when `..` follows, whose end is another primary. */
    method ParseNumber(fuel: nat) returns (r: Outcome<Node>)
      requires Valid() && Is(NUMBER)
      modifies this
      ensures Moved(old(pos), old(inPipeline))
      ensures r.Success? ==> pos > old(pos) && !r.value.ReturnStmt?
      ensures r.Success? ==>
        var t := tokens[old(pos)];
        NumberValue(t.value).Some? &&
        (r.value.RangeExpr? <==> old(pos) + 1 < |tokens| && tokens[old(pos) + 1].kind == DOTDOT) &&
        (if r.value.RangeExpr? then r.value.start else r.value) == NumberLiteral(t.line, t.column, NumberValue(t.value).value)
      decreases fuel, 1
    {
      var t := Advance();
      var number := NumberValue(t.value);
      if number.None? {
        return Failure(Errors.Crash(Current.BadNumber));
      }
      var literal := NumberLiteral(t.line, t.column, number.value);
      if Is(DOTDOT) {
        var _ := Advance();
        if fuel == 0 {
          return Failure(Errors.DepthExceeded);
        }
        var end :- ParsePrimary(fuel - 1);
        return Success(RangeExpr(t.line, t.column, literal, end));
      }
      return Success(literal);
    }

    /** The `@name(args)` branch of `parse_primary`: a call whose callee is an identifier
        located at the `@`. */
    method ParseDirectCall(fuel: nat) returns (r: Outcome<Node>)
      requires Valid() && Is(AT)
      modifies this
      ensures Moved(old(pos), old(inPipeline))
      ensures r.Success? ==> (pos > old(pos) + 3 && r.value.FunctionCall? &&
        r.value.callee == Identifier(tokens[old(pos)].line, tokens[old(pos)].column, tokens[old(pos) + 1].value))
      decreases fuel, 1
    {
      var origin := pos;
      var t := Advance();
      var name :- Expect(IDENTIFIER);
      var open :- Expect(LPAREN);
      assert pos == origin + 3 && t == tokens[origin] && name == tokens[origin + 1];
      var arguments :- ParseArguments(fuel);
      return Success(FunctionCall(t.line, t.column, Identifier(t.line, t.column, name.value), arguments));
    }

    /** The parenthesised branch of `parse_primary`: the inner expression itself, with no node
        of its own. */
    method ParseParenthesized(fuel: nat) returns (r: Outcome<Node>)
      requires Valid() && Is(LPAREN)
      modifies this
      ensures Moved(old(pos), old(inPipeline))
      ensures r.Success? ==> pos > old(pos) + 2 && !r.value.ReturnStmt?
      decreases fuel, 1
    {
      var _ := Advance();
      if fuel == 0 {
        return Failure(Errors.DepthExceeded);
      }
      var inner :- ParseExpression(fuel - 1);
      var close :- Expect(RPAREN);
      return Success(inner);
    }

    /** `parse_operation_expr`: `op:operator(arg, ...)`; any token is taken as the operator. */
    method ParseOperationExpr(fuel: nat) returns (r: Outcome<Node>)
      requires Valid()
      modifies this
      ensures Moved(old(pos), old(inPipeline))
      ensures r.Success? ==> pos > old(pos) + 3 && r.value.Operation? && r.value.operator == tokens[old(pos) + 2].value
      ensures old(pos) + 2 == |tokens| && old(Is(OP)) && tokens[old(pos) + 1].kind == COLON ==>
        r == Failure(Errors.Crash(Current.NoneValue))
      decreases fuel, 1
    {
      var token :- Expect(OP);
      var colon :- Expect(COLON);
      if current.None? {
        return Failure(Errors.Crash(Current.NoneValue));
      }
      var op := Advance();
      var open :- Expect(LPAREN);
      var operands :- ParseArguments(fuel);
      return Success(Operation(token.line, token.column, op.value, operands));
    }

    /** `parse_array_literal`: comma-separated expressions up to `]`, located at the `[`,
        with no comprehension form; a `for` among the elements is an error in
        `parse_primary`. */
    method ParseArrayLiteral(fuel: nat) returns (r: Outcome<Node>)
      requires Valid() && Is(LBRACKET)
      modifies this
      ensures Moved(old(pos), old(inPipeline))
      ensures r.Success? ==> pos > old(pos) + 1 && r.value.ArrayLiteral? && tokens[pos - 1].kind == RBRACKET
      ensures r.Success? ==> r.value.line == tokens[old(pos)].line && r.value.column == tokens[old(pos)].column
      decreases fuel, 1
    {
      var token := Advance();
      var elements :- ParseElements(fuel);
      return Success(ArrayLiteral(token.line, token.column, elements));
    }

    /** The element loop of `parse_array_literal` and its closing `]`. */
    method ParseElements(fuel: nat) returns (r: Outcome<seq<Node>>)
      requires Valid()
      modifies this
      ensures Moved(old(pos), old(inPipeline))
      ensures r.Success? ==> pos > old(pos) && tokens[pos - 1].kind == RBRACKET
      decreases fuel, 0
    {
      var elements: seq<Node> := [];
      while !Is(RBRACKET)
        invariant Moved(old(pos), old(inPipeline))
        decreases |tokens| - pos
      {
        if fuel == 0 {
          return Failure(Errors.DepthExceeded);
        }
        var element :- ParseExpression(fuel - 1);
        elements := elements + [element];
        if Is(COMMA) {
          var _ := Advance();
        }
      }
      var close := Advance();
      return Success(elements);
    }

    /** `parse_object_literal`: `{key:value, ...}`. Every key is the name of an IDENTIFIER
        token (`keyAt` gives their offsets), so a keyword where a key belongs is an error;
        a value starting with `fn` is a function expression. */
    method ParseObjectLiteral(fuel: nat) returns (r: Outcome<Node>, ghost keyAt: seq<nat>)
      requires Valid() && Is(LBRACE)
      modifies this
      ensures Moved(old(pos), old(inPipeline))
      ensures r.Success? ==> pos > old(pos) && r.value.ObjectLiteral? && KeysAt(tokens, keyAt, r.value.pairs, old(pos), pos)
      ensures r.Success? ==> forall p :: p in r.value.pairs ==> !p.value.ReturnStmt?
      ensures old(pos) + 1 < |tokens| && tokens[old(pos) + 1].kind !in {IDENTIFIER, RBRACE} ==> r.Failure?
      decreases fuel, 1
    {
      var origin := pos;
      var token := Advance();
      var pairs: seq<Pair> := [];
      keyAt := [];
      while !Is(RBRACE)
        invariant Moved(origin + 1, old(inPipeline))
        invariant KeysAt(tokens, keyAt, pairs, origin, pos)
        invariant forall p :: p in pairs ==> !p.value.ReturnStmt?
        invariant origin + 1 < |tokens| && tokens[origin + 1].kind !in {IDENTIFIER, RBRACE} ==> pos == origin + 1
        decreases |tokens| - pos
      {
        var at := pos;
        var pair :- ParseObjectPair(fuel);
        if Is(COMMA) {
          var _ := Advance();
        }
        KeysAtSnoc(tokens, keyAt, pairs, origin, at, pos, pair);
        pairs := pairs + [pair];
        keyAt := keyAt + [at];
      }
      var close := Advance();
      return Success(ObjectLiteral(token.line, token.column, pairs)), keyAt;
    }

    /** One `key:value` of `parse_object_literal`: the key must be an IDENTIFIER token. */
    method ParseObjectPair(fuel: nat) returns (r: Outcome<Pair>)
      requires Valid()
      modifies this
      ensures Moved(old(pos), old(inPipeline))
      ensures !old(Is(IDENTIFIER)) ==> r.Failure? && pos == old(pos)
      ensures r.Success? ==> (pos > old(pos) + 2 && tokens[old(pos)].kind == IDENTIFIER &&
        r.value.key == tokens[old(pos)].value && !r.value.value.ReturnStmt?)
      decreases fuel, 0
    {
      var key :- Expect(IDENTIFIER);
      var colon :- Expect(COLON);
      if fuel == 0 {
        return Failure(Errors.DepthExceeded);
      }
      var value: Node;
      if Is(FN) {
        value :- ParseFunctionExpr(fuel - 1);
      } else {
        value :- ParseExpression(fuel - 1);
      }
      return Success(Pair(key.value, value));
    }
  }

  /** The pairs of an object literal read between `lo` and `hi`: each key is the name of
      the IDENTIFIER token at the matching offset. */
  ghost predicate KeysAt(tokens: seq<Token>, keyAt: seq<nat>, pairs: seq<Pair>, lo: int, hi: int) {
    |keyAt| == |pairs| &&
    forall i :: 0 <= i < |keyAt| ==>
      lo < keyAt[i] < hi && keyAt[i] < |tokens| && tokens[keyAt[i]].kind == IDENTIFIER &&
      pairs[i].key == tokens[keyAt[i]].value
  }

  /** One more pair, read at `at`, keeps `KeysAt` with the later bound. */
  lemma KeysAtSnoc(tokens: seq<Token>, keyAt: seq<nat>, pairs: seq<Pair>, lo: int, at: nat, hi: int, pair: Pair)
    requires KeysAt(tokens, keyAt, pairs, lo, at) && lo < at < hi && at < |tokens|
    requires tokens[at].kind == IDENTIFIER && pair.key == tokens[at].value
    ensures KeysAt(tokens, keyAt + [at], pairs + [pair], lo, hi)
  {
  }

  /** `parse(source)` of interpreter/parser.py: tokenize, then parse. The parser made here
      has no source text, so its errors carry an empty source line. */
  method ParseSource(text: string, fuel: nat) returns (r: Outcome<Node>)
    ensures r.Success? ==> r.value.Program? && r.value.line == 1 && r.value.column == 1
  {
    var tokens :- Lexer.TokenizeSource(text);
    var parser := new Parser(tokens, "");
    r := parser.Parse(fuel);
  }
}

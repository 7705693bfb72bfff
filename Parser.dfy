/** The current VL parser (src/vl/parser.py): a recursive-descent parser over a token list
    with a cursor (`pos`, the current token) and the `_in_pipeline` guard.

    Raised `ParseError`s, Python run-time errors the code does not catch, loops that never
    end and exhausted recursion are all `Failure` outcomes. Every method takes `fuel`, which
    stands for Python's recursion limit: a call that would recurse with no fuel left fails
    with `DepthExceeded`. A statement loop whose round leaves the cursor where it was would
    repeat that round forever (nothing else in the parser's state changes), so it fails
    with `Diverges`. */
module Parser {
  import opened Wrappers
  import opened Strings
  import opened Tokens
  import opened Ast
  import opened ParserSupport
  import Errors
  import Lexer

  type Outcome<T> = Result<T, Errors.Failure>

  /** `max_loops` of the top-level statement loop. */
  const MaxTopLevel := 1000
  /** `max_ops` of a `data:` pipeline. */
  const MaxDataOps := 100

  /** The Python errors raised when a `None` current token is used as a token. */
  const NoneType := "AttributeError: 'NoneType' object has no attribute 'type'"
  const NoneValue := "AttributeError: 'NoneType' object has no attribute 'value'"
  const NoneLine := "AttributeError: 'NoneType' object has no attribute 'line'"
  /** The Python error raised by `int(...)` or `float(...)` on a malformed number lexeme. */
  const BadNumber := "ValueError: could not convert the number literal"

  const BadIdentifierMessage :=
    "Unexpected identifier pattern - identifier not followed by assignment, subscript, member access, or call"

  /** The kinds `parse_type` accepts. */
  const TypeKinds: set<TokenType> :=
    {TYPE_INT, TYPE_FLOAT, TYPE_STR, TYPE_BOOL, TYPE_ARR, TYPE_OBJ, TYPE_ANY, TYPE_VOID,
     TYPE_PROMISE, TYPE_FUNC, TYPE_MAP, TYPE_SET}

  /** The stop tokens of a top-level function body and of a function inside an object. */
  const DefinitionStops: set<TokenType> := {EOF, EXPORT, FN, META, DEPS}
  const ExpressionStops: set<TokenType> := {EOF, RBRACE, COMMA}

  /** The tokens that end a `for` or `while` body before any statement is parsed. */
  const LoopEnders: set<TokenType> := {RET, FN, META, DEPS, EXPORT}

  /** The type names accepted as object keys besides identifiers. */
  const KeywordKeys: set<string> :=
    {"INPUT", "OUTPUT", "FN", "META", "VAR", "FOR", "WHILE", "IF", "ELSE", "RET", "EXPORT", "CALL", "OP", "PY"}

  /** Every binary operator, lowest level first. */
  const BinaryOps: set<TokenType> := LogicalOps + ComparisonOps + TermOps + FactorOps

  /** What `_parse_function_common` returns. */
  datatype FunctionParts = FunctionParts(token: Token, name: string, inputs: seq<Type>, output: Type, body: seq<Node>)

  /** A data operation `_parse_pipeline_chain` and `parse_api_call` may build. */
  predicate ChainOp(n: Node) {
    n.FilterOp? || n.MapOp? || n.ParseOp?
  }

  /** A data operation the `data:` loop may build. */
  predicate DataOp(n: Node) {
    n.FilterOp? || n.MapOp? || n.GroupByOp? || n.AggregateOp? || n.SortOp?
  }

  class Parser {
    const tokens: seq<Token>
    const source: string
    var pos: nat
    var current: Option<Token>
    var inPipeline: bool

    /** The current token is the one at `pos`, or none past the end. */
    ghost predicate Valid()
      reads this
    {
      pos <= |tokens| && current == TokenAt(tokens, pos)
    }

    /** The cursor has not moved back and the pipeline guard is as it was. */
    ghost predicate Moved(p0: nat, flag: bool)
      reads this
    {
      Valid() && p0 <= pos && inPipeline == flag
    }

    constructor(tokens: seq<Token>, source: string)
      ensures Valid() && this.tokens == tokens && this.source == source
      ensures pos == 0 && !inPipeline
      ensures current == (if tokens == [] then None else Some(tokens[0]))
    {
      this.tokens := tokens;
      this.source := source;
      pos := 0;
      current := if tokens == [] then None else Some(tokens[0]);
      inPipeline := false;
    }

    // ----- Cursor helpers -----

    /** `error`: a `ParseError` at the current token, or at 1:1 with no source line. */
    function ErrorHere(message: string, hints: seq<string>): Errors.Failure
      reads this
    {
      ErrorAt(source, current, message, hints)
    }

    /** `peek(offset)`. */
    function Peek(offset: nat): Option<Token>
      reads this
    {
      TokenAt(tokens, pos + offset)
    }

    /** `match(k)`. */
    predicate Is(k: TokenType)
      reads this
    {
      current.Some? && current.value.kind == k
    }

    /** `match(*kinds)`. */
    predicate IsAny(kinds: set<TokenType>)
      reads this
    {
      current.Some? && current.value.kind in kinds
    }

    /** `_is_pipeline_lookahead`. */
    predicate PipelineLookahead()
      reads this
    {
      Peek(1).Some? && Peek(1).value.kind in PipelineOps
    }

    /** A postfix `|` that would start a pipeline chain is not waiting at the cursor. */
    predicate NoPendingPipeline()
      reads this
    {
      inPipeline || !PipelineStartsAt(tokens, pos)
    }

    /** The test `parse_postfix` makes before a pipeline chain, in terms of the token list. */
    lemma PendingPipelineCheck()
      requires Valid()
      ensures NoPendingPipeline() <==> !(Is(PIPE) && !inPipeline && PipelineLookahead())
    {
    }

    /** `advance`, where a current token exists. */
    method Advance() returns (t: Token)
      requires Valid() && current.Some?
      modifies this
      ensures Valid() && pos == old(pos) + 1 && inPipeline == old(inPipeline)
      ensures t == old(current).value && t == tokens[old(pos)]
    {
      t := current.value;
      pos := pos + 1;
      current := TokenAt(tokens, pos);
    }

    /** Moves the cursor forward to offset `p`, as a run of `advance` calls would. */
    method Seek(p: nat)
      requires Valid() && pos <= p <= |tokens|
      modifies this
      ensures Valid() && pos == p && inPipeline == old(inPipeline)
    {
      pos := p;
      current := TokenAt(tokens, pos);
    }

    /** `expect(k)`. */
    method Expect(k: TokenType) returns (r: Outcome<Token>)
      requires Valid()
      modifies this
      ensures Valid() && inPipeline == old(inPipeline)
      ensures r.Success? <==> old(Is(k))
      ensures r.Success? ==> pos == old(pos) + 1 && r.value == old(current).value && r.value == tokens[old(pos)]
      ensures r.Failure? ==> pos == old(pos) && r.error.Raised?
    {
      if Is(k) {
        var t := Advance();
        return Success(t);
      }
      return Failure(ExpectFailure(source, current, k));
    }


    /** `skip_newlines`. */
    method SkipNewlines()
      requires Valid()
      modifies this
      ensures Moved(old(pos), old(inPipeline)) && !Is(NEWLINE)
      ensures forall i :: old(pos) <= i < pos ==> tokens[i].kind == NEWLINE
    {
      while Is(NEWLINE)
        invariant Moved(old(pos), old(inPipeline))
        invariant forall i :: old(pos) <= i < pos ==> tokens[i].kind == NEWLINE
        decreases |tokens| - pos
      {
        var _ := Advance();
      }
    }

    // ----- Program -----

    /** `parse`: optional metadata, optional dependencies, statements, optional export. */
    method Parse(fuel: nat) returns (r: Outcome<Node>)
      requires Valid()
      modifies this
      ensures Moved(old(pos), old(inPipeline))
      ensures r.Success? ==> r.value.Program? && r.value.line == 1 && r.value.column == 1
      ensures r.Success? ==> |r.value.statements| <= MaxTopLevel
      ensures r.Success? ==> (r.value.metadata.Some? ==> r.value.metadata.value.Metadata?) &&
                             (r.value.dependencies.Some? ==> r.value.dependencies.value.Dependencies?) &&
                             (r.value.exportDecl.Some? ==> r.value.exportDecl.value.Export?)
      ensures r.Success? && r.value.exportDecl.None? ==> !Is(EXPORT)
      decreases fuel, 40
    {
      SkipNewlines();
      var metadata: Option<Node> := None;
      if Is(META) {
        var m :- ParseMetadata();
        metadata := Some(m);
        SkipNewlines();
      }
      var dependencies: Option<Node> := None;
      if Is(DEPS) {
        var d :- ParseDependencies();
        dependencies := Some(d);
        SkipNewlines();
      }
      var statements: seq<Node> := [];
      var loopCount := 0;
      while current.Some? && current.value.kind !in {EXPORT, EOF} && loopCount < MaxTopLevel
        invariant Moved(old(pos), old(inPipeline))
        invariant loopCount <= MaxTopLevel && |statements| <= loopCount
        decreases MaxTopLevel - loopCount
      {
        loopCount := loopCount + 1;
        if Is(NEWLINE) {
          SkipNewlines();
          continue;
        }
        if Is(PIPE) {
          var _ := Advance();
          continue;
        }
        var stmt :- ParseStatement(fuel);
        if stmt.Some? {
          statements := statements + [stmt.value];
        }
        SkipNewlines();
      }
      var exportDecl: Option<Node> := None;
      if Is(EXPORT) {
        var e :- ParseExport();
        exportDecl := Some(e);
      }
      return Success(Program(1, 1, metadata, dependencies, statements, exportDecl));
    }

    /** `parse_metadata`: `meta:name,type,target`. */
    method ParseMetadata() returns (r: Outcome<Node>)
      requires Valid()
      modifies this
      ensures Moved(old(pos), old(inPipeline))
      ensures r.Success? ==> (pos == old(pos) + 7 && r.value.Metadata? &&
        r.value.name == tokens[old(pos) + 2].value && r.value.programType == tokens[old(pos) + 4].value &&
        r.value.targetLanguage == tokens[old(pos) + 6].value)
    {
      var token :- Expect(META);
      var colon :- Expect(COLON);
      var name :- Expect(IDENTIFIER);
      var comma1 :- Expect(COMMA);
      var programType :- Expect(IDENTIFIER);
      var comma2 :- Expect(COMMA);
      var target :- Expect(IDENTIFIER);
      return Success(Metadata(token.line, token.column, name.value, programType.value, target.value));
    }

    /** `parse_dependencies`: `deps:lib` or `deps:[lib1,lib2]`. */
    method ParseDependencies() returns (r: Outcome<Node>)
      requires Valid()
      modifies this
      ensures Moved(old(pos), old(inPipeline))
      ensures r.Success? ==> r.value.Dependencies? && old(pos) + 3 <= pos
      ensures r.Success? && tokens[old(pos) + 2].kind != LBRACKET ==>
        r.value.deps == [tokens[old(pos) + 2].value] && pos == old(pos) + 3
    {
      var origin := pos;
      var token :- Expect(DEPS);
      var colon :- Expect(COLON);
      assert pos == origin + 2;
      var deps: seq<string>;
      if Is(LBRACKET) {
        deps :- ParseDependencyList();
      } else {
        var d :- Expect(IDENTIFIER);
        deps := [d.value];
      }
      return Success(Dependencies(token.line, token.column, deps));
    }

    /** The bracketed form of `parse_dependencies`: identifiers, each optionally followed by
        a comma, up to `]`. */
    method ParseDependencyList() returns (r: Outcome<seq<string>>)
      requires Valid() && Is(LBRACKET)
      modifies this
      ensures Moved(old(pos), old(inPipeline))
      ensures r.Success? ==> pos >= old(pos) + 2
    {
      var origin := pos;
      var _ := Advance();
      var deps: seq<string> := [];
      while !Is(RBRACKET)
        invariant Moved(origin + 1, old(inPipeline))
        decreases |tokens| - pos
      {
        var d :- Expect(IDENTIFIER);
        deps := deps + [d.value];
        if Is(COMMA) {
          var _ := Advance();
        }
      }
      var _ := Advance();
      return Success(deps);
    }

    /** `parse_export`: `export:name`. */
    method ParseExport() returns (r: Outcome<Node>)
      requires Valid()
      modifies this
      ensures Moved(old(pos), old(inPipeline))
      ensures r.Success? ==> pos == old(pos) + 3 && r.value == Export(tokens[old(pos)].line, tokens[old(pos)].column, tokens[old(pos) + 2].value)
    {
      var origin := pos;
      var token :- Expect(EXPORT);
      var colon :- Expect(COLON);
      var name :- Expect(IDENTIFIER);
      assert pos == origin + 3 && token == tokens[origin] && name == tokens[origin + 2];
      return Success(Export(token.line, token.column, name.value));
    }

    // ----- Statements -----

    /** `parse_statement`: chooses a parser by the current token and, for an identifier,
        by the next one. `None` means no statement was produced. */
    method ParseStatement(fuel: nat) returns (r: Outcome<Option<Node>>)
      requires Valid()
      modifies this
      ensures Moved(old(pos), old(inPipeline))
      ensures RouteOf(old(current), old(Peek(1))) == NoStatement ==> r == Success(None) && pos == old(pos)
      ensures RouteOf(old(current), old(Peek(1))) == BadIdentifierRoute ==>
        r == Failure(ErrorHere(BadIdentifierMessage, [])) && pos == old(pos)
      ensures RouteOf(old(current), old(Peek(1))) == UnexpectedRoute ==>
        pos == old(pos) && r == Failure(ErrorHere("Unexpected token: " + KindName(old(current).value.kind), []))
      ensures r.Success? && r.value.None? ==> RouteOf(old(current), old(Peek(1))) in {NoStatement, DecoratedRoute}
      ensures r.Success? && RouteOf(old(current), old(Peek(1))) == AssignRoute ==>
        r.value.Some? && (r.value.value.VariableDef? || r.value.value.CompoundAssignment?)
      ensures r.Success? && RouteOf(old(current), old(Peek(1))) == TargetFirstRoute ==>
        r.value.Some? && (r.value.value.VariableDef? || r.value.value.CompoundAssignment? || r.value.value.DirectCall?)
      ensures r.Success? && RouteOf(old(current), old(Peek(1))) == CallRoute ==> r.value.Some? && r.value.value.DirectCall?
      ensures RouteOf(old(current), old(Peek(1))) == AssignRoute && old(current).value.kind == SELF ==> r.Failure?
      ensures r.Success? && r.value.Some? ==> pos > old(pos)
      ensures r.Success? && r.value.None? && pos == old(pos) ==> old(current).None? || old(current).value.kind == ELSE
      decreases fuel, 33
    {
      var route := RouteOf(current, Peek(1));
      if route == NoStatement {
        return Success(None);
      } else if route in {DecoratedRoute, ClassRoute, FunctionRoute, VariableRoute} {
        r := ParseDefinitionStatement(route, fuel);
      } else if route in {AssignRoute, TargetFirstRoute, CallRoute, BadIdentifierRoute} {
        var s :- ParseIdentifierStatement(route, fuel);
        return Success(Some(s));
      } else {
        var s :- ParseKeywordStatement(route, fuel);
        return Success(Some(s));
      }
    }

    /** The definition branches of `parse_statement`: a decorated definition, `class`, `fn`
        and `var`. */
    method ParseDefinitionStatement(route: Route, fuel: nat) returns (r: Outcome<Option<Node>>)
      requires Valid() && route == RouteOf(current, Peek(1))
      requires route in {DecoratedRoute, ClassRoute, FunctionRoute, VariableRoute}
      modifies this
      ensures Moved(old(pos), old(inPipeline))
      ensures r.Success? ==> pos > old(pos)
      ensures r.Success? && r.value.None? ==> route == DecoratedRoute
      decreases fuel, 32
    {
      if route == DecoratedRoute {
        r := ParseDecorated(fuel);
      } else if route == ClassRoute {
        var c :- ParseClassDef(fuel);
        return Success(Some(c));
      } else if route == FunctionRoute {
        var f :- ParseFunctionDef(fuel);
        return Success(Some(f));
      } else {
        var v :- ParseVariableDef(fuel);
        return Success(Some(v));
      }
    }

    /** The identifier branches of `parse_statement`, chosen by the token after the name. */
    method ParseIdentifierStatement(route: Route, fuel: nat) returns (r: Outcome<Node>)
      requires Valid() && route == RouteOf(current, Peek(1))
      requires route in {AssignRoute, TargetFirstRoute, CallRoute, BadIdentifierRoute}
      modifies this
      ensures Moved(old(pos), old(inPipeline))
      ensures r.Success? ==> pos > old(pos)
      ensures route == BadIdentifierRoute ==> r == Failure(ErrorHere(BadIdentifierMessage, [])) && pos == old(pos)
      ensures r.Success? && route == AssignRoute ==> r.value.VariableDef? || r.value.CompoundAssignment?
      ensures r.Success? && route == TargetFirstRoute ==>
        r.value.VariableDef? || r.value.CompoundAssignment? || r.value.DirectCall?
      ensures r.Success? && route == CallRoute ==> r.value.DirectCall?
      ensures route == AssignRoute && old(current).value.kind == SELF ==> r.Failure?
      decreases fuel, 31
    {
      if route == AssignRoute {
        r := ParseImplicitAssignment(fuel);
      } else if route == TargetFirstRoute {
        r := ParseTargetFirst(fuel);
      } else if route == CallRoute {
        r := ParseImplicitCall(fuel);
      } else {
        r := Failure(ErrorHere(BadIdentifierMessage, []));
      }
    }

    /** The keyword branches of `parse_statement`, from `ret` to `py`, and the error for a
        token that starts no statement. */
    method ParseKeywordStatement(route: Route, fuel: nat) returns (r: Outcome<Node>)
      requires Valid() && route == RouteOf(current, Peek(1))
      requires route in {ReturnRoute, IfRoute, ForRoute, WhileRoute, ApiRoute, UiRoute, DataRoute,
                         FileRoute, PythonRoute, UnexpectedRoute}
      modifies this
      ensures Moved(old(pos), old(inPipeline))
      ensures r.Success? ==> pos > old(pos)
      ensures route == UnexpectedRoute ==>
        pos == old(pos) && r == Failure(ErrorHere("Unexpected token: " + KindName(old(current).value.kind), []))
      decreases fuel, 31
    {
      if route == ReturnRoute {
        r := ParseReturn(fuel);
      } else if route == IfRoute {
        ghost var afterCondition;
        r, afterCondition := ParseIf(fuel);
      } else if route == ForRoute {
        r := ParseFor(fuel);
      } else if route == WhileRoute {
        r := ParseWhile(fuel);
      } else if route == ApiRoute {
        r := ParseApiCall(fuel);
      } else if route == UiRoute {
        r := ParseUiComponent(fuel);
      } else if route == DataRoute {
        ghost var sourceEnd;
        r, sourceEnd := ParseDataPipeline(fuel);
      } else if route == FileRoute {
        r := ParseFileOperation(fuel);
      } else if route == PythonRoute {
        r := ParsePythonStmt();
      } else {
        r := Failure(ErrorHere("Unexpected token: " + KindName(current.value.kind), []));
      }
    }

    /** The `name[...]` / `name.x` branch of `parse_statement`: the whole left-hand side is
        parsed as an expression first; an assignment operator after it makes the statement
        an assignment to `_expr_to_string` of that expression, otherwise it is a call. */
    method ParseTargetFirst(fuel: nat) returns (r: Outcome<Node>)
      requires Valid()
      modifies this
      ensures Moved(old(pos), old(inPipeline))
      ensures r.Success? ==> pos > old(pos)
      ensures r.Success? ==> r.value.VariableDef? || r.value.CompoundAssignment? || r.value.DirectCall?
      ensures r.Success? && r.value.VariableDef? ==> r.value.typeAnnotation.None?
      decreases fuel, 21
    {
      var expr :- ParseExpression(fuel);
      if IsAny(AssignOps) {
        var op := Advance();
        var value :- ParseExpression(fuel);
        if op.kind == EQUALS {
          return Success(VariableDef(expr.line, expr.column, ExprToString(expr), None, value));
        }
        return Success(CompoundAssignment(expr.line, expr.column, ExprToString(expr), CompoundOperator(op.kind), value));
      }
      return Success(DirectCall(expr.line, expr.column, expr));
    }

    /** `parse_decorated_statement`: one or more `@name.path(args)` lines, then a function or
        class definition that receives them. Anything else yields no statement (the error
        the source builds there is never raised). Both callers enter it at an `@`. */
    method ParseDecorated(fuel: nat) returns (r: Outcome<Option<Node>>)
      requires Valid() && Is(AT)
      modifies this
      ensures Moved(old(pos), old(inPipeline))
      ensures r.Success? ==> pos > old(pos)
      ensures r.Success? && r.value.Some? ==>
        (r.value.value.FunctionDef? || r.value.value.ClassDef?) &&
        r.value.value.decorators.Some? && |r.value.value.decorators.value| >= 1 &&
        forall d :: d in r.value.value.decorators.value ==> d.Decorator?
      decreases fuel, 31
    {
      var decorators: seq<Node> := [];
      while Is(AT)
        invariant Moved(old(pos), old(inPipeline))
        invariant forall d :: d in decorators ==> d.Decorator?
        invariant |decorators| == 0 ==> pos == old(pos) && Is(AT)
        invariant |decorators| >= 1 ==> pos > old(pos)
        decreases |tokens| - pos
      {
        var d :- ParseDecorator(fuel);
        decorators := decorators + [d];
      }
      if Is(FN) {
        var f :- ParseFunctionDef(fuel);
        return Success(Some(FunctionDef(f.line, f.column, f.name, f.inputTypes, f.outputType, f.body, Some(decorators))));
      } else if Is(CLASS) {
        var c :- ParseClassDef(fuel);
        return Success(Some(ClassDef(c.line, c.column, c.name, c.baseClasses, c.methods, c.attributes, Some(decorators))));
      }
      return Success(None);
    }

    /** One round of the decorator loop of `parse_decorated_statement`: `@`, a dotted name,
        optional arguments in parentheses, then any newlines. */
    method ParseDecorator(fuel: nat) returns (r: Outcome<Node>)
      requires Valid() && Is(AT)
      modifies this
      ensures Moved(old(pos), old(inPipeline))
      ensures r.Success? ==> pos > old(pos) && r.value.Decorator?
      ensures r.Success? ==> r.value.line == tokens[old(pos)].line && r.value.column == tokens[old(pos)].column
      decreases fuel, 11
    {
      var at := Advance();
      var first :- Expect(IDENTIFIER);
      var parts := [first.value];
      while Is(DOT)
        invariant Moved(old(pos), old(inPipeline))
        decreases |tokens| - pos
      {
        var _ := Advance();
        var part :- Expect(IDENTIFIER);
        parts := parts + [part.value];
      }
      var args: Option<seq<Node>> := None;
      if Is(LPAREN) {
        var _ := Advance();
        var list: seq<Node> := [];
        while current.Some? && current.value.kind != RPAREN
          invariant Moved(old(pos), old(inPipeline))
          decreases |tokens| - pos
        {
          var arg :- ParseExpression(fuel);
          list := list + [arg];
          if Is(COMMA) {
            var _ := Advance();
          }
        }
        var close :- Expect(RPAREN);
        args := Some(list);
      }
      SkipNewlines();
      return Success(Decorator(at.line, at.column, Join(parts, "."), args));
    }

    /** `parse_class_def`: `class:name[bases]`, a newline, then indented methods and attributes. */
    method ParseClassDef(fuel: nat) returns (r: Outcome<Node>)
      requires Valid()
      modifies this
      ensures Moved(old(pos), old(inPipeline))
      ensures r.Success? ==> pos > old(pos) && r.value.ClassDef? && r.value.decorators.None?
      ensures r.Success? ==> old(pos) + 3 <= pos && r.value.name == tokens[old(pos) + 2].value
      ensures r.Success? ==> (r.value.baseClasses.Some? ==> r.value.baseClasses.value != []) &&
                             (r.value.methods.Some? ==> (r.value.methods.value != [] &&
                                forall m :: m in r.value.methods.value ==> m.FunctionDef?)) &&
                             (r.value.attributes.Some? ==> r.value.attributes.value != [])
      ensures r.Success? ==> current.None? || current.value.column <= 1 || current.value.kind !in {AT, FN, VAR, IDENTIFIER}
      decreases fuel, 30
    {
      var token :- Expect(CLASS);
      var colon :- Expect(COLON);
      var name :- Expect(IDENTIFIER);
      assert name == tokens[old(pos) + 2];
      var bases: seq<string> := [];
      if Is(LBRACKET) {
        bases :- ParseBaseClasses();
      }
      var newline :- Expect(NEWLINE);
      var members :- ParseClassMembers(fuel);
      var methods := members.0;
      var attributes := members.1;
      return Success(ClassDef(token.line, token.column, name.value,
                              if bases == [] then None else Some(bases),
                              if methods == [] then None else Some(methods),
                              if attributes == [] then None else Some(attributes),
                              None));
    }

    /** The optional `[Base, ...]` of `parse_class_def`. */
    method ParseBaseClasses() returns (r: Outcome<seq<string>>)
      requires Valid() && Is(LBRACKET)
      modifies this
      ensures Moved(old(pos), old(inPipeline))
      ensures r.Success? ==> pos > old(pos)
    {
      var _ := Advance();
      var bases: seq<string> := [];
      while current.Some? && current.value.kind != RBRACKET
        invariant Moved(old(pos) + 1, old(inPipeline))
        decreases |tokens| - pos
      {
        var b :- Expect(IDENTIFIER);
        bases := bases + [b.value];
        if Is(COMMA) {
          var _ := Advance();
        }
      }
      var close :- Expect(RBRACKET);
      return Success(bases);
    }

    /** The member loop of `parse_class_def`: while the current token is indented, a decorated
        or plain `fn` is a method and a `var` or implicit assignment an attribute; a decorated
        statement that is not a function is dropped. */
    method ParseClassMembers(fuel: nat) returns (r: Outcome<(seq<Node>, seq<Node>)>)
      requires Valid()
      modifies this
      ensures Moved(old(pos), old(inPipeline))
      ensures r.Success? ==> forall m :: m in r.value.0 ==> m.FunctionDef?
      ensures r.Success? ==> current.None? || current.value.column <= 1 || current.value.kind !in {AT, FN, VAR, IDENTIFIER}
      decreases fuel, 29
    {
      var methods: seq<Node> := [];
      var attributes: seq<Node> := [];
      while current.Some? && current.value.column > 1
        invariant Moved(old(pos), old(inPipeline))
        invariant forall m :: m in methods ==> m.FunctionDef?
        decreases |tokens| - pos
      {
        if Is(AT) {
          if fuel == 0 {
            return Failure(Errors.DepthExceeded);
          }
          var m :- ParseDecorated(fuel - 1);
          if m.Some? && m.value.FunctionDef? {
            methods := methods + [m.value];
          }
        } else if Is(FN) {
          var f :- ParseFunctionDef(fuel);
          methods := methods + [f];
        } else if Is(VAR) {
          var v :- ParseVariableDef(fuel);
          attributes := attributes + [v];
        } else if Is(IDENTIFIER) {
          var a :- ParseImplicitAssignment(fuel);
          attributes := attributes + [a];
        } else {
          break;
        }
        SkipNewlines();
      }
      return Success((methods, attributes));
    }

    /** `parse_function_def`. */
    method ParseFunctionDef(fuel: nat) returns (r: Outcome<Node>)
      requires Valid()
      modifies this
      ensures Moved(old(pos), old(inPipeline))
      ensures r.Success? ==> pos > old(pos) + 6 && r.value.FunctionDef? && r.value.decorators.None?
      ensures r.Success? ==> r.value.name == tokens[old(pos) + 2].value
      ensures r.Success? ==> (tokens[old(pos) + 6].kind == PIPE <==> r.value.inputTypes == [])
      decreases fuel, 27
    {
      var parts :- ParseFunctionCommon(DefinitionStops, fuel);
      return Success(FunctionDef(parts.token.line, parts.token.column, parts.name, parts.inputs, parts.output, parts.body));
    }

    /** `parse_function_expr`: a function written as an object value. */
    method ParseFunctionExpr(fuel: nat) returns (r: Outcome<Node>)
      requires Valid()
      modifies this
      ensures Moved(old(pos), old(inPipeline))
      ensures r.Success? ==> pos > old(pos) + 6 && r.value.FunctionExpr?
      ensures r.Success? ==> r.value.name == tokens[old(pos) + 2].value
      ensures r.Success? ==> (tokens[old(pos) + 6].kind == PIPE <==> r.value.inputTypes == [])
      decreases fuel, 27
    {
      var parts :- ParseFunctionCommon(ExpressionStops, fuel);
      return Success(FunctionExpr(parts.token.line, parts.token.column, parts.name, parts.inputs, parts.output, parts.body));
    }

    /** `_parse_function_common`: `fn:name|i:types|o:type|body`. An input list that is
        immediately closed by `|` is empty; otherwise it has at least one type. */
    method ParseFunctionCommon(stops: set<TokenType>, fuel: nat) returns (r: Outcome<FunctionParts>)
      requires Valid()
      modifies this
      ensures Moved(old(pos), old(inPipeline))
      ensures r.Success? ==> pos > old(pos) + 6 && r.value.token == tokens[old(pos)]
      ensures r.Success? ==> r.value.name == tokens[old(pos) + 2].value
      ensures r.Success? ==> (tokens[old(pos) + 6].kind == PIPE <==> r.value.inputs == [])
      decreases fuel, 26
    {
      var signature :- ParseSignature();
      var body :- ParseFunctionBody(stops, fuel);
      return Success(FunctionParts(signature.token, signature.name, signature.inputs, signature.output, body));
    }

    /** The part of `_parse_function_common` before the body: name, inputs and output type,
        each section closed by `|`. */
    method ParseSignature() returns (r: Outcome<FunctionParts>)
      requires Valid()
      modifies this
      ensures Moved(old(pos), old(inPipeline))
      ensures r.Success? ==> pos > old(pos) + 6 && r.value.token == tokens[old(pos)] && r.value.body == []
      ensures r.Success? ==> r.value.name == tokens[old(pos) + 2].value
      ensures r.Success? ==> (tokens[old(pos) + 6].kind == PIPE <==> r.value.inputs == [])
    {
      var origin := pos;
      var token :- Expect(FN);
      var colon :- Expect(COLON);
      var name :- Expect(IDENTIFIER);
      var pipe1 :- Expect(PIPE);
      var input :- Expect(INPUT);
      var colon2 :- Expect(COLON);
      assert pos == origin + 6 && token == tokens[origin] && name == tokens[origin + 2];
      var inputs :- ParseInputs();
      var output :- Expect(OUTPUT);
      var colon3 :- Expect(COLON);
      var outputType :- ParseType();
      var pipe3 :- Expect(PIPE);
      return Success(FunctionParts(token, name.value, inputs, outputType, []));
    }

    /** The input section of `_parse_function_common` after `i:`: no types when `|` follows at
        once, otherwise a type list; then the closing `|`. */
    method ParseInputs() returns (r: Outcome<seq<Type>>)
      requires Valid()
      modifies this
      ensures Moved(old(pos), old(inPipeline))
      ensures r.Success? ==> pos > old(pos) && (tokens[old(pos)].kind == PIPE <==> r.value == [])
    {
      var inputs: seq<Type> := [];
      if !Is(PIPE) {
        inputs :- ParseTypeList();
      }
      var pipe :- Expect(PIPE);
      return Success(inputs);
    }

    /** `_parse_function_body`: statements until a stop token, or until a newline brings the
        next token back to column 1. Separator pipes are consumed, pipeline pipes are not. */
    method ParseFunctionBody(stops: set<TokenType>, fuel: nat) returns (r: Outcome<seq<Node>>)
      requires Valid()
      modifies this
      ensures Moved(old(pos), old(inPipeline))
      ensures r.Success? ==> (current.None? || current.value.kind in stops ||
        (current.value.column == 1 && pos > old(pos) && tokens[pos - 1].kind == NEWLINE))
      decreases fuel, 25
    {
      var body: seq<Node> := [];
      while current.Some? && current.value.kind !in stops
        invariant Moved(old(pos), old(inPipeline))
        decreases |tokens| - pos
      {
        var start := pos;
        if Is(NEWLINE) {
          SkipNewlines();
          if current.Some? && current.value.column == 1 {
            return Success(body);
          }
          continue;
        }
        if fuel == 0 {
          return Failure(Errors.DepthExceeded);
        }
        var stmt :- ParseStatement(fuel - 1);
        if stmt.Some? {
          body := body + [stmt.value];
        }
        if Is(PIPE) && !PipelineLookahead() {
          var _ := Advance();
        }
        if pos == start {
          return Failure(Errors.Diverges);
        }
      }
      return Success(body);
    }

    /** `parse_type_list`: one or more types separated by commas. */
    method ParseTypeList() returns (r: Outcome<seq<Type>>)
      requires Valid()
      modifies this
      ensures Moved(old(pos), old(inPipeline))
      ensures r.Success? ==> |r.value| >= 1 && pos > old(pos) && !Is(COMMA)
    {
      var first :- ParseType();
      var types := [first];
      while Is(COMMA)
        invariant Moved(old(pos), old(inPipeline)) && pos > old(pos) && |types| >= 1
        decreases |tokens| - pos
      {
        var _ := Advance();
        var t :- ParseType();
        types := types + [t];
      }
      return Success(types);
    }

    /** `parse_type`: one of the twelve type tokens, by its lexeme. */
    method ParseType() returns (r: Outcome<Type>)
      requires Valid()
      modifies this
      ensures Valid() && inPipeline == old(inPipeline)
      ensures r.Success? <==> old(IsAny(TypeKinds))
      ensures r.Success? ==> (pos == old(pos) + 1 &&
        r.value == Type(old(current).value.line, old(current).value.column, old(current).value.value))
      ensures r.Failure? ==> pos == old(pos)
      ensures old(current).None? ==> r == Failure(Errors.Crash(NoneType))
    {
      if current.None? {
        return Failure(Errors.Crash(NoneType));
      }
      if IsAny(TypeKinds) {
        var t := Advance();
        return Success(Type(t.line, t.column, t.value));
      }
      return Failure(ErrorHere("Expected type, got " + KindName(current.value.kind), []));
    }

    /** `parse_implicit_variable_or_compound`: `name=value` or `name op= value`. */
    method ParseImplicitAssignment(fuel: nat) returns (r: Outcome<Node>)
      requires Valid()
      modifies this
      ensures Moved(old(pos), old(inPipeline))
      ensures r.Success? ==> pos > old(pos) + 1 && old(Is(IDENTIFIER))
      ensures r.Success? ==> ((r.value.CompoundAssignment? || r.value.VariableDef?) &&
        r.value.name == tokens[old(pos)].value &&
        r.value.line == tokens[old(pos)].line && r.value.column == tokens[old(pos)].column)
      ensures r.Success? ==> (r.value.CompoundAssignment? <==> tokens[old(pos) + 1].kind in AssignOps - {EQUALS})
      ensures r.Success? && r.value.CompoundAssignment? ==> r.value.operator == CompoundOperator(tokens[old(pos) + 1].kind)
      ensures r.Success? && r.value.VariableDef? ==> r.value.typeAnnotation.None?
      decreases fuel, 20
    {
      var token :- Expect(IDENTIFIER);
      if IsAny(AssignOps - {EQUALS}) {
        r := ParseCompoundAssignment(token, fuel);
      } else {
        var eq :- Expect(EQUALS);
        var value :- ParseExpression(fuel);
        r := Success(VariableDef(token.line, token.column, token.value, None, value));
      }
    }

    /** The compound branch of `parse_implicit_assignment`: the operator, then the value. */
    method ParseCompoundAssignment(token: Token, fuel: nat) returns (r: Outcome<Node>)
      requires Valid() && IsAny(AssignOps - {EQUALS})
      modifies this
      ensures Moved(old(pos), old(inPipeline))
      ensures r.Success? ==> (pos > old(pos) && r.value.CompoundAssignment? &&
        r.value.name == token.value && r.value.line == token.line && r.value.column == token.column &&
        r.value.operator == CompoundOperator(tokens[old(pos)].kind))
      decreases fuel, 11
    {
      var op := Advance();
      var value :- ParseExpression(fuel);
      return Success(CompoundAssignment(token.line, token.column, token.value, CompoundOperator(op.kind), value));
    }

    /** `parse_variable_def`: `v:name=value` or `v:name:type=value`. */
    method ParseVariableDef(fuel: nat) returns (r: Outcome<Node>)
      requires Valid()
      modifies this
      ensures Moved(old(pos), old(inPipeline))
      ensures r.Success? ==> pos > old(pos) + 3 && r.value.VariableDef? && r.value.name == tokens[old(pos) + 2].value
      ensures r.Success? ==> (r.value.typeAnnotation.Some? <==> tokens[old(pos) + 3].kind == COLON)
      decreases fuel, 20
    {
      var token :- Expect(VAR);
      var colon :- Expect(COLON);
      var name :- Expect(IDENTIFIER);
      assert pos == old(pos) + 3 && name == tokens[old(pos) + 2];
      ghost var annotated := Is(COLON);
      assert annotated <==> pos < |tokens| && tokens[pos].kind == COLON;
      var annotation: Option<Type> := None;
      if Is(COLON) {
        var _ := Advance();
        var t :- ParseType();
        annotation := Some(t);
      }
      var eq :- Expect(EQUALS);
      var value :- ParseExpression(fuel);
      return Success(VariableDef(token.line, token.column, name.value, annotation, value));
    }

    /** `parse_return_stmt`: `ret:value`. */
    method ParseReturn(fuel: nat) returns (r: Outcome<Node>)
      requires Valid()
      modifies this
      ensures Moved(old(pos), old(inPipeline))
      ensures r.Success? ==> (pos > old(pos) && r.value.ReturnStmt? &&
        r.value.line == tokens[old(pos)].line && r.value.column == tokens[old(pos)].column)
      decreases fuel, 20
    {
      var token :- Expect(RET);
      var colon :- Expect(COLON);
      var value :- ParseExpression(fuel);
      return Success(ReturnStmt(token.line, token.column, value));
    }

    /** `parse_implicit_call`: an expression statement located at its first token. */
    method ParseImplicitCall(fuel: nat) returns (r: Outcome<Node>)
      requires Valid()
      modifies this
      ensures Moved(old(pos), old(inPipeline))
      ensures r.Success? ==> (pos > old(pos) && r.value.DirectCall? &&
        r.value.line == tokens[old(pos)].line && r.value.column == tokens[old(pos)].column)
      decreases fuel, 20
    {
      var token := current;
      var call :- ParseExpression(fuel);
      return Success(DirectCall(token.value.line, token.value.column, call));
    }

    /** `parse_if_stmt` (and `parse_if_expr`): after `if:cond`, a `?` gives the ternary
        `IfStmt`, whose branches written `ret:x` become `ReturnStmt`s located at the `if`;
        anything else gives an `IfElseBlock` whose bodies are found by column. */
    method ParseIf(fuel: nat) returns (r: Outcome<Node>, ghost afterCondition: nat)
      requires Valid()
      modifies this
      ensures Moved(old(pos), old(inPipeline))
      ensures r.Success? ==> pos > old(pos) && !r.value.ReturnStmt?
      ensures r.Success? ==> (old(pos) < afterCondition <= |tokens| &&
        (r.value.IfStmt? <==> afterCondition < |tokens| && tokens[afterCondition].kind == QUESTION) &&
        (r.value.IfStmt? || r.value.IfElseBlock?))
      ensures r.Success? && r.value.IfStmt? ==>
        (r.value.trueExpr.ReturnStmt? ==> r.value.trueExpr.line == tokens[old(pos)].line &&
                                          r.value.trueExpr.column == tokens[old(pos)].column) &&
        (r.value.falseExpr.ReturnStmt? ==> r.value.falseExpr.line == tokens[old(pos)].line &&
                                           r.value.falseExpr.column == tokens[old(pos)].column)
      ensures r.Success? && r.value.IfElseBlock? ==> r.value.elseBody.Some? ==> r.value.elseBody.value != []
      decreases fuel, 22
    {
      var origin := pos;
      afterCondition := origin + 1;
      var token :- Expect(IF);
      var colon :- Expect(COLON);
      var condition :- ParseExpression(fuel);
      afterCondition := pos;
      if Is(QUESTION) {
        var _ := Advance();
        var trueExpr :- ParseBranch(token, fuel);
        var colon2 :- Expect(COLON);
        var falseExpr :- ParseBranch(token, fuel);
        r := Success(IfStmt(token.line, token.column, condition, trueExpr, falseExpr));
        return;
      }
      r := ParseIfBlock(token, condition, fuel);
    }

    /** The block form of `parse_if_stmt`, after its condition: an optional `|`, the `if` body,
        then an optional `else:` body; an empty `else` body is recorded as none. */
    method ParseIfBlock(token: Token, condition: Node, fuel: nat) returns (r: Outcome<Node>)
      requires Valid()
      modifies this
      ensures Moved(old(pos), old(inPipeline))
      ensures r.Success? ==> r.value.IfElseBlock? && r.value.condition == condition
      ensures r.Success? ==> r.value.elseBody.Some? ==> r.value.elseBody.value != []
      decreases fuel, 21
    {
      var ifResult;
      ghost var firstColumn, stalled;
      ifResult, firstColumn, stalled := ParseBlock(token.column, fuel);
      var ifBody :- ifResult;
      var elseBody: Option<seq<Node>> := None;
      if Is(ELSE) {
        var body :- ParseElse(fuel);
        elseBody := OptionalBody(body);
      }
      r := Success(IfElseBlock(token.line, token.column, condition, ifBody, elseBody));
    }

    /** The `else:` part of a block `if`, whose body is anchored at the `else` token. */
    method ParseElse(fuel: nat) returns (r: Outcome<seq<Node>>)
      requires Valid() && Is(ELSE)
      modifies this
      ensures Moved(old(pos), old(inPipeline))
      decreases fuel, 20
    {
      var elseToken := Advance();
      var colon :- Expect(COLON);
      ghost var firstColumn, stalled;
      r, firstColumn, stalled := ParseBlock(elseToken.column, fuel);
    }

    /** One branch of a ternary `if`: `ret:value` becomes a `ReturnStmt` at the `if` token. */
    method ParseBranch(ifToken: Token, fuel: nat) returns (r: Outcome<Node>)
      requires Valid()
      modifies this
      ensures Moved(old(pos), old(inPipeline))
      ensures r.Success? ==> pos > old(pos)
      ensures r.Success? ==> (r.value.ReturnStmt? <==> old(Is(RET)))
      ensures r.Success? && r.value.ReturnStmt? ==> r.value.line == ifToken.line && r.value.column == ifToken.column
      decreases fuel, 19
    {
      if Is(RET) {
        var _ := Advance();
        var colon :- Expect(COLON);
        var value :- ParseExpression(fuel);
        return Success(ReturnStmt(ifToken.line, ifToken.column, value));
      }
      r := ParseExpression(fuel);
    }

    /** The body of a block `if` or `else` anchored at column `anchor`: after an optional `|`
        and any newlines, the loop over statements whose
        first token lies right of the anchor and no left of the first statement. `stalled`
        says the loop stopped because a round produced no statement. */
    method ParseBlock(anchor: int, fuel: nat) returns (r: Outcome<seq<Node>>, ghost firstColumn: Option<int>, ghost stalled: bool)
      requires Valid()
      modifies this
      ensures Moved(old(pos), old(inPipeline))
      ensures r.Success? && !stalled ==>
        current.None? || current.value.kind == EOF || current.value.column <= anchor ||
        (firstColumn.Some? && current.value.column < firstColumn.value)
      ensures firstColumn.Some? ==> firstColumn.value > anchor
      decreases fuel, 19
    {
      if Is(PIPE) {
        var _ := Advance();
      }
      SkipNewlines();
      firstColumn := None;
      stalled := false;
      var expected: Option<int> := None;
      var body: seq<Node> := [];
      while current.Some? && current.value.kind != EOF && current.value.column > anchor
        invariant Moved(old(pos), old(inPipeline))
        invariant firstColumn == expected && !stalled
        invariant expected.Some? ==> expected.value > anchor
        decreases |tokens| - pos
      {
        if expected.None? && current.value.column > anchor {
          expected := Some(current.value.column);
          firstColumn := expected;
        }
        if expected.Some? && expected.value != 0 && current.value.column < expected.value {
          return Success(body), firstColumn, stalled;
        }
        if fuel == 0 {
          return Failure(Errors.DepthExceeded), firstColumn, stalled;
        }
        var start := pos;
        var stmt :- ParseStatement(fuel - 1);
        if stmt.Some? {
          body := body + [stmt.value];
        }
        if Is(PIPE) {
          var _ := Advance();
          SkipNewlines();
          if current.None? || current.value.column <= anchor {
            return Success(body), firstColumn, stalled;
          }
          continue;
        }
        if Is(NEWLINE) {
          var _ := Advance();
          SkipNewlines();
          if current.None? || current.value.column <= anchor {
            return Success(body), firstColumn, stalled;
          }
          continue;
        }
        if stmt.None? && current.Some? {
          stalled := true;
          return Success(body), firstColumn, stalled;
        }
      }
      return Success(body), firstColumn, stalled;
    }

    /** `parse_for_loop`: `for:var,iterable|body`; any token is accepted as the variable. */
    method ParseFor(fuel: nat) returns (r: Outcome<Node>)
      requires Valid()
      modifies this
      ensures Moved(old(pos), old(inPipeline))
      ensures r.Success? ==> pos > old(pos) + 3 && r.value.ForLoop? && r.value.variable == tokens[old(pos) + 2].value
      ensures r.Success? ==> LoopBodyEnded()
      decreases fuel, 20
    {
      var token :- Expect(FOR);
      var colon :- Expect(COLON);
      if current.None? {
        return Failure(ErrorHere("Expected variable name in for loop", []));
      }
      var variable := Advance();
      var comma :- Expect(COMMA);
      var iterable :- ParseExpression(fuel);
      var pipe :- Expect(PIPE);
      var body :- ParseLoopBody(fuel);
      return Success(ForLoop(token.line, token.column, variable.value, iterable, body));
    }

    /** `parse_while_loop`: `while:condition|body`. */
    method ParseWhile(fuel: nat) returns (r: Outcome<Node>)
      requires Valid()
      modifies this
      ensures Moved(old(pos), old(inPipeline))
      ensures r.Success? ==> pos > old(pos) && r.value.WhileLoop? && LoopBodyEnded()
      decreases fuel, 20
    {
      var token :- Expect(WHILE);
      var colon :- Expect(COLON);
      var condition :- ParseExpression(fuel);
      var pipe :- Expect(PIPE);
      var body :- ParseLoopBody(fuel);
      return Success(WhileLoop(token.line, token.column, condition, body));
    }

    /** Where a `for`/`while` body stops: at the end, at a token that ends the loop, or at a
        pipe that starts a pipeline. */
    predicate LoopBodyEnded()
      reads this
    {
      current.None? || current.value.kind == EOF || current.value.kind in LoopEnders ||
      (Is(PIPE) && PipelineLookahead())
    }

    /** The body loop shared by `parse_for_loop` and `parse_while_loop`. */
    method ParseLoopBody(fuel: nat) returns (r: Outcome<seq<Node>>)
      requires Valid()
      modifies this
      ensures Moved(old(pos), old(inPipeline))
      ensures r.Success? ==> LoopBodyEnded()
      decreases fuel, 19
    {
      var body: seq<Node> := [];
      while current.Some? && current.value.kind != EOF
        invariant Moved(old(pos), old(inPipeline))
        decreases |tokens| - pos
      {
        if IsAny(LoopEnders) {
          return Success(body);
        }
        if Is(NEWLINE) {
          SkipNewlines();
          continue;
        }
        if fuel == 0 {
          return Failure(Errors.DepthExceeded);
        }
        var start := pos;
        var stmt :- ParseStatement(fuel - 1);
        if stmt.Some? {
          body := body + [stmt.value];
        }
        if Is(PIPE) && !PipelineLookahead() {
          var _ := Advance();
        } else if Is(PIPE) {
          return Success(body);
        }
        if pos == start {
          return Failure(Errors.Diverges);
        }
      }
      return Success(body);
    }

    /** `parse_api_call`: `[async|]api:METHOD,endpoint[,options]` then chained operations. */
    method ParseApiCall(fuel: nat) returns (r: Outcome<Node>)
      requires Valid()
      modifies this
      ensures Moved(old(pos), old(inPipeline))
      ensures r.Success? ==> pos > old(pos) && r.value.APICall? && r.value.chained.Some?
      ensures r.Success? ==> (r.value.isAsync <==> tokens[old(pos)].kind == ASYNC)
      ensures r.Success? ==> forall op :: op in r.value.chained.value ==> ChainOp(op)
      ensures r.Success? ==> !(Is(PIPE) && PipelineLookahead())
      decreases fuel, 20
    {
      var origin := pos;
      var isAsync := false;
      if Is(ASYNC) {
        isAsync := true;
        var _ := Advance();
        var pipe :- Expect(PIPE);
      }
      var token :- Expect(API);
      assert isAsync <==> tokens[origin].kind == ASYNC;
      var colon :- Expect(COLON);
      var httpMethod :- Expect(IDENTIFIER);
      var comma :- Expect(COMMA);
      var endpoint :- ParseExpression(fuel);
      var options: Option<Node> := None;
      if Is(COMMA) {
        var _ := Advance();
        var o :- ParseExpression(fuel);
        options := Some(o);
      }
      var operations :- ParseApiOperations(fuel);
      return Success(APICall(token.line, token.column, httpMethod.value, endpoint, options, isAsync, Some(operations)));
    }

    /** The operation loop of `parse_api_call`: while a `|` is followed by `filter`, `map` or
        `parse`, that operation is chained; any other `|` is left for the caller. */
    method ParseApiOperations(fuel: nat) returns (r: Outcome<seq<Node>>)
      requires Valid()
      modifies this
      ensures Moved(old(pos), old(inPipeline))
      ensures r.Success? ==> forall op :: op in r.value ==> ChainOp(op)
      ensures r.Success? ==> !(Is(PIPE) && PipelineLookahead())
      decreases fuel, 2
    {
      var operations: seq<Node> := [];
      while Is(PIPE)
        invariant Moved(old(pos), old(inPipeline))
        invariant forall op :: op in operations ==> ChainOp(op)
        decreases |tokens| - pos
      {
        if PipelineLookahead() {
          var _ := Advance();
          var op :- ParseChainOp(fuel);
          operations := operations + [op];
        } else {
          break;
        }
      }
      return Success(operations);
    }

    /** The operation after a pipeline `|`: `parse_filter_op`, `parse_map_op` or `parse_parse_op`. */
    method ParseChainOp(fuel: nat) returns (r: Outcome<Node>)
      requires Valid() && IsAny(PipelineOps)
      modifies this
      ensures Moved(old(pos), old(inPipeline))
      ensures r.Success? ==> pos > old(pos) && ChainOp(r.value)
      ensures r.Success? ==> (r.value.FilterOp? <==> old(Is(FILTER))) && (r.value.MapOp? <==> old(Is(MAP)))
      ensures r.Success? && r.value.MapOp? ==> r.value.fields.None? && r.value.expression.Some?
      decreases fuel, 1
    {
      if Is(FILTER) {
        var token := Advance();
        var colon :- Expect(COLON);
        if fuel == 0 {
          return Failure(Errors.DepthExceeded);
        }
        var condition :- ParseExpression(fuel - 1);
        return Success(FilterOp(token.line, token.column, condition));
      } else if Is(MAP) {
        var token := Advance();
        var colon :- Expect(COLON);
        if fuel == 0 {
          return Failure(Errors.DepthExceeded);
        }
        var expr :- ParseExpression(fuel - 1);
        return Success(MapOp(token.line, token.column, None, Some(expr)));
      } else {
        var token := Advance();
        var colon :- Expect(COLON);
        var format :- Expect(IDENTIFIER);
        return Success(ParseOp(token.line, token.column, format.value));
      }
    }

    /** `parse_ui_component`: `ui:name` and `|state:`, `|props:`, `|on:`, `|render:` clauses.
        Handlers and the render element are read and dropped; the body is always empty. */
    method ParseUiComponent(fuel: nat) returns (r: Outcome<Node>)
      requires Valid()
      modifies this
      ensures Moved(old(pos), old(inPipeline))
      ensures r.Success? ==> pos > old(pos) + 2 && r.value.UIComponent? && r.value.body == []
      ensures r.Success? ==> r.value.name == tokens[old(pos) + 2].value
      decreases fuel, 20
    {
      var origin := pos;
      var token :- Expect(UI);
      var colon :- Expect(COLON);
      var name :- Expect(IDENTIFIER);
      var clauses :- ParseUiClauses(fuel);
      return Success(UIComponent(token.line, token.column, name.value, clauses.0, clauses.1, []));
    }

    /** The clause loop of `parse_ui_component`: each `|` is consumed; an empty clause is
        skipped, a `state`, `props`, `on` or `render` clause is read, and anything else ends
        the loop. Every prop is kept; a state is kept only when it has a value. */
    method ParseUiClauses(fuel: nat) returns (r: Outcome<(seq<PropEntry>, seq<StateEntry>)>)
      requires Valid()
      modifies this
      ensures Moved(old(pos), old(inPipeline))
      decreases fuel, 19
    {
      var props: seq<PropEntry> := [];
      var stateVars: seq<StateEntry> := [];
      while Is(PIPE)
        invariant Moved(old(pos), old(inPipeline))
        decreases |tokens| - pos
      {
        var _ := Advance();
        if IsAny({PIPE, NEWLINE, EOF}) {
          continue;
        }
        if Is(STATE) {
          var _ := Advance();
          var c :- Expect(COLON);
          var stateName :- Expect(IDENTIFIER);
          var stateType := ParseTypeSuffix();
          if Is(EQUALS) {
            var _ := Advance();
            var value :- ParseExpression(fuel);
            stateVars := stateVars + [StateEntry(stateName.value, stateType, value)];
          }
          continue;
        }
        if Is(PROPS) {
          var _ := Advance();
          var c :- Expect(COLON);
          var propName :- Expect(IDENTIFIER);
          var propType := ParseTypeSuffix();
          props := props + [PropEntry(propName.value, propType)];
          continue;
        }
        if Is(ON) {
          var _ := Advance();
          var c :- Expect(COLON);
          var handler :- Expect(IDENTIFIER);
          continue;
        }
        if Is(RENDER) {
          var _ := Advance();
          var c :- Expect(COLON);
          var element :- Expect(IDENTIFIER);
          continue;
        }
        break;
      }
      return Success((props, stateVars));
    }

    /** The optional `:type` of a `state:` or `props:` clause: after the colon any token is
        taken, by its lexeme. */
    method ParseTypeSuffix() returns (t: Option<string>)
      requires Valid()
      modifies this
      ensures Moved(old(pos), old(inPipeline))
      ensures !old(Is(COLON)) ==> t.None? && pos == old(pos)
      ensures old(Is(COLON)) && old(pos) + 1 < |tokens| ==> t == Some(tokens[old(pos) + 1].value) && pos == old(pos) + 2
    {
      t := None;
      if Is(COLON) {
        var _ := Advance();
        if current.Some? {
          var token := Advance();
          t := Some(token.value);
        }
      }
    }


    /** `parse_data_pipeline`: `data:source` and up to 100 `|op` clauses. The source is a
        full expression, so (outside a pipeline chain) a `|filter:`, `|map:` or `|parse:`
        right after it has already been taken into the source by postfix chaining. */
    method ParseDataPipeline(fuel: nat) returns (r: Outcome<Node>, ghost sourceEnd: nat)
      requires Valid()
      modifies this
      ensures Moved(old(pos), old(inPipeline))
      ensures r.Success? ==> pos > old(pos) && r.value.DataPipeline?
      ensures r.Success? ==> |r.value.operations| <= MaxDataOps && forall op :: op in r.value.operations ==> DataOp(op)
      ensures r.Success? && !old(inPipeline) ==> !PipelineStartsAt(tokens, sourceEnd)
      decreases fuel, 20
    {
      sourceEnd := 0;
      var token :- Expect(DATA);
      var colon :- Expect(COLON);
      var src :- ParseExpression(fuel);
      sourceEnd := pos;
      var operations: seq<Node> := [];
      while Is(PIPE) && !IsAny({NEWLINE, EOF}) && |operations| < MaxDataOps
        invariant Moved(old(pos), old(inPipeline)) && pos > old(pos)
        invariant |operations| <= MaxDataOps && forall op :: op in operations ==> DataOp(op)
        decreases |tokens| - pos
      {
        var _ := Advance();
        var op :- ParseDataOp(fuel);
        if op.Some? {
          operations := operations + [op.value];
        }
      }
      return Success(DataPipeline(token.line, token.column, src, operations)), sourceEnd;
    }

    /** One clause of the `data:` loop after its `|`: `filter:`, `map:`, `groupby:`, `agg:` or
        `sort:`; any other token adds no operation. Each operation takes its position from the
        token after it, which crashes at the end of the input. */
    method ParseDataOp(fuel: nat) returns (r: Outcome<Option<Node>>)
      requires Valid()
      modifies this
      ensures Moved(old(pos), old(inPipeline))
      ensures r.Success? && r.value.Some? ==> DataOp(r.value.value) && pos > old(pos)
      ensures r.Success? && r.value.Some? ==> current.Some? && r.value.value.line == current.value.line
      ensures old(!IsAny({FILTER, MAP, GROUPBY, AGG, SORT})) ==> r == Success(None) && pos == old(pos)
      decreases fuel, 19
    {
      if Is(FILTER) {
        var _ := Advance();
        var c :- Expect(COLON);
        var condition :- ParseExpression(fuel);
        if current.None? {
          return Failure(Errors.Crash(NoneLine));
        }
        return Success(Some(FilterOp(current.value.line, current.value.column, condition)));
      } else if Is(MAP) {
        var _ := Advance();
        var c :- Expect(COLON);
        var transformation :- ParseExpression(fuel);
        if current.None? {
          return Failure(Errors.Crash(NoneLine));
        }
        return Success(Some(MapOp(current.value.line, current.value.column, None, Some(transformation))));
      } else if Is(GROUPBY) {
        var _ := Advance();
        var c :- Expect(COLON);
        var field :- Expect(IDENTIFIER);
        if current.None? {
          return Failure(Errors.Crash(NoneLine));
        }
        return Success(Some(GroupByOp(current.value.line, current.value.column, field.value)));
      } else if Is(AGG) {
        var _ := Advance();
        var c :- Expect(COLON);
        var func :- Expect(IDENTIFIER);
        if current.None? {
          return Failure(Errors.Crash(NoneLine));
        }
        return Success(Some(AggregateOp(current.value.line, current.value.column, func.value, None)));
      } else if Is(SORT) {
        var _ := Advance();
        var c :- Expect(COLON);
        var field :- Expect(IDENTIFIER);
        if current.None? {
          return Failure(Errors.Crash(NoneLine));
        }
        return Success(Some(SortOp(current.value.line, current.value.column, field.value, "asc")));
      }
      return Success(None);
    }

    /** `parse_file_operation`: `file:operation,path[,arg]*`. */
    method ParseFileOperation(fuel: nat) returns (r: Outcome<Node>)
      requires Valid()
      modifies this
      ensures Moved(old(pos), old(inPipeline))
      ensures r.Success? ==> pos > old(pos) && r.value.FileOperation? && !Is(COMMA)
      decreases fuel, 20
    {
      var token :- Expect(FILE);
      var colon :- Expect(COLON);
      var operation :- Expect(IDENTIFIER);
      var comma :- Expect(COMMA);
      var path :- ParseExpression(fuel);
      var arguments: seq<Node> := [];
      while Is(COMMA)
        invariant Moved(old(pos), old(inPipeline)) && pos > old(pos)
        decreases |tokens| - pos
      {
        var _ := Advance();
        var arg :- ParseExpression(fuel);
        arguments := arguments + [arg];
      }
      return Success(FileOperation(token.line, token.column, operation.value, path, arguments));
    }

    /** `parse_python_stmt`: `py:` then every token up to `|` or EOF, as text. */
    method ParsePythonStmt() returns (r: Outcome<Node>)
      requires Valid()
      modifies this
      ensures Moved(old(pos), old(inPipeline))
      ensures r.Success? ==> (old(pos) + 2 <= |tokens| &&
        var capture := PythonStmtCapture(tokens, old(pos) + 2);
        r.value == PythonStmt(tokens[old(pos)].line, tokens[old(pos)].column, Join(capture.0, "")) &&
        pos == capture.1)
      ensures r.Success? ==> pos > old(pos)
    {
      var origin := pos;
      var token :- Expect(PY);
      var colon :- Expect(COLON);
      assert pos == origin + 2 && token == tokens[origin];
      var code, next := CaptureStatement(origin + 2);
      Seek(next);
      r := Success(PythonStmt(token.line, token.column, code));
    }

    /** The loop of `parse_python_stmt` from offset `start`, on the token list. */
    method CaptureStatement(start: nat) returns (code: string, p: nat)
      requires start <= |tokens|
      ensures code == Join(PythonStmtCapture(tokens, start).0, "") && p == PythonStmtCapture(tokens, start).1
    {
      var parts := [];
      p := start;
      NothingBefore(PythonStmtCapture(tokens, p).0);
      while p < |tokens| && tokens[p].kind !in {EOF, PIPE}
        invariant start <= p <= |tokens|
        invariant PythonStmtCapture(tokens, start).0 == parts + PythonStmtCapture(tokens, p).0
        invariant PythonStmtCapture(tokens, start).1 == PythonStmtCapture(tokens, p).1
        decreases |tokens| - p
      {
        var piece: string;
        var next: nat;
        if tokens[p].kind == AT {
          var count := CountAts(p);
          piece := RepeatChar('@', count);
          next := p + count;
        } else {
          piece := StmtPiece(tokens[p]);
          next := p + 1;
        }
        StmtCaptureAdvance(tokens, start, parts, p, piece, next);
        parts := parts + [piece];
        p := next;
      }
      StmtCaptureStop(tokens, p, parts);
      code := Join(parts, "");
    }

    /** The inner loop of `parse_python_stmt` over a run of `@` tokens from `start`. */
    method CountAts(start: nat) returns (count: nat)
      requires start <= |tokens|
      ensures count == AtRun(tokens, start)
    {
      count := 0;
      var p := start;
      while p < |tokens| && tokens[p].kind == AT
        invariant p <= |tokens| && p == start + count
        invariant AtRun(tokens, start) == count + AtRun(tokens, p)
        decreases |tokens| - p
      {
        count := count + 1;
        p := p + 1;
      }
    }

    /** `parse_expression`. An expression never stops before a binary operator, nor (outside a
        pipeline chain) before a `|` that starts one. */
    method ParseExpression(fuel: nat) returns (r: Outcome<Node>)
      requires Valid()
      modifies this
      ensures Moved(old(pos), old(inPipeline))
      ensures r.Success? ==> pos > old(pos) && !r.value.ReturnStmt?
      ensures r.Success? ==> !IsAny(BinaryOps) && NoPendingPipeline()
      decreases fuel, 10
    {
      ghost var first, steps;
      r, first, steps := ParseLogical(fuel);
    }

    /** `parse_logical`: `&&` and `||`, folded to the left. */
    method ParseLogical(fuel: nat) returns (r: Outcome<Node>, ghost first: Node, ghost steps: seq<BinaryStep>)
      requires Valid()
      modifies this
      ensures Moved(old(pos), old(inPipeline))
      ensures r.Success? ==> pos > old(pos) && !r.value.ReturnStmt?
      ensures r.Success? ==> r.value == FoldLeft(first, steps) && StepsAt(steps, LogicalOps)
      ensures r.Success? ==> !IsAny(BinaryOps) && NoPendingPipeline()
      decreases fuel, 9
    {
      steps := [];
      ghost var f, s;
      var left;
      left, f, s := ParseComparison(fuel);
      if left.Failure? {
        return left, f, steps;
      }
      first := left.value;
      var acc := left.value;
      while IsAny(LogicalOps)
        invariant Moved(old(pos), old(inPipeline)) && pos > old(pos)
        invariant acc == FoldLeft(first, steps) && StepsAt(steps, LogicalOps) && !acc.ReturnStmt?
        invariant !IsAny(ComparisonOps + TermOps + FactorOps) && NoPendingPipeline()
        decreases |tokens| - pos
      {
        var op := Advance();
        var right;
        right, f, s := ParseComparison(fuel);
        if right.Failure? {
          return right, first, steps;
        }
        FoldLeftSnoc(first, steps, op, right.value, LogicalOps);
        steps := steps + [BinaryStep(op, right.value)];
        acc := Operation(op.line, op.column, op.value, [acc, right.value]);
      }
      return Success(acc), first, steps;
    }

    /** `parse_comparison`: `==`, `!=`, `<`, `>`, `<=`, `>=`, folded to the left. */
    method ParseComparison(fuel: nat) returns (r: Outcome<Node>, ghost first: Node, ghost steps: seq<BinaryStep>)
      requires Valid()
      modifies this
      ensures Moved(old(pos), old(inPipeline))
      ensures r.Success? ==> pos > old(pos) && !r.value.ReturnStmt?
      ensures r.Success? ==> r.value == FoldLeft(first, steps) && StepsAt(steps, ComparisonOps)
      ensures r.Success? ==> !IsAny(ComparisonOps + TermOps + FactorOps) && NoPendingPipeline()
      decreases fuel, 8
    {
      steps := [];
      ghost var f, s;
      var left;
      left, f, s := ParseTerm(fuel);
      if left.Failure? {
        return left, f, steps;
      }
      first := left.value;
      var acc := left.value;
      while IsAny(ComparisonOps)
        invariant Moved(old(pos), old(inPipeline)) && pos > old(pos)
        invariant acc == FoldLeft(first, steps) && StepsAt(steps, ComparisonOps) && !acc.ReturnStmt?
        invariant !IsAny(TermOps + FactorOps) && NoPendingPipeline()
        decreases |tokens| - pos
      {
        var op := Advance();
        var right;
        right, f, s := ParseTerm(fuel);
        if right.Failure? {
          return right, first, steps;
        }
        FoldLeftSnoc(first, steps, op, right.value, ComparisonOps);
        steps := steps + [BinaryStep(op, right.value)];
        acc := Operation(op.line, op.column, op.value, [acc, right.value]);
      }
      return Success(acc), first, steps;
    }

    /** `parse_term`: `+` and `-`, folded to the left. */
    method ParseTerm(fuel: nat) returns (r: Outcome<Node>, ghost first: Node, ghost steps: seq<BinaryStep>)
      requires Valid()
      modifies this
      ensures Moved(old(pos), old(inPipeline))
      ensures r.Success? ==> pos > old(pos) && !r.value.ReturnStmt?
      ensures r.Success? ==> r.value == FoldLeft(first, steps) && StepsAt(steps, TermOps)
      ensures r.Success? ==> !IsAny(TermOps + FactorOps) && NoPendingPipeline()
      decreases fuel, 7
    {
      steps := [];
      ghost var f, s;
      var left;
      left, f, s := ParseFactor(fuel);
      if left.Failure? {
        return left, f, steps;
      }
      first := left.value;
      var acc := left.value;
      while IsAny(TermOps)
        invariant Moved(old(pos), old(inPipeline)) && pos > old(pos)
        invariant acc == FoldLeft(first, steps) && StepsAt(steps, TermOps) && !acc.ReturnStmt?
        invariant !IsAny(FactorOps) && NoPendingPipeline()
        decreases |tokens| - pos
      {
        var op := Advance();
        var right;
        right, f, s := ParseFactor(fuel);
        if right.Failure? {
          return right, first, steps;
        }
        FoldLeftSnoc(first, steps, op, right.value, TermOps);
        steps := steps + [BinaryStep(op, right.value)];
        acc := Operation(op.line, op.column, op.value, [acc, right.value]);
      }
      return Success(acc), first, steps;
    }

    /** `parse_factor`: `*`, `/`, `//` and `%`, folded to the left. */
    method ParseFactor(fuel: nat) returns (r: Outcome<Node>, ghost first: Node, ghost steps: seq<BinaryStep>)
      requires Valid()
      modifies this
      ensures Moved(old(pos), old(inPipeline))
      ensures r.Success? ==> pos > old(pos) && !r.value.ReturnStmt?
      ensures r.Success? ==> r.value == FoldLeft(first, steps) && StepsAt(steps, FactorOps)
      ensures r.Success? ==> !IsAny(FactorOps) && NoPendingPipeline()
      decreases fuel, 6
    {
      steps := [];
      var left := ParseUnary(fuel);
      if left.Failure? {
        return left, BooleanLiteral(0, 0, false), steps;
      }
      first := left.value;
      var acc := left.value;
      while IsAny(FactorOps)
        invariant Moved(old(pos), old(inPipeline)) && pos > old(pos)
        invariant acc == FoldLeft(first, steps) && StepsAt(steps, FactorOps) && !acc.ReturnStmt?
        invariant NoPendingPipeline()
        decreases |tokens| - pos
      {
        var op := Advance();
        var right := ParseUnary(fuel);
        if right.Failure? {
          return right, first, steps;
        }
        FoldLeftSnoc(first, steps, op, right.value, FactorOps);
        steps := steps + [BinaryStep(op, right.value)];
        acc := Operation(op.line, op.column, op.value, [acc, right.value]);
      }
      return Success(acc), first, steps;
    }

    /** `parse_unary`: a prefix `-` or `!` applies to the whole unary expression after it. */
    method ParseUnary(fuel: nat) returns (r: Outcome<Node>)
      requires Valid()
      modifies this
      ensures Moved(old(pos), old(inPipeline))
      ensures r.Success? ==> pos > old(pos) && !r.value.ReturnStmt? && NoPendingPipeline()
      ensures r.Success? && old(IsAny({MINUS, NOT})) ==>
        r.value.Operation? && r.value.operator == old(current).value.value && |r.value.operands| == 1 &&
        r.value.line == old(current).value.line && r.value.column == old(current).value.column
      decreases fuel, 5
    {
      if IsAny({MINUS, NOT}) {
        var op := Advance();
        if fuel == 0 {
          return Failure(Errors.DepthExceeded);
        }
        var operand :- ParseUnary(fuel - 1);
        return Success(Operation(op.line, op.column, op.value, [operand]));
      }
      r := ParsePostfix(fuel);
    }

    /** `parse_postfix`: member access, indexing, calls and (outside a chain) pipeline chains,
        applied until none follows. */
    method ParsePostfix(fuel: nat) returns (r: Outcome<Node>)
      requires Valid()
      modifies this
      ensures Moved(old(pos), old(inPipeline))
      ensures r.Success? ==> pos > old(pos) && !r.value.ReturnStmt?
      ensures r.Success? ==> !Is(DOT) && !Is(LBRACKET) && !Is(LPAREN) && NoPendingPipeline()
      decreases fuel, 4
    {
      var expr :- ParsePrimary(fuel);
      while true
        invariant Moved(old(pos), old(inPipeline)) && pos > old(pos) && !expr.ReturnStmt?
        decreases |tokens| - pos
      {
        var next :- ParsePostfixStep(expr, fuel);
        if next.None? {
          break;
        }
        expr := next.value;
      }
      return Success(expr);
    }

    /** One round of the `parse_postfix` loop on `expr`; `None` where the loop breaks. */
    method ParsePostfixStep(expr: Node, fuel: nat) returns (r: Outcome<Option<Node>>)
      requires Valid() && !expr.ReturnStmt?
      modifies this
      ensures Moved(old(pos), old(inPipeline))
      ensures r.Success? && r.value.Some? ==> pos > old(pos) && !r.value.value.ReturnStmt?
      ensures r.Success? && r.value.None? ==>
        pos == old(pos) && !Is(DOT) && !Is(LBRACKET) && !Is(LPAREN) && NoPendingPipeline()
      decreases fuel, 3
    {
      if Is(DOT) {
        var _ := Advance();
        var property :- Expect(IDENTIFIER);
        return Success(Some(MemberAccess(expr.line, expr.column, expr, property.value)));
      } else if Is(LBRACKET) {
        var _ := Advance();
        if fuel == 0 {
          return Failure(Errors.DepthExceeded);
        }
        var index :- ParseExpression(fuel - 1);
        var close :- Expect(RBRACKET);
        return Success(Some(IndexAccess(expr.line, expr.column, expr, index)));
      } else if Is(LPAREN) {
        var call :- ParseCallArgs(expr, fuel);
        return Success(Some(call));
      } else if Is(PIPE) && !inPipeline && PipelineLookahead() {
        var chain :- ParsePipelineChain(expr, fuel);
        return Success(Some(chain));
      }
      PendingPipelineCheck();
      return Success(None);
    }

    /** `_parse_call_args`: `(arg, ...)` after a callee, located at the callee. */
    method ParseCallArgs(callee: Node, fuel: nat) returns (r: Outcome<Node>)
      requires Valid() && Is(LPAREN)
      modifies this
      ensures Moved(old(pos), old(inPipeline))
      ensures r.Success? ==> (pos > old(pos) && r.value.FunctionCall? && r.value.callee == callee &&
        r.value.line == callee.line && r.value.column == callee.column)
      decreases fuel, 2
    {
      var _ := Advance();
      var arguments :- ParseArguments(fuel);
      return Success(FunctionCall(callee.line, callee.column, callee, arguments));
    }

    /** The argument loop `while not match(RPAREN): parse_expression; skip a comma` and the
        closing `)`, shared by calls, `@name(...)` and `op:`. */
    method ParseArguments(fuel: nat) returns (r: Outcome<seq<Node>>)
      requires Valid()
      modifies this
      ensures Moved(old(pos), old(inPipeline))
      ensures r.Success? ==> pos > old(pos) && tokens[pos - 1].kind == RPAREN
      decreases fuel, 0
    {
      var arguments: seq<Node> := [];
      while !Is(RPAREN)
        invariant Moved(old(pos), old(inPipeline))
        decreases |tokens| - pos
      {
        if fuel == 0 {
          return Failure(Errors.DepthExceeded);
        }
        var arg :- ParseExpression(fuel - 1);
        arguments := arguments + [arg];
        if Is(COMMA) {
          var _ := Advance();
        }
      }
      var close := Advance();
      return Success(arguments);
    }

    /** `_parse_pipeline_chain`: `|filter:`, `|map:` and `|parse:` clauses after `source`,
        parsed with the guard set so that they do not nest; the guard is cleared afterwards,
        also when a clause fails. */
    method ParsePipelineChain(source: Node, fuel: nat) returns (r: Outcome<Node>)
      requires Valid() && !inPipeline && Is(PIPE) && PipelineLookahead()
      modifies this
      ensures Moved(old(pos), false)
      ensures r.Success? ==> (pos > old(pos) && r.value.DataPipeline? && r.value.source == source &&
        r.value.line == source.line && r.value.column == source.column &&
        (forall op :: op in r.value.operations ==> ChainOp(op)) &&
        !(Is(PIPE) && PipelineLookahead()))
      decreases fuel, 2
    {
      inPipeline := true;
      var operations: seq<Node> := [];
      while Is(PIPE) && PipelineLookahead()
        invariant Moved(old(pos), true)
        invariant pos == old(pos) || pos > old(pos) + 1
        invariant forall op :: op in operations ==> ChainOp(op)
        decreases |tokens| - pos
      {
        var _ := Advance();
        var op := ParseChainOp(fuel);
        if op.Failure? {
          inPipeline := false;
          return Failure(op.error);
        }
        operations := operations + [op.value];
      }
      inPipeline := false;
      return Success(DataPipeline(source.line, source.column, source, operations));
    }

    /** `parse_primary`. */
    method ParsePrimary(fuel: nat) returns (r: Outcome<Node>)
      requires Valid()
      modifies this
      ensures Moved(old(pos), old(inPipeline))
      ensures r.Success? ==> pos > old(pos) && !r.value.ReturnStmt?
      ensures old(current).None? ==> r == Failure(Errors.Crash(NoneType))
      ensures old(Is(NUMBER)) && r.Success? ==>
        var t := old(current).value;
        NumberValue(t.value).Some? &&
        (r.value.RangeExpr? <==> old(pos) + 1 < |tokens| && tokens[old(pos) + 1].kind == DOTDOT) &&
        (if r.value.RangeExpr? then r.value.start else r.value) == NumberLiteral(t.line, t.column, NumberValue(t.value).value)
      ensures old(Is(STRING)) ==>
        var t := old(current).value;
        r == Success(StringLiteral(t.line, t.column, t.value, Contains(t.value, "${")))
      decreases fuel, 2
    {
      if Is(NUMBER) {
        r := ParseNumber(fuel);
        return;
      }
      if Is(STRING) {
        var t := Advance();
        return Success(StringLiteral(t.line, t.column, t.value, Contains(t.value, "${")));
      }
      if Is(DOLLAR) {
        var t := Advance();
        var name :- Expect(IDENTIFIER);
        return Success(VariableRef(t.line, t.column, name.value));
      }
      if Is(AT) {
        r := ParseDirectCall(fuel);
        return;
      }
      if Is(PY) {
        r := ParsePythonExpr();
        return;
      }
      if Is(OP) {
        r := ParseOperationExpr(fuel);
        return;
      }
      if Is(IF) {
        if fuel == 0 {
          return Failure(Errors.DepthExceeded);
        }
        ghost var afterCondition;
        r, afterCondition := ParseIf(fuel - 1);
        return;
      }
      if Is(IN) {
        r := ParseInOp(fuel);
        return;
      }
      if Is(DATA) {
        if fuel == 0 {
          return Failure(Errors.DepthExceeded);
        }
        ghost var sourceEnd;
        r, sourceEnd := ParseDataPipeline(fuel - 1);
        return;
      }
      if IsAny({API, ASYNC}) {
        if fuel == 0 {
          return Failure(Errors.DepthExceeded);
        }
        r := ParseApiCall(fuel - 1);
        return;
      }
      if Is(SELF) {
        var t := Advance();
        return Success(Identifier(t.line, t.column, "self"));
      }
      if Is(IDENTIFIER) {
        var t := Advance();
        return Success(Identifier(t.line, t.column, t.value));
      }
      if current.Some? && |current.value.value| <= 2 && current.value.kind in {INPUT, OUTPUT, VAR} {
        var t := Advance();
        return Success(Identifier(t.line, t.column, t.value));
      }
      if Is(LPAREN) {
        r := ParseParenthesized(fuel);
        return;
      }
      if Is(LBRACKET) {
        r := ParseArrayLiteral(fuel);
        return;
      }
      if Is(LBRACE) {
        r := ParseObjectLiteral(fuel);
        return;
      }
      if current.None? {
        return Failure(Errors.Crash(NoneType));
      }
      return Failure(ErrorHere("Unexpected token in expression: " + KindName(current.value.kind), []));
    }

    /** The number branch of `parse_primary`: `int` or `float` of the lexeme, and a range
        `start..end` when `..` follows, whose end is another primary. */
    method ParseNumber(fuel: nat) returns (r: Outcome<Node>)
      requires Valid() && Is(NUMBER)
      modifies this
      ensures Moved(old(pos), old(inPipeline))
      ensures r.Success? ==> pos > old(pos) && !r.value.ReturnStmt?
      ensures r.Success? ==>
        var t := tokens[old(pos)];
        NumberValue(t.value).Some? &&
        (r.value.RangeExpr? <==> old(pos) + 1 < |tokens| && tokens[old(pos) + 1].kind == DOTDOT) &&
        (if r.value.RangeExpr? then r.value.start else r.value) == NumberLiteral(t.line, t.column, NumberValue(t.value).value)
      decreases fuel, 1
    {
      var t := Advance();
      var number := NumberValue(t.value);
      if number.None? {
        return Failure(Errors.Crash(BadNumber));
      }
      var literal := NumberLiteral(t.line, t.column, number.value);
      if Is(DOTDOT) {
        var _ := Advance();
        if fuel == 0 {
          return Failure(Errors.DepthExceeded);
        }
        var end :- ParsePrimary(fuel - 1);
        return Success(RangeExpr(t.line, t.column, literal, end));
      }
      return Success(literal);
    }

    /** The `@name(args)` branch of `parse_primary`: a call whose callee is an identifier
        located at the `@`. */
    method ParseDirectCall(fuel: nat) returns (r: Outcome<Node>)
      requires Valid() && Is(AT)
      modifies this
      ensures Moved(old(pos), old(inPipeline))
      ensures r.Success? ==> (pos > old(pos) + 3 && r.value.FunctionCall? &&
        r.value.callee == Identifier(tokens[old(pos)].line, tokens[old(pos)].column, tokens[old(pos) + 1].value))
      decreases fuel, 1
    {
      var origin := pos;
      var t := Advance();
      var name :- Expect(IDENTIFIER);
      var open :- Expect(LPAREN);
      assert pos == origin + 3 && t == tokens[origin] && name == tokens[origin + 1];
      var arguments :- ParseArguments(fuel);
      return Success(FunctionCall(t.line, t.column, Identifier(t.line, t.column, name.value), arguments));
    }

    /** The `in:element,container` branch of `parse_primary`. */
    method ParseInOp(fuel: nat) returns (r: Outcome<Node>)
      requires Valid() && Is(IN)
      modifies this
      ensures Moved(old(pos), old(inPipeline))
      ensures r.Success? ==> pos > old(pos) && r.value.InOp?
      decreases fuel, 1
    {
      var t := Advance();
      var colon :- Expect(COLON);
      if fuel == 0 {
        return Failure(Errors.DepthExceeded);
      }
      var element :- ParseExpression(fuel - 1);
      var comma :- Expect(COMMA);
      var container :- ParseExpression(fuel - 1);
      return Success(InOp(t.line, t.column, element, container));
    }

    /** The parenthesised branch of `parse_primary`: the inner expression itself, with no node
        of its own. */
    method ParseParenthesized(fuel: nat) returns (r: Outcome<Node>)
      requires Valid() && Is(LPAREN)
      modifies this
      ensures Moved(old(pos), old(inPipeline))
      ensures r.Success? ==> pos > old(pos) + 2 && !r.value.ReturnStmt?
      decreases fuel, 1
    {
      var _ := Advance();
      if fuel == 0 {
        return Failure(Errors.DepthExceeded);
      }
      var inner :- ParseExpression(fuel - 1);
      var close :- Expect(RPAREN);
      return Success(inner);
    }

    /** `parse_python_expr`: `py:` then tokens up to a `|`, `,` or newline outside brackets,
        or an unmatched closing bracket, as text. */
    method ParsePythonExpr() returns (r: Outcome<Node>)
      requires Valid()
      modifies this
      ensures Moved(old(pos), old(inPipeline))
      ensures r.Success? ==> (old(pos) + 2 <= |tokens| &&
        var capture := PythonExprCapture(tokens, old(pos) + 2, Depths(0, 0, 0));
        r.value == PythonExpr(tokens[old(pos)].line, tokens[old(pos)].column, Join(capture.0, "")) &&
        pos == capture.1)
      ensures r.Success? ==> pos > old(pos)
    {
      var origin := pos;
      var token :- Expect(PY);
      var colon :- Expect(COLON);
      assert pos == origin + 2 && token == tokens[origin];
      var code, next := CaptureExpression(origin + 2);
      Seek(next);
      r := Success(PythonExpr(token.line, token.column, code));
    }

    /** The loop of `parse_python_expr` from offset `start`, on the token list: bracket depths
        start at zero. */
    method CaptureExpression(start: nat) returns (code: string, p: nat)
      requires start <= |tokens|
      ensures code == Join(PythonExprCapture(tokens, start, Depths(0, 0, 0)).0, "")
      ensures p == PythonExprCapture(tokens, start, Depths(0, 0, 0)).1
    {
      var parts := [];
      var d := Depths(0, 0, 0);
      p := start;
      NothingBefore(PythonExprCapture(tokens, p, d).0);
      while p < |tokens| && tokens[p].kind != EOF
        invariant start <= p <= |tokens|
        invariant PythonExprCapture(tokens, start, Depths(0, 0, 0)).0 == parts + PythonExprCapture(tokens, p, d).0
        invariant PythonExprCapture(tokens, start, Depths(0, 0, 0)).1 == PythonExprCapture(tokens, p, d).1
        decreases |tokens| - p
      {
        var step := ExprPiece(tokens[p], d);
        if step.None? {
          break;
        }
        ExprCaptureStep(tokens, p, d);
        MovePiece(parts, step.value.0, PythonExprCapture(tokens, p + 1, step.value.1).0);
        parts := parts + [step.value.0];
        d := step.value.1;
        p := p + 1;
      }
      ExprCaptureStop(tokens, p, d, parts);
      code := Join(parts, "");
    }

    /** `parse_operation_expr`: `op:operator(arg, ...)`; any token is taken as the operator. */
    method ParseOperationExpr(fuel: nat) returns (r: Outcome<Node>)
      requires Valid()
      modifies this
      ensures Moved(old(pos), old(inPipeline))
      ensures r.Success? ==> pos > old(pos) + 3 && r.value.Operation? && r.value.operator == tokens[old(pos) + 2].value
      ensures old(pos) + 2 == |tokens| && old(Is(OP)) && tokens[old(pos) + 1].kind == COLON ==>
        r == Failure(Errors.Crash(NoneValue))
      decreases fuel, 1
    {
      var token :- Expect(OP);
      var colon :- Expect(COLON);
      if current.None? {
        return Failure(Errors.Crash(NoneValue));
      }
      var op := Advance();
      var open :- Expect(LPAREN);
      var operands :- ParseArguments(fuel);
      return Success(Operation(token.line, token.column, op.value, operands));
    }

    /** `parse_array_literal`: a bracket with a `for` at its own depth is a list comprehension,
        kept as Python text; any other is an array literal. */
    method ParseArrayLiteral(fuel: nat) returns (r: Outcome<Node>)
      requires Valid() && Is(LBRACKET)
      modifies this
      ensures Moved(old(pos), old(inPipeline))
      ensures r.Success? ==> pos > old(pos) && (r.value.PythonExpr? || r.value.ArrayLiteral?)
      ensures r.Success? ==> (r.value.PythonExpr? <==> ScanForComprehension(tokens, old(pos) + 1, 1))
      ensures r.Success? && r.value.PythonExpr? ==>
        var capture := CaptureValues(tokens, old(pos) + 1, 1);
        r.value.code == ComprehensionCode(capture.0) && pos == capture.1 + 1
      decreases fuel, 1
    {
      var token := Advance();
      var isComprehension := ScanComprehension(pos);
      if isComprehension {
        r := ParseComprehension(token);
      } else {
        r := ParseArrayElements(token, fuel);
      }
    }

    /** The comprehension branch of `parse_array_literal`: the Python text of the tokens up
        to the closing `]`, which is then consumed. */
    method ParseComprehension(token: Token) returns (r: Outcome<Node>)
      requires Valid()
      modifies this
      ensures Moved(old(pos), old(inPipeline))
      ensures r.Success? ==>
        var capture := CaptureValues(tokens, old(pos), 1);
        r == Success(PythonExpr(token.line, token.column, ComprehensionCode(capture.0))) && pos == capture.1 + 1
    {
      var values, p := CaptureComprehension(pos);
      Seek(p);
      var close :- Expect(RBRACKET);
      return Success(PythonExpr(token.line, token.column, ComprehensionCode(values)));
    }

    /** The array branch of `parse_array_literal`: comma-separated expressions up to `]`. */
    method ParseArrayElements(token: Token, fuel: nat) returns (r: Outcome<Node>)
      requires Valid()
      modifies this
      ensures Moved(old(pos), old(inPipeline))
      ensures r.Success? ==> pos > old(pos) && r.value.ArrayLiteral?
      decreases fuel, 0
    {
      var elements: seq<Node> := [];
      while !Is(RBRACKET)
        invariant Moved(old(pos), old(inPipeline))
        decreases |tokens| - pos
      {
        if fuel == 0 {
          return Failure(Errors.DepthExceeded);
        }
        var element :- ParseExpression(fuel - 1);
        elements := elements + [element];
        if Is(COMMA) {
          var _ := Advance();
        }
      }
      var close := Advance();
      return Success(ArrayLiteral(token.line, token.column, elements));
    }

    /** The look-ahead loop of `parse_array_literal`, which scans from `start` without
        moving the parser. */
    method ScanComprehension(start: nat) returns (found: bool)
      requires start <= |tokens|
      ensures found == ScanForComprehension(tokens, start, 1)
    {
      var p := start;
      var depth: nat := 1;
      found := false;
      while p < |tokens| && depth > 0
        invariant start <= p <= |tokens|
        invariant ScanForComprehension(tokens, start, 1) == ScanForComprehension(tokens, p, depth)
        decreases |tokens| - p
      {
        var k := tokens[p].kind;
        if k == LBRACKET {
          depth := depth + 1;
        } else if k == RBRACKET {
          depth := depth - 1;
        } else if k == FOR && depth == 1 {
          return true;
        }
        p := p + 1;
      }
    }

    /** The collecting loop of `parse_array_literal` for a comprehension: the token values
        from `start` up to the `]` that closes the bracket, and the offset of that `]`. */
    method CaptureComprehension(start: nat) returns (values: seq<string>, p: nat)
      requires start <= |tokens|
      ensures values == CaptureValues(tokens, start, 1).0 && p == CaptureValues(tokens, start, 1).1
    {
      values := [];
      p := start;
      var depth: nat := 1;
      NothingBefore(CaptureValues(tokens, p, depth).0);
      while p < |tokens|
        invariant start <= p <= |tokens| && depth > 0
        invariant CaptureValues(tokens, start, 1).0 == values + CaptureValues(tokens, p, depth).0
        invariant CaptureValues(tokens, start, 1).1 == CaptureValues(tokens, p, depth).1
        decreases |tokens| - p
      {
        var k := tokens[p].kind;
        if k == RBRACKET && depth == 1 {
          break;
        }
        var next: nat := if k == LBRACKET then depth + 1 else if k == RBRACKET then depth - 1 else depth;
        CaptureAdvance(tokens, start, values, p, depth, next);
        depth := next;
        values := values + [tokens[p].value];
        p := p + 1;
      }
      CaptureStop(tokens, p, depth, values);
    }

    /** `parse_object_literal`: `{key:value, ...}`. A key is an identifier's name or one of
        the keyword tokens (its lexeme, or its lower-cased type name when the lexeme is empty);
        a value starting with `fn` is a function expression. */
    method ParseObjectLiteral(fuel: nat) returns (r: Outcome<Node>)
      requires Valid() && Is(LBRACE)
      modifies this
      ensures Moved(old(pos), old(inPipeline))
      ensures r.Success? ==> pos > old(pos) && r.value.ObjectLiteral?
      ensures r.Success? ==> forall p :: p in r.value.pairs ==> !p.value.ReturnStmt?
      decreases fuel, 1
    {
      var origin := pos;
      var token := Advance();
      var pairs: seq<Pair> := [];
      while !Is(RBRACE)
        invariant Moved(origin + 1, old(inPipeline))
        invariant forall p :: p in pairs ==> !p.value.ReturnStmt?
        decreases |tokens| - pos
      {
        if current.None? {
          return Failure(Errors.Crash(NoneType));
        }
        var key := KeyOf(current.value);
        if key.None? {
          return Failure(ErrorHere("Expected object key (identifier or keyword), got " + KindName(current.value.kind), []));
        }
        var _ := Advance();
        var colon :- Expect(COLON);
        if fuel == 0 {
          return Failure(Errors.DepthExceeded);
        }
        var value: Node;
        if Is(FN) {
          value :- ParseFunctionExpr(fuel - 1);
        } else {
          value :- ParseExpression(fuel - 1);
        }
        pairs := pairs + [Pair(key.value, value)];
        if Is(COMMA) {
          var _ := Advance();
        }
      }
      var close := Advance();
      return Success(ObjectLiteral(token.line, token.column, pairs));
    }
  }

  /** The key an object-literal token gives, if it may be a key. */
  function KeyOf(t: Token): (key: Option<string>)
    ensures key.Some? <==> t.kind == IDENTIFIER || KindName(t.kind) in KeywordKeys
    ensures t.kind == IDENTIFIER ==> key == Some(t.value)
    ensures t.kind != IDENTIFIER && key.Some? && t.value == "" ==> key.value == Lower(KindName(t.kind))
  {
    if t.kind == IDENTIFIER then Some(t.value)
    else if KindName(t.kind) in KeywordKeys then Some(if t.value != "" then t.value else Lower(KindName(t.kind)))
    else None
  }

  /** `parse(source)`: tokenize, then parse. The tokens come from the interpreter's lexer
      (`Lexer.TokenizeSource`), standing in for src/vl/lexer.py, which is not part of this model;
      that lexer never produces ELSE, CLASS, SELF, PY, IN or FLOOR_DIVIDE, so the branches of
      the parser that consume them are reached only by calling `Parser` on a token list
      directly. The parser made here has no source text, so its errors carry an empty source
      line. */
  method ParseSource(text: string, fuel: nat) returns (r: Outcome<Node>)
    ensures r.Success? ==> r.value.Program? && r.value.line == 1 && r.value.column == 1
  {
    var tokens :- Lexer.TokenizeSource(text);
    var parser := new Parser(tokens, "");
    r := parser.Parse(fuel);
  }
}

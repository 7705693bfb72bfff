# VL compiler front end in Dafny

VL is a compact language meant to be written by language models and compiled to Python,
JavaScript, TypeScript, C and Rust. This project models the front end and the code generators of its compiler and
proves properties of that model. It covers:

- the lexer, which turns source text into tokens;
- the AST node records and their text dump;
- the recursive-descent parser of the `src/vl` package;
- the static type checker;
- the error records and their formatting;
- the per-target configuration table;
- the code generator base class and the JavaScript, C and Rust generators of `src/vl/codegen`;
- the older interpreter's own parser, `interpreter/parser.py`, and its JavaScript,
  TypeScript and Python generators.

Modules follow the source files one to one:

| module | source file | form |
|---|---|---|
| `Tokens` | `interpreter/lexer.py` (token kinds, keyword/type/operator tables) | datatypes and table functions |
| `Lexer` | `interpreter/lexer.py` (`Lexer` class) | a class over the source text whose step methods are proved against pure functions (`StepAt`, `TokenizeFrom`) |
| `Ast` | `interpreter/ast_nodes.py` | one `Node` datatype with a constructor per node class, plus `ast_to_string` |
| `ParserSupport` | `src/vl/parser.py` (pure helpers) | functions: statement routing, hints, left folds, token capture |
| `Parser` | `src/vl/parser.py` (`Parser` class) | a class with a token cursor; each `parse_*` is a method |
| `TypeChecker` | `src/vl/type_checker.py` | pure inference functions, and a `Checker` class whose methods are proved against them |
| `Errors` | `src/vl/errors.py` | error records and their formatting |
| `Config` | `src/vl/config.py` | the target settings table |
| `CodegenBase` | `src/vl/codegen/base.py` | a `BaseCodeGenerator` class over a list of lines, with the pure helpers as functions |
| `CodegenJs`, `CodegenJsProofs` | `src/vl/codegen/javascript.py` | a `JSCodeGenerator` class whose emit methods are proved against the pure line functions `Expr`, `StmtLines` and `ProgramLines`; the lemmas about those functions |
| `CodegenC`, `CodegenCProofs` | `src/vl/codegen/c.py` | a `CCodeGenerator` class proved against `CExpr`, `CStmtLines` and `ProgramLines`, which return `None` where Python raises; the lemmas, including the findings |
| `CodegenRust`, `CodegenRustProofs` | `src/vl/codegen/rust.py` | a `RustCodeGenerator` class proved against `RExpr`, `RStmtLines` and `ProgramLines`; the lemmas, including the comparison with C |
| `LegacyParser` | `interpreter/parser.py` | a class with a token cursor; each `parse_*` is a method, with the routing and key rules as functions compared with `Parser` |
| `LegacyJs`, `LegacyJsProofs` | `interpreter/codegen_js.py` | a generator class proved against `LExpr`, `LStmtLines` and `LProgramLines`; the lemmas, including where it agrees with `CodegenJs` |
| `LegacyTs`, `LegacyTsProofs` | `interpreter/codegen_ts.py` | a generator class proved against `TExpr`, `TStmtLines` and `TProgramLines`, which return `None` where Python raises; the lemmas |
| `LegacyPython`, `LegacyPythonProofs` | `interpreter/codegen_python.py` | a generator class proved against `PyExpr`, `PyStmtLines` and `ProgramLines`, the string-template rewrite taken as a parameter; the lemmas |
| `Strings`, `Wrappers` | — | character classes, decimal conversion, `Option` and `Result` |

A parse or lex call returns `Result<T, Failure>`. A `Failure` is one of:

- `Raised(e)`: the `LexerError` or `ParseError` the source raises;
- `Crash(reason)`: a Python runtime error the source would hit, for example an attribute of `None`;
- `Diverges`: a statement loop that makes no progress, where the source loops forever;
- `DepthExceeded`: the recursion bound ran out (see "Left out").

Every parse method takes a `fuel` argument that stands for Python's recursion limit.

## Model

| member | source | states |
|---|---|---|
| Errors.LocationString | src/vl/errors.py:17-18 | `line:column` is exactly the two decimal numerals around one colon |
| Errors.LocationStringRoundTrip | src/vl/errors.py:17-18 | splitting the location text at `:` gives two numerals that read back as the line and the column |
| Errors.NewError | src/vl/errors.py:24-29 | an error keeps its message, location and source line; absent hints become the empty list |
| Errors.FormatLinesShape | src/vl/errors.py:32-57 | formatted error: a header naming the class (with line and column when located), the indented message, a blank line plus the numbered source line plus the caret line only when there is both a source line and a location, then a blank line and one `Hint:` line per hint in order |
| Errors.HintLines | src/vl/errors.py:52-55 | one `  Hint: ` line per hint, same order |
| Errors.CaretLine | src/vl/errors.py:47-49 | the caret line is as long as `len(str(line)) + 3 + column - 1` padding blanks plus `length` carets, a negative count giving none |
| Errors.CaretTwoColumnsLeft | src/vl/errors.py:47-49 | as written, the caret stands two columns left of the character at the reported column (see Findings) |
| Errors.CaretUnderSeparator | src/vl/errors.py:47-49 | for `abc` at line 1, column 1 the caret sits under the `|` separator |
| Errors.AlignedCaretUnderColumn | src/vl/errors.py:47-49 | with the prefix width counted correctly, the caret stands exactly under the reported character |
| Errors.FormatErrorContext | src/vl/errors.py:80-85 | the context is one line (no newline in it); a line number outside the text gives the empty string |
| Errors.ContextOfJoinedLines | src/vl/errors.py:80-85 | for a text joined from newline-free lines, line k of the context is exactly the k-th line |
| Config.TargetExtension | src/vl/config.py:64-68 | the lower-cased target's table extension, `.txt` for an unknown target |
| Config.ExtensionCaseInsensitive | src/vl/config.py:64-68 | targets equal up to case get the same extension |
| Config.ExtensionsDistinct | src/vl/config.py:25-56 | two known targets share an extension exactly when they are the same target, and no known target maps to `.txt` |
| Config.FlagOffDisables | src/vl/config.py:70-73 | with the global flag off, no target optimizes boolean chains |
| Config.OnlyPythonOptimizes | src/vl/config.py:70-76 | boolean-chain optimization is on exactly for `python`, in any letter case |
| Config.Indent | src/vl/config.py:78-80 | `n` indentation levels are `4n` spaces (none for `n <= 0`) |
| Tokens.WordKind | interpreter/lexer.py:126-172 | a word is a keyword if it is in the keyword table, else a type if in the type table, else an identifier |
| Tokens.MapIsKeyword | interpreter/lexer.py:339-352 | `map` is in both tables, and the keyword table wins |
| Tokens.TypeMapUnreachable | interpreter/lexer.py:339-352 | no word ever lexes as `TYPE_MAP` |
| Lexer.Lexer.constructor | interpreter/lexer.py:192-197 | a fresh lexer is at offset 0, line 1, column 1, with no tokens |
| Lexer.Lexer.CurrentChar | interpreter/lexer.py:199-203 | the character at the cursor, `None` at the end |
| Lexer.Lexer.PeekChar | interpreter/lexer.py:205-210 | the character `offset` ahead, `None` past the end |
| Lexer.Lexer.Advance | interpreter/lexer.py:212-226 | consumes one character; a newline moves to the next line at column 1, any other character moves one column; at the end nothing changes |
| Lexer.Lexer.SkipWhitespace | interpreter/lexer.py:228-231 | skips exactly the maximal run of spaces, tabs and carriage returns |
| Lexer.Lexer.SkipComment | interpreter/lexer.py:233-237 | from `#`, skips to the next newline without consuming it |
| Lexer.NumberLexemeShape | interpreter/lexer.py:239-260 | a number lexeme is digits with at most one dot, and it stops before `..` so that `0..10` is a range |
| Lexer.Lexer.ReadNumber | interpreter/lexer.py:239-260 | emits a NUMBER token whose text is the scanned lexeme, at the start position |
| Lexer.Lexer.ReadString | interpreter/lexer.py:262-330 | a closed string yields its unescaped value; a missing closing quote raises "Unterminated string literal" at the opening quote with the two hints; a backslash as the last character crashes |
| Lexer.EscapeRoundTrip | interpreter/lexer.py:262-330 | escaping any text and closing it with the quote reads back as the same text, ending just past the quote |
| Lexer.QuoteInsideInterpolation | interpreter/lexer.py:274-298 | inside `${...}` the closing quote does not end the string |
| Lexer.UnterminatedAtOpeningQuote | interpreter/lexer.py:320-330 | an unterminated string is reported at the line and column of its opening quote |
| Lexer.Lexer.ReadIdentifier | interpreter/lexer.py:332-352 | reads the maximal run of letters, digits, `_` and `-`, classified by the keyword and type tables |
| Lexer.Lexer.Step | interpreter/lexer.py:356-473 | one round of the tokenize loop equals the specification step `StepAt` and never emits EOF |
| Lexer.StepAt | interpreter/lexer.py:356-473 | a step that emits a token moves forward and stamps the token with the line and column where it starts |
| Lexer.Lexer.ReadDot | interpreter/lexer.py:383-401 | `..` is a range token, a dot before a digit starts a number, and any other dot is a DOT token |
| Lexer.Lexer.ReadSymbol | interpreter/lexer.py:413-473 | two-character operators, then compound assignments, then one-character operators, then delimiters, else an error |
| Lexer.Lexer.Tokenize | interpreter/lexer.py:354-477 | the token list is the specification `TokenizeFrom`: earlier tokens are kept, and the list ends in one EOF at the final line and column |
| Lexer.Lexer.TokenizeSource | interpreter/lexer.py:480-483 | a successful run is non-empty, has EOF only as its last token, and equals `Tokenize(source)` |
| Lexer.RangeLexes | interpreter/lexer.py:246-258 | `0..10` lexes as NUMBER, DOTDOT, NUMBER, EOF with their columns |
| Lexer.LeadingDotNumberLexes | interpreter/lexer.py:392-395 | `.5` is one NUMBER token |
| Lexer.LoneDotLexes | interpreter/lexer.py:397-401 | `.a` is DOT followed by IDENTIFIER |
| Lexer.HyphenatedWordLexes | interpreter/lexer.py:336-339 | `a-b` is one identifier, not a subtraction |
| Lexer.MapLexesAsKeyword | interpreter/lexer.py:344-345 | `map` lexes as the MAP keyword |
| Lexer.LessEqualLexes | interpreter/lexer.py:413-420 | `<=` is one LESS_EQUAL token |
| Lexer.PowerLexes | interpreter/lexer.py:413-420 | `**` is one POWER token |
| Lexer.OrLexes | interpreter/lexer.py:413-420 | `\|\|` is OR, and the two-character table is tried before the pipe delimiter |
| Lexer.PlusEqualsLexes | interpreter/lexer.py:422-435 | `+=` is one PLUS_EQUALS token |
| Lexer.PipeLexes | interpreter/lexer.py:444-465 | a lone `\|` is the PIPE delimiter |
| Lexer.PlusLexes | interpreter/lexer.py:437-442 | a lone `+` is PLUS |
| Lexer.UnknownCharacterFails | interpreter/lexer.py:467-473 | a lone `&` raises "Unexpected character '&'" at its position with the typo hint |
| Ast.NodeDefaults | interpreter/ast_nodes.py:151-350 | a string is not a template by default, an API call is synchronous with no operations, a sort is ascending, and a join is inner |
| Ast.RenderIsIndentedOutline | interpreter/ast_nodes.py:387-474 | the AST dump is the node's outline with each line indented two spaces per depth and ended by a newline |
| Ast.LinesIndented | interpreter/ast_nodes.py:387-474 | the first dumped line is the node's header at its depth, and every later line is indented at least one level deeper |
| Ast.ProgramStatementOrder | interpreter/ast_nodes.py:391-401 | appending a statement appends its dump after the earlier statements and before the export |
| Ast.OperationOperandOrder | interpreter/ast_nodes.py:412-417 | operands are dumped in order, one level deeper |
| Ast.ReturnValueDeeper | interpreter/ast_nodes.py:430-434 | a return prints `Return:` and then its value one level deeper |
| Ast.FallbackSingleLine | interpreter/ast_nodes.py:435-436 | any node without its own case prints just its class name on one line |
| Ast.AstToString | interpreter/ast_nodes.py:387-474 | the AST dump: the node's header at `indent` spaces, then its children one level deeper (specification function, no contract; its properties are the `Ast` lemmas above) |
| ParserSupport.ExpectHintCounts | src/vl/parser.py:100-122 | two hints for PIPE and COLON, one for each closing bracket, one for IDENTIFIER plus a reserved-word hint naming the keyword for INPUT/OUTPUT/DATA/FILTER/MAP, none otherwise |
| ParserSupport.IdentifierRouting | src/vl/parser.py:269-325 | an identifier statement is routed by the next token alone: an assignment operator, then `[`/`.`, then `(`; anything else, or the end of input, is the "Unexpected identifier pattern" error |
| ParserSupport.NoStatementOnlyAtElse | src/vl/parser.py:242-247 | no statement is produced exactly at the end of the tokens or at `else` |
| ParserSupport.KeywordRouteIgnoresNext | src/vl/parser.py:240-364 | statements not starting with an identifier are chosen by their first token alone |
| ParserSupport.NumberValue | src/vl/parser.py:1357 | a lexeme containing a dot is a float, and one made only of digits is an int |
| ParserSupport.NumberValueOfDecimal | src/vl/parser.py:1357 | the decimal numeral of n reads back as the int n |
| ParserSupport.LeftAssociative | src/vl/parser.py:1190-1249 | `a op1 b op2 c` is `(a op1 b) op2 c`, each node at its operator token |
| ParserSupport.FoldLeftRound | src/vl/parser.py:1190-1249 | the i-th loop round builds a binary node whose left operand is everything folded before it |
| ParserSupport.LevelsDisjoint | src/vl/parser.py:1194-1240 | the four precedence levels share no operator token |
| ParserSupport.OptionalBody | src/vl/parser.py:465-467 | an empty list is stored as `None`, and a non-empty list as itself |
| ParserSupport.ScanFlat | src/vl/parser.py:1666-1681 | with no brackets before it, a `for` makes the literal a comprehension and a `]` rules it out |
| ParserSupport.NestedForIgnored | src/vl/parser.py:1677 | a `for` inside a nested bracket does not make the outer literal a comprehension |
| ParserSupport.CaptureValuesAgree | src/vl/parser.py:1684-1698 | the comprehension capture is exactly the token texts up to the matching `]` |
| ParserSupport.ComprehensionCode | src/vl/parser.py:1701 | the captured code is bracketed |
| ParserSupport.PythonExprStopsAtDelimiter | src/vl/parser.py:1508-1574 | outside brackets, `py:` expression capture copies token texts verbatim and stops at the first `\|`, `,` or newline, leaving it unconsumed |
| ParserSupport.DelimiterKeptInsideBrackets | src/vl/parser.py:1569-1572 | inside any open bracket, a delimiter is copied into the code |
| ParserSupport.AtRunSeparator | src/vl/parser.py:1615-1624 | `@@@` inside a `py:` statement is kept as one `@@@` piece |
| ParserSupport.PythonStmtStopsAtPipe | src/vl/parser.py:1597-1629 | `py:` statement capture consumes everything up to the first `\|` or EOF and stops there |
| ParserSupport.PathNameStartsWithRoot | src/vl/parser.py:1756-1767 | an assignment target's name starts with its root identifier, and `obj.prop` prints as the object's name, a dot and the property |
| ParserSupport.SelfMemberName | src/vl/parser.py:1765-1767 | `self.x = ...` assigns to the name `self.x` |
| ParserSupport.ExprToString | src/vl/parser.py:1756-1770 | an assignment target's name: an identifier's name, `o[i]` for an index, `o.p` for a member access, and a repr placeholder for any other node (specification function, no contract; see `PathNameStartsWithRoot`) |
| Parser.Parser.constructor | src/vl/parser.py:44-50 | the cursor starts at token 0 (`None` for no tokens), outside a pipeline |
| Parser.Parser.PendingPipelineCheck | src/vl/parser.py:129-132 | the "no pending pipeline" condition holds exactly when the cursor is not at a `\|` followed by filter/map/parse outside a chain |
| Parser.Parser.Advance | src/vl/parser.py:80-85 | returns the current token and moves the cursor one token on |
| Parser.Parser.Expect | src/vl/parser.py:91-98 | succeeds exactly when the current token has the expected kind, returning it and moving on; otherwise raises a ParseError and stays put |
| Parser.Parser.SkipNewlines | src/vl/parser.py:124-127 | skips exactly a run of NEWLINE tokens |
| Parser.Parser.Parse | src/vl/parser.py:134-183 | a program at 1:1 whose optional parts have the right node kinds, with at most 1000 loop rounds of statements, and an absent export only when no `export` follows |
| Parser.Parser.ParseMetadata | src/vl/parser.py:185-203 | `meta:name,type,target` takes exactly seven tokens and stores the three names |
| Parser.Parser.ParseDependencies | src/vl/parser.py:205-227 | a single dependency is the identifier after `deps:` |
| Parser.Parser.ParseDependencyList | src/vl/parser.py:212-219 | the bracketed list consumes at least `[` and `]` |
| Parser.Parser.ParseExport | src/vl/parser.py:229-238 | `export:name` takes three tokens and records the name at the keyword's position |
| Parser.Parser.ParseStatement | src/vl/parser.py:240-364 | dispatch on `RouteOf`: nothing at the end or at `else`; the identifier-pattern and "Unexpected token" errors with the cursor unmoved; assignments and calls by route; `self=` is rejected; any statement consumes input |
| Parser.Parser.ParseDefinitionStatement | src/vl/parser.py:249-263 | decorated items, classes, functions and `v:` definitions consume input, and only a decorated item can yield no statement |
| Parser.Parser.ParseIdentifierStatement | src/vl/parser.py:269-325 | each identifier route yields its node kind, or the identifier-pattern error |
| Parser.Parser.ParseKeywordStatement | src/vl/parser.py:327-364 | keyword statements consume input; any other token raises "Unexpected token: KIND" |
| Parser.Parser.ParseTargetFirst | src/vl/parser.py:277-318 | after a subscript or member target comes an untyped definition, a compound assignment, or else an expression statement |
| Parser.Parser.ParseDecorated | src/vl/parser.py:366-416 | a decorated function or class carries at least one decorator; anything else after the decorators yields no statement, because the error is built but not raised |
| Parser.Parser.ParseDecorator | src/vl/parser.py:371-400 | a decorator node is placed at its `@` |
| Parser.Parser.ParseClassDef | src/vl/parser.py:418-469 | the class name is the third token; an empty base/method/attribute list is stored as `None`; methods are functions; the body ends at column 1 or at a token that cannot start a member |
| Parser.Parser.ParseBaseClasses | src/vl/parser.py:427-433 | a bracketed base list consumes input |
| Parser.Parser.ParseClassMembers | src/vl/parser.py:439-460 | collected methods are function definitions, and the loop stops at column 1 or at a non-member token |
| Parser.Parser.ParseFunctionDef | src/vl/parser.py:471-483 | the name is the third token, and the input list is empty exactly when `i:` is directly followed by `\|` |
| Parser.Parser.ParseFunctionExpr | src/vl/parser.py:485-497 | the same signature facts for a function used as an object value |
| Parser.Parser.ParseFunctionCommon | src/vl/parser.py:499-536 | signature then body; the returned start token is the `fn` token |
| Parser.Parser.ParseSignature | src/vl/parser.py:509-531 | `fn:name\|i:...\|o:type\|` facts: name position and empty-input rule |
| Parser.Parser.ParseInputs | src/vl/parser.py:519-523 | the input list is empty exactly when the next token is `\|` |
| Parser.Parser.ParseFunctionBody | src/vl/parser.py:538-573 | the body ends at the end of tokens, at a stop token, or at a column-1 token right after a newline |
| Parser.Parser.ParseTypeList | src/vl/parser.py:575-584 | at least one type, and no trailing comma is left |
| Parser.Parser.ParseType | src/vl/parser.py:586-601 | succeeds exactly on a type token and builds the Type at it; crashes on a missing token |
| Parser.Parser.ParseImplicitAssignment | src/vl/parser.py:603-647 | `name op= e` is a compound assignment with the operator's symbol, and `name = e` an untyped definition, both at the name's position |
| Parser.Parser.ParseCompoundAssignment | src/vl/parser.py:609-636 | the operator is `+`, `-`, `*` or `/` per the compound token |
| Parser.Parser.ParseVariableDef | src/vl/parser.py:649-670 | the name is the third token, and it carries a type exactly when a colon follows the name |
| Parser.Parser.ParseReturn | src/vl/parser.py:672-681 | a return placed at `ret` |
| Parser.Parser.ParseImplicitCall | src/vl/parser.py:683-692 | an expression statement placed at its first token |
| Parser.Parser.ParseIf | src/vl/parser.py:704-847 | a ternary exactly when `?` follows the condition, with `ret:` branches placed at the `if`; otherwise a block form whose else body is `None` when empty |
| Parser.Parser.ParseIfBlock | src/vl/parser.py:746-847 | keeps the parsed condition; an empty else body is `None` |
| Parser.Parser.ParseBranch | src/vl/parser.py:720-738 | a branch is a return exactly when it starts with `ret`, placed at the `if` token |
| Parser.Parser.ParseBlock | src/vl/parser.py:753-793 | unless it stalls, a block stops at EOF, at or left of the anchor column, or left of its first statement's column, which is right of the anchor |
| Parser.Parser.ParseFor | src/vl/parser.py:854-903 | the loop variable is the third token, whatever its kind, and the body ends at a loop-ending token |
| Parser.Parser.ParseWhile | src/vl/parser.py:905-940 | the body ends at a loop-ending token |
| Parser.Parser.ParseLoopBody | src/vl/parser.py:875-896 | stops at EOF, at `ret`/`fn`/`meta`/`deps`/`export`, or at a pipe that starts a pipeline operation |
| Parser.Parser.ParseApiCall | src/vl/parser.py:942-986 | asynchronous exactly when it starts with `async`; chained operations are filter/map/parse, and no pipeline operation is left |
| Parser.Parser.ParseApiOperations | src/vl/parser.py:963-977 | all chained operations are filter/map/parse, and the loop consumes every pipeline operation that follows |
| Parser.Parser.ParseChainOp | src/vl/parser.py:990-1009 | the operation kind follows the keyword; a map has an expression and no fields |
| Parser.Parser.ParseUiComponent | src/vl/parser.py:1011-1090 | the component is named by the third token and its body is always empty |
| Parser.Parser.ParseTypeSuffix | src/vl/parser.py:1039-1043 | after a colon, the next token's text is taken as the type, whatever its kind |
| Parser.Parser.ParseDataPipeline | src/vl/parser.py:1092-1160 | at most 100 data operations, all of the five data kinds; outside a chain the source expression swallows no pipeline |
| Parser.Parser.ParseDataOp | src/vl/parser.py:1104-1154 | an operation is stamped with the line of the token after it; an unknown keyword adds nothing and consumes nothing |
| Parser.Parser.ParseFileOperation | src/vl/parser.py:1164-1184 | all comma-separated arguments are consumed |
| Parser.Parser.ParsePythonStmt | src/vl/parser.py:1582-1637 | the code is the joined `py:` statement capture, and the cursor lands where the capture stops |
| Parser.Parser.CaptureStatement | src/vl/parser.py:1597-1631 | the capture loop computes `PythonStmtCapture` |
| Parser.Parser.CountAts | src/vl/parser.py:1618-1621 | counts the run of `@` tokens |
| Parser.Parser.ParseExpression | src/vl/parser.py:1186-1188 | an expression consumes input, is never a return, and stops before any binary operator or pending pipeline |
| Parser.Parser.ParseLogical | src/vl/parser.py:1190-1203 | the result is a left fold, over operator tokens of `&&`/`\|\|`, of operands the contract leaves unconstrained (see Left out) |
| Parser.Parser.ParseComparison | src/vl/parser.py:1205-1219 | the result is a left fold, over comparison operator tokens, of operands the contract leaves unconstrained (see Left out) |
| Parser.Parser.ParseTerm | src/vl/parser.py:1221-1234 | the result is a left fold, over `+`/`-` tokens, of operands the contract leaves unconstrained (see Left out) |
| Parser.Parser.ParseFactor | src/vl/parser.py:1236-1249 | the result is a left fold, over `*`, `/`, `//`, `%` tokens, of operands the contract leaves unconstrained (see Left out) |
| Parser.Parser.ParseUnary | src/vl/parser.py:1251-1262 | a leading `-` or `!` yields a one-operand operation at that token |
| Parser.Parser.ParsePostfix | src/vl/parser.py:1264-1306 | it stops only at a token that is not `.`, `[`, `(` or a pending pipeline |
| Parser.Parser.ParsePostfixStep | src/vl/parser.py:1268-1304 | one round of the postfix loop; stopping consumes nothing |
| Parser.Parser.ParseCallArgs | src/vl/parser.py:1308-1322 | a call node at the callee's position, with that callee |
| Parser.Parser.ParseArguments | src/vl/parser.py:1311-1316 | the argument list ends just after `)` |
| Parser.Parser.ParsePipelineChain | src/vl/parser.py:1324-1348 | a pipeline on the given source at its position, with filter/map/parse only, consuming every pipeline operation; the in-pipeline flag is reset |
| Parser.Parser.ParsePrimary | src/vl/parser.py:1350-1493 | a number becomes an int or float literal and a range exactly when `..` follows; a string is a template exactly when it contains `${`; a missing token crashes |
| Parser.Parser.ParseNumber | src/vl/parser.py:1355-1373 | number literal, and a range exactly when `..` follows |
| Parser.Parser.ParseDirectCall | src/vl/parser.py:1395-1413 | `@f(...)` is a call of the identifier `f` placed at the `@` |
| Parser.Parser.ParseInOp | src/vl/parser.py:1428-1439 | `in:a,b` is a membership node |
| Parser.Parser.ParseParenthesized | src/vl/parser.py:1479-1483 | a parenthesized expression consumes both parentheses |
| Parser.Parser.ParsePythonExpr | src/vl/parser.py:1495-1580 | the code is the joined `py:` expression capture, and the cursor lands where it stops |
| Parser.Parser.CaptureExpression | src/vl/parser.py:1517-1574 | the capture loop computes `PythonExprCapture` |
| Parser.Parser.ParseOperationExpr | src/vl/parser.py:1639-1660 | the operator is the token after `op:`; `op:` at the very end crashes |
| Parser.Parser.ParseArrayLiteral | src/vl/parser.py:1662-1720 | a comprehension exactly when a depth-1 `for` appears before the matching `]`, and its code is the captured token texts |
| Parser.Parser.ParseComprehension | src/vl/parser.py:1684-1706 | `[` + the captured texts joined by spaces + `]`, and the cursor lands after the `]` |
| Parser.Parser.ParseArrayElements | src/vl/parser.py:1708-1720 | a plain array literal consumes input |
| Parser.Parser.ScanComprehension | src/vl/parser.py:1666-1682 | the look-ahead loop computes `ScanForComprehension` and restores the cursor |
| Parser.Parser.CaptureComprehension | src/vl/parser.py:1687-1697 | the collection loop computes `CaptureValues` |
| Parser.Parser.ParseObjectLiteral | src/vl/parser.py:1722-1754 | an object literal consumes input, and no value is a return |
| Parser.KeyOf | src/vl/parser.py:1728-1736 | identifiers and the listed keywords are keys; an identifier keeps its text; an empty keyword text becomes the kind's lower-case name |
| Parser.ParseSource | src/vl/parser.py:1773-1777 | lex then parse gives a program at 1:1; the interpreter lexer stands in for src/vl/lexer.py (see Left out) |
| TypeChecker.BuiltinType | src/vl/type_checker.py:30-44 | exactly the builtin names have a type record, named as asked |
| TypeChecker.ResolveType | src/vl/type_checker.py:111-117 | an annotation resolves to the type named by its lower-cased name |
| TypeChecker.CompatibilityOnBuiltins | src/vl/type_checker.py:46-60 | on builtins: same type, `any` either way, or int into float |
| TypeChecker.UnknownTargetRejects | src/vl/type_checker.py:327-341 | a non-builtin target accepts only itself and `any` |
| TypeChecker.IntegralFloatIsInt | src/vl/type_checker.py:250-255 | example: `1.0` infers int and `1.5` float |
| TypeChecker.OperationInferenceOrder | src/vl/type_checker.py:263-294 | comparisons and logic give bool; `+` with a string gives str; float arithmetic gives float; int/int division gives int; other division gives float; unknown operators give any |
| TypeChecker.IntDivisionIsInt | src/vl/type_checker.py:285-290 | example: `7 / 2` is inferred as int |
| TypeChecker.SignaturesLastDefinition | src/vl/type_checker.py:85-103 | the pre-pass registers every function, and the last definition of a name wins |
| TypeChecker.ForwardCallType | src/vl/type_checker.py:296-325 | a call to a function defined anywhere in the program has that function's declared output type |
| TypeChecker.ParamsBound | src/vl/type_checker.py:131-154 | parameter k is bound as `i<k>` to its resolved type |
| TypeChecker.ParamsKeepOthers | src/vl/type_checker.py:131-154 | binding parameters leaves every other name unchanged |
| TypeChecker.AnnotatedVariable | src/vl/type_checker.py:156-181 | an annotated definition binds the declared type; a mismatch appends one TypeError at the definition, naming both types |
| TypeChecker.MismatchNamesBoth | src/vl/type_checker.py:170-178 | the mismatch message quotes the declared and the inferred type |
| TypeChecker.UnannotatedVariable | src/vl/type_checker.py:156-181 | an unannotated definition only binds the inferred type |
| TypeChecker.TopLevelReturnIgnored | src/vl/type_checker.py:183-199 | a return outside a function is not checked |
| TypeChecker.CompoundAssignmentErrors | src/vl/type_checker.py:201-216 | a compound assignment adds at most one error and no binding; on a string it is rejected exactly for `-`, `*` and `/` |
| TypeChecker.OtherStatementsUnchecked | src/vl/type_checker.py:119-129 | statements other than definitions, returns and compound assignments change nothing |
| TypeChecker.FunctionRestoresScope | src/vl/type_checker.py:131-154 | checking a function restores the symbols, the return type and the current function, and only appends errors |
| TypeChecker.CheckTwiceSameErrors | src/vl/type_checker.py:85-103 | checking a program twice adds no new errors, because the error list is reset |
| TypeChecker.Checker.Check | src/vl/type_checker.py:85-103 | the checker state after `check` is the pure `CheckProgram` of the state before, and the result is its error list |
| TypeChecker.Checker.RegisterFunction | src/vl/type_checker.py:105-109 | records the signature under the function's name |
| TypeChecker.Checker.CheckStatement | src/vl/type_checker.py:119-129 | equals `CheckStmt` |
| TypeChecker.Checker.CheckFunctionDef | src/vl/type_checker.py:131-154 | equals `CheckFunction` |
| TypeChecker.Checker.EnterScope | src/vl/type_checker.py:136-146 | equals `EnterFunction` |
| TypeChecker.Checker.CheckVariable | src/vl/type_checker.py:156-181 | equals `CheckVariableDef` |
| TypeChecker.Checker.CheckReturnStmt | src/vl/type_checker.py:183-199 | equals `CheckReturn` |
| TypeChecker.Checker.CheckCompoundAssignment | src/vl/type_checker.py:201-216 | equals `CheckCompound` |
| TypeChecker.Checker.AddTypeError | src/vl/type_checker.py:343-353 | equals `AddError` |
| TypeChecker.TypeCheck | src/vl/type_checker.py:365-377 | the errors of checking from an empty state |
| TypeChecker.TypesCompatible | src/vl/type_checker.py:327-341 | `_types_compatible` (specification function, no contract; see `CompatibilityOnBuiltins` and `UnknownTargetRejects`) |
| TypeChecker.OperationType | src/vl/type_checker.py:263-294 | the type of an operation from its operator and operand types (specification function, no contract; see `OperationInferenceOrder`) |
| TypeChecker.InferType | src/vl/type_checker.py:218-325 | `_infer_type` over literals, identifiers, operations and calls (specification function, no contract; see `OperationInferenceOrder` and `ForwardCallType`) |
| TypeChecker.CheckStmt | src/vl/type_checker.py:119-216 | the checker state after one statement (specification function, no contract; the `Checker` methods equal it and the lemmas above state its effects) |
| TypeChecker.CheckProgram | src/vl/type_checker.py:85-103 | the checker state after `check` (specification function, no contract; see `CheckTwiceSameErrors` and `Checker.Check`) |
| CodegenBase.IndentedLineShape | src/vl/codegen/base.py:35-40 | an emitted non-empty line is `level` copies of the indent unit followed by the line itself; an empty line is exactly "" at any level |
| CodegenBase.IndentedLineDeeper | src/vl/codegen/base.py:35-40 | one more level puts one more copy of the unit in front of a non-empty line |
| CodegenBase.NestLine | src/vl/codegen/base.py:35-54 | a line emitted after `_indent` is the line emitted before it, nested once |
| CodegenBase.ClassifiersDisjoint | src/vl/codegen/base.py:121-138 | a sanity fact about the two classifiers, not a promise of the source: a simple expression never needs parentheses and an operation is never simple; a call is neither |
| CodegenBase.ReplaceItemAbsent | src/vl/codegen/base.py:102-119 | code without a whole-word `item` comes back unchanged |
| CodegenBase.ReplaceItemByItself | src/vl/codegen/base.py:102-119 | replacing `item` by `item` changes nothing |
| CodegenBase.ReplaceItemLength | src/vl/codegen/base.py:102-119 | the length changes by `len(replacement) - 4` per whole-word match and by nothing else |
| CodegenBase.ReplaceItemWholeWord | src/vl/codegen/base.py:117-119 | `item` on its own is replaced |
| CodegenBase.ReplaceItemInsideWord | src/vl/codegen/base.py:117-119 | `items` and `item_id` are left alone, because `item` is only part of a longer word there |
| CodegenBase.ParamNamesDistinct | src/vl/codegen/base.py:154-157 | the generated parameter names `{prefix}{i}` are pairwise distinct |
| CodegenBase.BaseCodeGenerator.constructor | src/vl/codegen/base.py:27-31 | a new generator has no code, level 0 and a four-space indent unit |
| CodegenBase.BaseCodeGenerator.Emit | src/vl/codegen/base.py:35-40 | `_emit` appends exactly one line, indented at the current level, and changes nothing else |
| CodegenBase.BaseCodeGenerator.GetOutput | src/vl/codegen/base.py:42-44 | the output joins the lines with newlines, so splitting it at newlines gives the lines back when none holds a newline |
| CodegenBase.BaseCodeGenerator.Indent | src/vl/codegen/base.py:48-50 | one level more, code untouched |
| CodegenBase.BaseCodeGenerator.Dedent | src/vl/codegen/base.py:52-54 | one level less but never below 0, code untouched |
| CodegenBase.BaseCodeGenerator.SignatureParams | src/vl/codegen/base.py:142-158 | the loop builds one `{prefix}{i}: {type}` entry per input type, in order |
| CodegenBase.BaseCodeGenerator.CollectDependencies | src/vl/codegen/base.py:160-169 | the declared dependency list, or [] when the program has none |
| CodegenBase.BaseCodeGenerator.DispatchStatement | src/vl/codegen/base.py:173-192 | a handled class gets its handler's lines; any other class gets one `# Unhandled statement: X` line; the level is unchanged |
| CodegenBase.DispatchExpression | src/vl/codegen/base.py:196-211 | a handled class gets its handler's text; any other gets an `/* Unhandled expression: X */` comment |
| CodegenJs.MapOperator | src/vl/codegen/javascript.py:335-340 | the mapped operator is never loose `==` or `!=`; operators outside the map pass through unchanged |
| CodegenJs.Flatten | src/vl/codegen/javascript.py:205-211 | the flattened source is never itself a pipeline |
| CodegenJs.ChainOpsConcat | src/vl/codegen/javascript.py:416-448 | chaining two operation lists one after the other is chaining their concatenation |
| CodegenJs.PipelineExprFlattened | src/vl/codegen/javascript.py:402-448 | a nested pipeline printed inline is the innermost source with all operations chained innermost-first |
| CodegenJs.FlattenKeepsOperations | src/vl/codegen/javascript.py:205-211 | flattening keeps the outer pipeline's operations, last; a pipeline over a plain source flattens to itself |
| CodegenJs.ChainPipeline | src/vl/codegen/javascript.py:413-448 | the loop over the flattened operations prints exactly the inline pipeline text |
| CodegenJs.BodyLinesSnoc | src/vl/codegen/javascript.py:60-61 | emitting one more statement extends the lines of the statements before it |
| CodegenJs.OpsLinesSnoc | src/vl/codegen/javascript.py:218-258 | emitting one more pipeline step extends the lines of the steps before it |
| CodegenJs.BlockSteps | src/vl/codegen/javascript.py:98-113 | a block is its header line, then its body, then its closing lines |
| CodegenJs.JSCodeGenerator.constructor | src/vl/codegen/javascript.py:19-22 | empty output at level 0 |
| CodegenJs.JSCodeGenerator.Generate | src/vl/codegen/javascript.py:24-28 | the output is reset first, so it is exactly the program's lines whatever was emitted before; the text joins them with newlines |
| CodegenJs.JSCodeGenerator.Emit | src/vl/codegen/javascript.py:34-39 | appends one line indented four spaces per level; an empty code gives "" |
| CodegenJs.JSCodeGenerator.GenerateProgram | src/vl/codegen/javascript.py:41-66 | appends metadata comments, then one `require` per dependency, then the statements, then `module.exports`, and keeps the level |
| CodegenJs.JSCodeGenerator.GenerateHeader | src/vl/codegen/javascript.py:43-57 | the metadata comments followed by the dependency lines |
| CodegenJs.JSCodeGenerator.GenerateMetadata | src/vl/codegen/javascript.py:44-48 | three comment lines and a blank line when there is metadata, nothing otherwise |
| CodegenJs.JSCodeGenerator.GenerateDependencies | src/vl/codegen/javascript.py:54-57 | `const d = require('d');` for each dependency in order, then a blank line |
| CodegenJs.JSCodeGenerator.GenerateExport | src/vl/codegen/javascript.py:64-66 | a blank line and `module.exports = { name };` when there is an export |
| CodegenJs.JSCodeGenerator.GenerateStatement | src/vl/codegen/javascript.py:68-96 | appends exactly `StmtLines` of the statement and restores the level; an unsupported kind gives one warning line |
| CodegenJs.JSCodeGenerator.GenerateBody | src/vl/codegen/javascript.py:60-61 | the loop appends each statement's lines in order |
| CodegenJs.JSCodeGenerator.GenerateFunctionDef | src/vl/codegen/javascript.py:98-113 | `function name(i0, …) {`, the body one level deeper, `}` and a blank line; the level is restored |
| CodegenJs.JSCodeGenerator.GenerateIfStmt | src/vl/codegen/javascript.py:120-146 | `if (c) {`, `t;` one level deeper, `} else {`, `f;` one level deeper, `}` |
| CodegenJs.JSCodeGenerator.GenerateForLoop | src/vl/codegen/javascript.py:159-169 | `for (const v of it) {`, the body one level deeper, `}` |
| CodegenJs.JSCodeGenerator.GenerateWhileLoop | src/vl/codegen/javascript.py:171-181 | `while (c) {`, the body one level deeper, `}` |
| CodegenJs.JSCodeGenerator.GenerateDataPipeline | src/vl/codegen/javascript.py:202-217 | two lines naming the flattened source, then the steps of every flattened operation |
| CodegenJs.JSCodeGenerator.GenerateOperations | src/vl/codegen/javascript.py:218-258 | the loop appends each operation's step in order |
| CodegenJs.JSCodeGenerator.GenerateOperation | src/vl/codegen/javascript.py:219-258 | filter, map, group-by, the five aggregates and sort as `data = …` steps; a map with neither expression nor fields, an unknown aggregate and the other operation kinds emit nothing |
| CodegenJs.JSCodeGenerator.GenerateFileOperation | src/vl/codegen/javascript.py:260-280 | read, write, append and delete through `fs`; a write or append without content and an unknown operation emit nothing |
| CodegenJs.Expr | src/vl/codegen/javascript.py:315-452 | the JavaScript text of an expression (specification function, no contract; see `MapOperator`, `PipelineExprFlattened` and the `CodegenJsProofs` lemmas) |
| CodegenJs.StmtLines | src/vl/codegen/javascript.py:68-281 | the lines the statement generators emit at a level; a UI component contributes none (specification function, no contract; `GenerateStatement` is proved against it) |
| CodegenJs.ProgramLines | src/vl/codegen/javascript.py:41-66 | the lines of `_generate_program` (specification function, no contract; `GenerateProgram` is proved against it) |
| CodegenJsProofs.LineDeeper | src/vl/codegen/javascript.py:30-39 | a line emitted one level deeper is the same line with four more spaces, or "" when empty |
| CodegenJsProofs.StmtLinesDeeper | src/vl/codegen/javascript.py:68-96 | every statement emitted one level deeper gives the same lines nested once: each block handler raises and lowers the level exactly once |
| CodegenJsProofs.SimpleStmtLinesDeeper | src/vl/codegen/javascript.py:115-118 | the same for the one-line statements and the warning line; a UI component has no lines in the model (see Left out) |
| CodegenJsProofs.FunctionDefLinesDeeper | src/vl/codegen/javascript.py:98-113 | the same for a function |
| CodegenJsProofs.ForLoopLinesDeeper | src/vl/codegen/javascript.py:159-169 | the same for a `for` loop |
| CodegenJsProofs.WhileLoopLinesDeeper | src/vl/codegen/javascript.py:171-181 | the same for a `while` loop |
| CodegenJsProofs.IfStmtLinesDeeper | src/vl/codegen/javascript.py:120-146 | the same for an `if` |
| CodegenJsProofs.BodyLinesDeeper | src/vl/codegen/javascript.py:108-109 | a block's statements emitted one level deeper are the same block nested once |
| CodegenJsProofs.OpsLinesDeeper | src/vl/codegen/javascript.py:218-258 | the same for the steps of a pipeline |
| CodegenJsProofs.OpLinesDeeper | src/vl/codegen/javascript.py:219-258 | the same for one pipeline step |
| CodegenJsProofs.GroupByLinesDeeper | src/vl/codegen/javascript.py:232-239 | the same for the six lines of a group-by |
| CodegenJsProofs.PipelineLinesDeeper | src/vl/codegen/javascript.py:202-258 | the same for a pipeline statement |
| CodegenJsProofs.FileLinesDeeper | src/vl/codegen/javascript.py:260-280 | the same for a file operation |
| CodegenJsProofs.ParamNamesAreDistinct | src/vl/codegen/javascript.py:100-102 | the header's `i0 … i{N-1}` are N pairwise distinct names |
| CodegenJsProofs.StringQuoting | src/vl/codegen/javascript.py:320-323 | a string prints between backticks exactly when it is a template and between single quotes exactly when it is not, with the text unchanged |
| CodegenJsProofs.RangeForms | src/vl/codegen/javascript.py:343-348 | a range expression and the `range` operation on the same operands print the same inclusive `Array.from` |
| CodegenJsProofs.UnaryOperationForm | src/vl/codegen/javascript.py:350-352 | one operand prints as `op(x)` with the mapped operator |
| CodegenJsProofs.BinaryOperationForm | src/vl/codegen/javascript.py:354-358 | two operands print as `(l op r)` with the mapped operator |
| CodegenJsProofs.ItemRenamedInsideWords | src/vl/codegen/javascript.py:220-228 | the plain replacement turns `items` into `xs`, where the whole-word replacement leaves `items` alone |
| CodegenC.TypeToC | src/vl/codegen/c.py:34-46 | every VL type maps to one of `int`, `double`, `char*`, `bool`, `void*`, `void`; `void` exactly for `void`, `void*` exactly for a name outside the five basic ones |
| CodegenC.CParams | src/vl/codegen/c.py:81-84 | one `T iK` parameter per input type |
| CodegenC.COperator | src/vl/codegen/c.py:216-225 | the mapped operator is `pow` exactly for `**` (and `pow` itself); operators outside the map pass through unchanged |
| CodegenC.CExprs | src/vl/codegen/c.py:249-257 | one printed expression per argument, in order |
| CodegenC.CrashNeedsMath | src/vl/codegen/c.py:200-275 | printing an expression crashes only on a power with fewer than two operands, so only where math.h would have been added |
| CodegenC.OperationCrashNeedsMath | src/vl/codegen/c.py:227-247 | the same for an operation |
| CodegenC.CrashNeedsMathList | src/vl/codegen/c.py:249-257 | the same for a list of arguments |
| CodegenC.BlockSteps | src/vl/codegen/c.py:110-122 | a block is its header lines, then its body, then its closing lines, and crashes exactly when its body does |
| CodegenC.FunctionSteps | src/vl/codegen/c.py:110-122 | a function is its signature line with `{`, its body one level deeper, `}` and a blank line |
| CodegenC.BodySnoc | src/vl/codegen/c.py:73-74 | emitting one more statement extends the lines of the statements before it |
| CodegenC.ThenSteps | src/vl/codegen/c.py:73-74 | two groups of lines emitted one after the other give their concatenation |
| CodegenC.BodyMathSnoc | src/vl/codegen/c.py:73-74 | the statements need math.h when the earlier ones or the last one do |
| CodegenC.BodyPrefix | src/vl/codegen/c.py:73-74 | once a statement crashes the whole list crashes, and a prefix that needs math.h makes the list need it |
| CodegenC.SortedHeaders | src/vl/codegen/c.py:62-63 | only collected headers are listed |
| CodegenC.IncludeLines | src/vl/codegen/c.py:62-63 | one `#include` line per header |
| CodegenC.CCodeGenerator.constructor | src/vl/codegen/c.py:21-25 | empty output, no headers, level 0 |
| CodegenC.CCodeGenerator.Generate | src/vl/codegen/c.py:48-76 | adds the three standard headers and math.h exactly when a statement reaches a power; succeeds exactly when `ProgramLines` does, appending its lines and joining the output with newlines |
| CodegenC.CCodeGenerator.GeneratePreamble | src/vl/codegen/c.py:52-70 | appends the header comment, the sorted includes and the forward declarations, adding the standard headers |
| CodegenC.CCodeGenerator.GenerateIncludes | src/vl/codegen/c.py:62-63 | the loop appends one `#include` per header in order |
| CodegenC.CCodeGenerator.GenerateForwardDecls | src/vl/codegen/c.py:66-69 | the loop appends `signature;` for each top-level function in order |
| CodegenC.CCodeGenerator.FunctionSignature | src/vl/codegen/c.py:78-89 | the loop builds the parameters; the result is `T name(params)` with `void` for no inputs |
| CodegenC.CCodeGenerator.Emit | src/vl/codegen/c.py:27-32 | appends one line indented four spaces per level; an empty code gives "" |
| CodegenC.CCodeGenerator.GenerateExpression | src/vl/codegen/c.py:200-275 | the printed expression, adding math.h exactly when the expression reaches a power; a crash only where math.h was added |
| CodegenC.CCodeGenerator.GenerateStatement | src/vl/codegen/c.py:91-108 | appends exactly `CStmtLines` of the statement and restores the level; an unsupported kind gives the two comments |
| CodegenC.CCodeGenerator.GenerateBody | src/vl/codegen/c.py:73-74 | the loop appends each statement's lines in order, stopping at the first crash |
| CodegenC.CCodeGenerator.GenerateBlock | src/vl/codegen/c.py:115-120 | the body one level deeper, then the closing lines, with the level restored |
| CodegenC.CCodeGenerator.GenerateFunction | src/vl/codegen/c.py:110-122 | the signature with `{`, the body one level deeper, `}` and a blank line |
| CodegenC.CCodeGenerator.GenerateVariableDef | src/vl/codegen/c.py:124-134 | `T name = v;` with the annotation's type, or `int` without one |
| CodegenC.CCodeGenerator.GenerateReturnStmt | src/vl/codegen/c.py:136-139 | `return v;` |
| CodegenC.CCodeGenerator.GenerateIfStmt | src/vl/codegen/c.py:141-166 | `if (c) {`, the true branch one level deeper, `} else {`, the false branch one level deeper, `}` |
| CodegenC.CCodeGenerator.GenerateBranches | src/vl/codegen/c.py:149-164 | the two branches and the lines between them |
| CodegenC.CCodeGenerator.GenerateBranch | src/vl/codegen/c.py:149-164 | a `return` branch as `return v;`, any other as `e;` |
| CodegenC.CCodeGenerator.GenerateForHeader | src/vl/codegen/c.py:168-181 | a range gives `for (int v = s; v < e; v++) {`; any other iterable two comment lines and a fixed loop over ten |
| CodegenC.CCodeGenerator.GenerateRangeHeader | src/vl/codegen/c.py:171-175 | `for (int v = s; v < e; v++) {` |
| CodegenC.CCodeGenerator.GenerateForLoop | src/vl/codegen/c.py:168-186 | the header, the body one level deeper, `}` |
| CodegenC.CCodeGenerator.GenerateWhileLoop | src/vl/codegen/c.py:188-198 | `while (c) {`, the body one level deeper, `}` |
| CodegenC.CExpr | src/vl/codegen/c.py:200-275 | the C text of an expression, `None` where Python raises (specification function, no contract; see `CrashNeedsMath`) |
| CodegenC.CStmtLines | src/vl/codegen/c.py:91-198 | the lines the statement generators emit at a level, `None` when an expression in it raises (specification function, no contract; `GenerateStatement` is proved against it) |
| CodegenC.ProgramLines | src/vl/codegen/c.py:48-76 | the preamble then the statements, `None` when a statement raises (specification function, no contract; `Generate` is proved against it) |
| CodegenCProofs.KnownHeadersIncreasing | src/vl/codegen/c.py:62 | the four known headers in the order listed are in Python's string order |
| CodegenCProofs.LexLessTransitive | src/vl/codegen/c.py:62 | Python's string order is transitive |
| CodegenCProofs.SortedHeadersSorted | src/vl/codegen/c.py:62-63 | the headers come out strictly increasing and are exactly the collected ones |
| CodegenCProofs.FreshHeaders | src/vl/codegen/c.py:57-63 | a fresh generator emits exactly the three standard headers |
| CodegenCProofs.ForwardDeclared | src/vl/codegen/c.py:66-69 | every top-level function has its forward declaration |
| CodegenCProofs.ForwardDeclsOfFunctions | src/vl/codegen/c.py:66-69 | every forward declaration is that of a top-level function |
| CodegenCProofs.DeclarationsBeforeStatements | src/vl/codegen/c.py:66-74 | the forward declarations stand after the includes, followed by a blank line and then the statements |
| CodegenCProofs.ParamsVoidIffNoInputs | src/vl/codegen/c.py:86 | the parameter list is `void` exactly when there are no inputs |
| CodegenCProofs.ContainsInJoin | src/vl/codegen/c.py:251 | a joined text contains what any of its parts contains |
| CodegenCProofs.PowPrinted | src/vl/codegen/c.py:227-273 | when an expression reaches a power and prints, its text calls `pow(` |
| CodegenCProofs.OperationPowPrinted | src/vl/codegen/c.py:227-247 | the same for an operation |
| CodegenCProofs.CallPowPrinted | src/vl/codegen/c.py:249-252 | the same for a call |
| CodegenCProofs.IndexPowPrinted | src/vl/codegen/c.py:264-267 | the same for an index access |
| CodegenCProofs.RangePowPrinted | src/vl/codegen/c.py:269-273 | the same for a range |
| CodegenCProofs.PowPrintedList | src/vl/codegen/c.py:249-257 | the same for a list of arguments |
| CodegenCProofs.LineDiffers | src/vl/codegen/c.py:27-32 | lines at one level with different non-empty code differ |
| CodegenCProofs.FreshPreambleOmitsMath | src/vl/codegen/c.py:56-70 | as written, a fresh generator's preamble never has `#include <math.h>` |
| CodegenCProofs.PowProgramBody | src/vl/codegen/c.py:136-139 | `return a ** b;` prints as `return pow(a, b);` and needs math.h |
| CodegenCProofs.FreshPreambleNoFunctions | src/vl/codegen/c.py:52-70 | without functions, a fresh preamble is the comment, the three standard includes and blank lines |
| CodegenCProofs.PowWithoutMathHeader | src/vl/codegen/c.py:56-74 | as written, `return a ** b;` compiles to a program calling `pow` without including math.h |
| CodegenCProofs.CorrectedIncludesMath | src/vl/codegen/c.py:56-74 | with the statements generated before the includes are emitted, a program that needs math.h includes it, and any other program prints as written |
| CodegenCProofs.CStringReadsBack | src/vl/codegen/c.py:205-208 | a text without backslashes reads back from its C literal, whatever follows it |
| CodegenCProofs.QuotesReadBack | src/vl/codegen/c.py:205-208 | the same for the escaped text before the closing quote |
| CodegenCProofs.TrailingBackslashUnterminated | src/vl/codegen/c.py:205-208 | as written, the text `a\` gives a literal that C reads as unterminated |
| CodegenCProofs.ReadEscaped | src/vl/codegen/c.py:205-208 | a backslash pair reads as its second character |
| CodegenCProofs.ReadPlain | src/vl/codegen/c.py:205-208 | an ordinary character reads as itself |
| CodegenCProofs.EscapeCReadsBack | src/vl/codegen/c.py:205-208 | with backslashes escaped too, every text reads back from its literal |
| CodegenRust.TypeToRust | src/vl/codegen/rust.py:33-54 | every VL type maps to one of eight Rust types; `()` exactly for `void` and its alias `V`; any unknown name gives `i32` |
| CodegenRust.RParams | src/vl/codegen/rust.py:96-99 | one `iK: T` parameter per input type |
| CodegenRust.RParamsSnoc | src/vl/codegen/rust.py:97-99 | each turn of the parameter loop adds the next input's parameter at the end |
| CodegenRust.RExprs | src/vl/codegen/rust.py:233-240 | one printed expression per argument or element, in order |
| CodegenRust.RInserts | src/vl/codegen/rust.py:242-250 | one `map.insert` per object pair, in order |
| CodegenRust.BodySnoc | src/vl/codegen/rust.py:69-70 | emitting one more statement extends the lines of the statements before it |
| CodegenRust.BodyPrefix | src/vl/codegen/rust.py:69-70 | once a statement crashes the whole list crashes |
| CodegenRust.RustCodeGenerator.constructor | src/vl/codegen/rust.py:21-24 | empty output at level 0 |
| CodegenRust.RustCodeGenerator.Generate | src/vl/codegen/rust.py:56-72 | succeeds exactly when `ProgramLines` does, appending the header comment, the `HashMap` import and the statements to what was there, and joins the output with newlines |
| CodegenRust.RustCodeGenerator.Emit | src/vl/codegen/rust.py:26-31 | appends one line indented four spaces per level; an empty code gives "" |
| CodegenRust.RustCodeGenerator.GenerateStatement | src/vl/codegen/rust.py:74-91 | appends exactly `RStmtLines` of the statement and restores the level; an unsupported kind gives the two comments |
| CodegenRust.RustCodeGenerator.GenerateBody | src/vl/codegen/rust.py:69-70 | the loop appends each statement's lines in order, stopping at the first crash |
| CodegenRust.RustCodeGenerator.GenerateBlock | src/vl/codegen/rust.py:105-112 | the body one level deeper, then `}`, with the level restored |
| CodegenRust.RustCodeGenerator.FunctionHeader | src/vl/codegen/rust.py:95-104 | the loop builds the typed parameters; the result is `fn name(params) -> R {` |
| CodegenRust.RustCodeGenerator.GenerateFunction | src/vl/codegen/rust.py:93-113 | the header, the body one level deeper, `}` and a blank line |
| CodegenRust.RustCodeGenerator.GenerateVariableDef | src/vl/codegen/rust.py:115-124 | `let name: T = v;` with an annotation and `let name = v;` without |
| CodegenRust.RustCodeGenerator.GenerateReturnStmt | src/vl/codegen/rust.py:126-131 | `return v;` |
| CodegenRust.RustCodeGenerator.GenerateBranch | src/vl/codegen/rust.py:140-154 | a `return` branch as `return v;`, any other as `e;` |
| CodegenRust.RustCodeGenerator.GenerateIfStmt | src/vl/codegen/rust.py:133-157 | `if c {`, the true branch one level deeper, `} else {`, the false branch one level deeper, `}` |
| CodegenRust.RustCodeGenerator.GenerateForLoop | src/vl/codegen/rust.py:159-171 | `for v in it {`, the body one level deeper, `}` |
| CodegenRust.RustCodeGenerator.GenerateWhileLoop | src/vl/codegen/rust.py:173-183 | `while c {`, the body one level deeper, `}` |
| CodegenRust.RExpr | src/vl/codegen/rust.py:185-268 | the Rust text of an expression, `None` where Python raises (specification function, no contract; see `RExprs`, `RInserts` and the `CodegenRustProofs` lemmas) |
| CodegenRust.RStmtLines | src/vl/codegen/rust.py:74-183 | the lines the statement generators emit at a level, `None` when an expression in it raises (specification function, no contract; `GenerateStatement` is proved against it) |
| CodegenRust.ProgramLines | src/vl/codegen/rust.py:56-72 | the header comment, the `HashMap` import and the statements, `None` when a statement raises (specification function, no contract; `Generate` is proved against it) |
| CodegenRustProofs.StmtLinesDeeper | src/vl/codegen/rust.py:74-183 | every statement emitted one level deeper gives the same lines nested once, or crashes alike: each block handler raises and lowers the level exactly once |
| CodegenRustProofs.UnsupportedDeeper | src/vl/codegen/rust.py:88-91 | the same for the two comments of an unsupported statement |
| CodegenRustProofs.BlockDeeper | src/vl/codegen/rust.py:104-112 | a block whose header, body and closing lines nest nests as a whole |
| CodegenRustProofs.FunctionLinesDeeper | src/vl/codegen/rust.py:93-113 | the same for a function |
| CodegenRustProofs.ForLinesDeeper | src/vl/codegen/rust.py:159-171 | the same for a `for` loop |
| CodegenRustProofs.WhileLinesDeeper | src/vl/codegen/rust.py:173-183 | the same for a `while` loop |
| CodegenRustProofs.LineDeeper | src/vl/codegen/rust.py:26-31 | a line one level deeper is the line with four more spaces, or "" when empty |
| CodegenRustProofs.IfLinesDeeper | src/vl/codegen/rust.py:133-157 | the same for an `if` |
| CodegenRustProofs.IfElseDeeper | src/vl/codegen/rust.py:137-157 | the five lines of an `if` nest line by line |
| CodegenRustProofs.BodyDeeper | src/vl/codegen/rust.py:108-109 | a block's statements emitted one level deeper are the same block nested once |
| CodegenRustProofs.SameCrashes | src/vl/codegen/rust.py:185-267 | the Rust printer crashes wherever the C printer does, and, in an expression without object literals, only there |
| CodegenRustProofs.OperationSameCrashes | src/vl/codegen/rust.py:204-231 | the same for an operation |
| CodegenRustProofs.SameCrashesList | src/vl/codegen/rust.py:233-240 | the same for a list of arguments |
| CodegenRustProofs.ObjectCrashOnlyInRust | src/vl/codegen/rust.py:242-250 | an object holding a one-operand `**` crashes the Rust printer, where C prints `NULL` |
| CodegenRustProofs.ParamsEmptyIffNoInputs | src/vl/codegen/rust.py:96-101 | the parameter list is empty exactly when there are no inputs, and otherwise starts with `i0: T` |
| LegacyParser.StartOf | interpreter/parser.py:240-303 | which branch of `parse_statement` a token takes, by the token and, for an identifier, the next one (specification function, no contract) |
| LegacyParser.NothingOnlyAtEnd | interpreter/parser.py:240-243 | only the end of the tokens yields no statement; every token either starts one or is an error |
| LegacyParser.IdentifierFallsThrough | interpreter/parser.py:259-268 | an identifier is an assignment, a call or an error, and it is an error exactly when no token follows or the next is not an assignment operator, `(` or `.` |
| LegacyParser.RoutesAgreeWithCurrent | interpreter/parser.py:240-303 | away from `@`, identifiers and the tokens the current grammar added, the legacy and the current parser route every token alike; an identifier followed by an assignment operator or `(` too |
| LegacyParser.RoutesDiffer | interpreter/parser.py:259-303 | where the grammars part: `else` is an error here and ends a block in the current parser; `name[` is an error here; `name.` is a call here and parsed target-first there |
| LegacyParser.LegacyKeyOf | interpreter/parser.py:1170 | an object key comes only from an IDENTIFIER token, and is its name |
| LegacyParser.KeysNarrowed | interpreter/parser.py:1170 | every key accepted here is accepted by the current parser with the same name, while the keyword keys the current one accepts are refused here |
| LegacyParser.KeysAtSnoc | interpreter/parser.py:1169-1182 | the step of the pair loop: one more pair read at a later offset keeps every key tied to its token |
| LegacyParser.ParseSource | interpreter/parser.py:1191-1195 | tokenize then parse; a parse that succeeds is a program at line 1, column 1 |
| LegacyParser.Parser.constructor | interpreter/parser.py:44-53 | the cursor at the first token, `None` for no tokens, the pipeline guard clear |
| LegacyParser.Parser.PendingPipelineCheck | interpreter/parser.py:129-132 | no pipeline is pending exactly when it is not the case that a `|` followed by `filter`, `map` or `parse` stands here with the guard clear |
| LegacyParser.Parser.Advance | interpreter/parser.py:80-85 | returns the current token and moves one on |
| LegacyParser.Parser.Expect | interpreter/parser.py:91-98 | succeeds exactly on the expected kind, returning that token and moving one on; otherwise raises a ParseError with the cursor unmoved |
| LegacyParser.Parser.SkipNewlines | interpreter/parser.py:124-127 | skips exactly the run of NEWLINE tokens |
| LegacyParser.Parser.Parse | interpreter/parser.py:134-183 | a program at 1:1 with optional metadata, dependencies and export of the right kinds, at most 1000 statements, and no export token left unread when there is no export |
| LegacyParser.Parser.ParseMetadata | interpreter/parser.py:185-203 | `meta:name,type,target` is seven tokens, and the three names are those tokens' texts |
| LegacyParser.Parser.ParseDependencies | interpreter/parser.py:205-227 | a dependency node of at least three tokens; without `[` it is the one name after `deps:` |
| LegacyParser.Parser.ParseDependencyList | interpreter/parser.py:212-222 | the bracketed list consumes at least its two brackets |
| LegacyParser.Parser.ParseExport | interpreter/parser.py:229-238 | `export:name` is three tokens, and the node sits at the keyword |
| LegacyParser.Parser.ParseStatement | interpreter/parser.py:240-303 | no token gives no statement; an unroutable token gives "Unexpected token: KIND" with the cursor unmoved; any statement parsed moves the cursor, and assignments, calls and `if` give their node kinds |
| LegacyParser.Parser.ParseSimpleStatement | interpreter/parser.py:245-272 | the branches up to `ret`: each moves the cursor, with the assignment and call node kinds |
| LegacyParser.Parser.ParseKeywordStatement | interpreter/parser.py:274-303 | the keyword branches move the cursor, and any other token is the "Unexpected token" error at the unmoved cursor |
| LegacyParser.Parser.ParseDirectCallStmt | interpreter/parser.py:504-512 | `@` then an expression, as a call statement located at the `@` |
| LegacyParser.Parser.ParseFunctionDef | interpreter/parser.py:305-317 | a function named by the third token with at least one input type and no decorators, ending at a definition stop |
| LegacyParser.Parser.ParseFunctionExpr | interpreter/parser.py:319-331 | the same signature, as an expression ending at an expression stop |
| LegacyParser.Parser.ParseFunctionCommon | interpreter/parser.py:333-364 | signature, then the body up to one of the stop tokens |
| LegacyParser.Parser.ParseSignature | interpreter/parser.py:336-360 | the `fn:` signature with its `i:` and `o:` sections: the name is the third token, and the input list is a type list, so a type must follow `i:` |
| LegacyParser.Parser.ParseFunctionBody | interpreter/parser.py:366-383 | the body runs to the end or to a stop token, with no column rule |
| LegacyParser.Parser.ParseTypeList | interpreter/parser.py:385-394 | one or more types separated by commas, starting at a type token, with no comma left after |
| LegacyParser.Parser.ParseType | interpreter/parser.py:396-411 | succeeds exactly on one of the type tokens, with its lexeme and position; no token is a crash |
| LegacyParser.Parser.ParseImplicitAssignment | interpreter/parser.py:413-457 | a compound assignment exactly when a compound operator follows the name, with its operator symbol; otherwise a definition without annotation; both at the name |
| LegacyParser.Parser.ParsePlainAssignment | interpreter/parser.py:447-457 | `name=value` is a definition at the name, with no annotation |
| LegacyParser.Parser.ParseCompoundAssignment | interpreter/parser.py:418-445 | `name op= value` keeps the name, the position and the operator symbol of the compound token |
| LegacyParser.Parser.ParseVariableDef | interpreter/parser.py:459-480 | `v:name=value` or `v:name:type=value`: the name is the third token, and there is an annotation exactly when a colon follows it |
| LegacyParser.Parser.ParseAnnotation | interpreter/parser.py:466-470 | an annotation exactly when a colon stands here, and then the colon and the type are consumed |
| LegacyParser.Parser.ParseReturn | interpreter/parser.py:482-491 | `ret:value` is a return statement at `ret` |
| LegacyParser.Parser.ParseImplicitCall | interpreter/parser.py:493-502 | an expression statement located at its first token |
| LegacyParser.Parser.ParseIf | interpreter/parser.py:514-553 | `if:cond?t:f` only: a `?` must follow the condition, and each `ret:` branch becomes a return statement located at the `if` |
| LegacyParser.Parser.ParseTernary | interpreter/parser.py:522-548 | after the condition: the true branch is a return exactly when `ret` follows the `?`, and the return branches sit at the `if` |
| LegacyParser.Parser.ParseBranch | interpreter/parser.py:525-541 | a branch is a return statement exactly when it starts with `ret`, and then sits at the `if` token |
| LegacyParser.Parser.ParseFor | interpreter/parser.py:555-587 | `for:var,iterable` then a body: any token is the variable, and the body stops before a newline, the end token or a pipe |
| LegacyParser.Parser.ParseWhile | interpreter/parser.py:589-609 | `while:cond` then a body, with the same body stop |
| LegacyParser.Parser.ParseLoopBody | interpreter/parser.py:574-580 | statements until a newline, the end token or a pipe, none consumed; at a stop already the body is empty and nothing moves; with no token left the source loops forever, and the model says so |
| LegacyParser.Parser.ParseApiCall | interpreter/parser.py:611-655 | asynchronous exactly when it starts with `async`; every chained operation is a filter, map or parse, and no such operation is left unread |
| LegacyParser.Parser.ParseApiOperations | interpreter/parser.py:633-646 | chains every following filter, map or parse operation and leaves any other pipe |
| LegacyParser.Parser.ParseChainOp | interpreter/parser.py:659-677 | a filter exactly at `filter`, a map exactly at `map`, and a map carries an expression and no fields |
| LegacyParser.Parser.ParseUiComponent | interpreter/parser.py:679-758 | a component named by the third token, with an empty body |
| LegacyParser.Parser.ParseUiClauses | interpreter/parser.py:692-750 | the clause loop never stops at a pipe it has not moved past |
| LegacyParser.Parser.ParseTypeSuffix | interpreter/parser.py:700-720 | no suffix without a colon; after a colon the next token's text, whatever its kind |
| LegacyParser.Parser.ParseDataPipeline | interpreter/parser.py:760-828 | at most 100 data operations, and a pipeline clause right after the source has already been taken into the source |
| LegacyParser.Parser.ParseDataOp | interpreter/parser.py:772-823 | filter, map, groupby, agg and sort each give their operation located at the token after it; any other token adds nothing and moves nothing |
| LegacyParser.Parser.ParseFileOperation | interpreter/parser.py:831-851 | a file operation with no comma left after its arguments |
| LegacyParser.Parser.ParseExpression | interpreter/parser.py:853-855 | an expression never stops before a legacy binary operator nor before a pending pipeline, and is never a return |
| LegacyParser.Parser.ParseLogical | interpreter/parser.py:857-870 | a left fold over logical and and logical or tokens, of operands the contract leaves unconstrained (see Left out) |
| LegacyParser.Parser.ParseComparison | interpreter/parser.py:872-886 | a left fold over the six comparison tokens, of operands the contract leaves unconstrained (see Left out) |
| LegacyParser.Parser.ParseTerm | interpreter/parser.py:888-901 | a left fold over `+` and `-` tokens, of operands the contract leaves unconstrained (see Left out) |
| LegacyParser.Parser.ParseFactor | interpreter/parser.py:903-916 | a left fold over `*`, `/` and `%` tokens, of operands the contract leaves unconstrained (see Left out); `//` is no operator here |
| LegacyParser.Parser.ParseUnary | interpreter/parser.py:918-929 | a prefix `-` or `!` gives a one-operand operation at that token |
| LegacyParser.Parser.ParsePostfix | interpreter/parser.py:931-961 | stops only where no member access, call or pending pipeline follows; a `[` is left in place |
| LegacyParser.Parser.ParsePostfixStep | interpreter/parser.py:935-959 | one round: either it moves on, or it stops where nothing postfix follows; at `[` it stops |
| LegacyParser.Parser.ParseCallArgs | interpreter/parser.py:963-977 | a call of the given callee, located at the callee |
| LegacyParser.Parser.ParseArguments | interpreter/parser.py:967-975 | the argument loop ends just after a `)` |
| LegacyParser.Parser.ParsePipelineChain | interpreter/parser.py:979-1003 | a pipeline over the given source of filter, map and parse operations only, at the source's position, with the guard cleared afterwards |
| LegacyParser.Parser.ParsePrimary | interpreter/parser.py:1005-1122 | no token is a crash; a token with no branch is "Unexpected token in expression: KIND" at the unmoved cursor; a primary is never a return |
| LegacyParser.Parser.ParseAtom | interpreter/parser.py:1009-1106 | a number is its value, and a range exactly when `..` follows; a string is its literal, a template exactly when it holds `${`; any other token outside the branches is the error |
| LegacyParser.Parser.ParseKeywordPrimary | interpreter/parser.py:1070-1085 | `op:`, `if:`, `data:` and `api:` as expressions, never a return |
| LegacyParser.Parser.ParseEnclosed | interpreter/parser.py:1107-1121 | `[` gives an array and `{` an object |
| LegacyParser.Parser.ParseNumber | interpreter/parser.py:1009-1028 | the literal's value is the number of its lexeme, and the node is a range exactly when `..` follows |
| LegacyParser.Parser.ParseDirectCall | interpreter/parser.py:1049-1068 | `@name(args)` is a call whose callee is the name located at the `@` |
| LegacyParser.Parser.ParseParenthesized | interpreter/parser.py:1107-1112 | the inner expression itself, with both parentheses consumed |
| LegacyParser.Parser.ParseOperationExpr | interpreter/parser.py:1124-1145 | the operator is the token after `op:`, whatever its kind; `op:` at the very end is a crash |
| LegacyParser.Parser.ParseArrayLiteral | interpreter/parser.py:1147-1162 | an array at the `[`, ending just after `]`, with no comprehension form |
| LegacyParser.Parser.ParseElements | interpreter/parser.py:1151-1158 | the element loop ends just after `]` |
| LegacyParser.Parser.ParseObjectLiteral | interpreter/parser.py:1164-1188 | every key is the name of the IDENTIFIER token it was read at, so a keyword where a key belongs is an error; a `{` followed by anything but an identifier or `}` fails; no value is a return |
| LegacyParser.Parser.ParseObjectPair | interpreter/parser.py:1169-1178 | a pair starts at an IDENTIFIER key, whose name it keeps; any other token fails without moving |
| LegacyJs.LExprs | interpreter/codegen_js.py:179-189 | one printed text per operand or element, in the list's order |
| LegacyJs.LPairTexts | interpreter/codegen_js.py:191-193 | one `key: value` text per object entry, in the entry order |
| LegacyJs.LBodySnoc | interpreter/codegen_js.py:60-61 | emitting one more statement after a prefix of a block extends the block's lines by exactly that statement's lines |
| LegacyJs.JSCodeGenerator.constructor | interpreter/codegen_js.py:19-22 | a new generator holds the tree, an empty output and level 0 |
| LegacyJs.JSCodeGenerator.Generate | interpreter/codegen_js.py:24-28 | the output is cleared first, so it is exactly the program's lines, whatever was there before; the returned text joins them with newlines; the level is unchanged |
| LegacyJs.JSCodeGenerator.Emit | interpreter/codegen_js.py:34-39 | appends one line: four spaces per level before a non-empty code, "" for an empty one |
| LegacyJs.JSCodeGenerator.GenerateProgram | interpreter/codegen_js.py:41-66 | appends the metadata comments and `require` lines, then each statement's lines in order, then the export |
| LegacyJs.JSCodeGenerator.GenerateHeader | interpreter/codegen_js.py:43-57 | appends the metadata block, then the dependency block, each only when present |
| LegacyJs.JSCodeGenerator.GenerateMetadata | interpreter/codegen_js.py:44-48 | the name, type and target comments and a blank line |
| LegacyJs.JSCodeGenerator.GenerateDependencies | interpreter/codegen_js.py:54-57 | one `const d = require('d');` per dependency in order, then a blank line |
| LegacyJs.JSCodeGenerator.GenerateExport | interpreter/codegen_js.py:64-66 | a blank line and `module.exports = { name };` when there is an export, nothing otherwise |
| LegacyJs.JSCodeGenerator.GenerateStatement | interpreter/codegen_js.py:68-82 | function, variable, return, direct call and `if` print through their handlers; every other statement appends one warning comment naming its class |
| LegacyJs.JSCodeGenerator.GenerateBody | interpreter/codegen_js.py:94-95 | appends each statement's lines, in order, at the current level |
| LegacyJs.JSCodeGenerator.GenerateFunctionDef | interpreter/codegen_js.py:84-99 | `function name(i0, …) {` with one parameter per input type, the body one level deeper, `}` and a blank line; the level is restored |
| LegacyJs.JSCodeGenerator.GenerateIfStmt | interpreter/codegen_js.py:106-132 | five lines: `if (c) {`, the true branch as a statement one level deeper, `} else {`, the false branch one level deeper, `}` |
| LegacyJs.LExpr | interpreter/codegen_js.py:145-200 | the expression printer: literals with `'` or backtick quotes, mapped operators, calls, arrays, objects, member access; other nodes and an operation without operands print the `Unknown Expr` comment (specification function, no contract) |
| LegacyJs.LStmtLines | interpreter/codegen_js.py:68-143 | the lines of one statement, which `GenerateStatement` is proved to append (specification function, no contract) |
| LegacyJs.LProgramLines | interpreter/codegen_js.py:41-66 | the lines of a whole program, which `Generate` is proved to produce (specification function, no contract) |
| LegacyJsProofs.LStmtLinesDeeper | interpreter/codegen_js.py:34-39 | every line a statement emits one level deeper is the same line with four more spaces, or "" when empty, so nesting is uniform |
| LegacyJsProofs.LSimpleStmtDeeper | interpreter/codegen_js.py:101-104 | the same for the one-line statements and the warning |
| LegacyJsProofs.LFunctionLinesDeeper | interpreter/codegen_js.py:84-99 | the same for a function definition |
| LegacyJsProofs.LIfLinesDeeper | interpreter/codegen_js.py:106-132 | the same for an `if` |
| LegacyJsProofs.LBodyDeeper | interpreter/codegen_js.py:94-95 | the same for a block of statements |
| LegacyJsProofs.SharedExprAgrees | interpreter/codegen_js.py:145-200 | on an expression both generators handle, the legacy printer prints the same text as the current JavaScript printer |
| LegacyJsProofs.SharedExprsAgree | interpreter/codegen_js.py:179-189 | the same for a list of expressions |
| LegacyJsProofs.SharedPairsAgree | interpreter/codegen_js.py:191-193 | the same for object entries |
| LegacyJsProofs.SharedStmtAgrees | interpreter/codegen_js.py:68-143 | on a statement both generators handle, the two emit the same lines |
| LegacyJsProofs.SharedBodyAgrees | interpreter/codegen_js.py:94-95 | the same for a block |
| LegacyJsProofs.ProgramAgrees | interpreter/codegen_js.py:41-66 | a program whose statements both generators handle compiles to the same file under both: header, statements and export |
| LegacyJsProofs.LegacyWarns | interpreter/codegen_js.py:80-82 | where the current generator emits a loop, an assignment, a request, a pipeline or a file operation, the legacy one emits only a warning line naming the class, and a loop is at least two lines under the current one |
| LegacyTs.TypeToTs | interpreter/codegen_ts.py:33-49 | the result is always one of the table's TypeScript types; it is `number` exactly for `int` and `float`, `void` exactly for `void`, and `any` for every name outside the table |
| LegacyTs.TParams | interpreter/codegen_ts.py:109-114 | one typed parameter per input type |
| LegacyTs.TParamsSnoc | interpreter/codegen_ts.py:110-112 | one more input type adds `iK: T` at the end, the step of the parameter loop |
| LegacyTs.TExprs | interpreter/codegen_ts.py:310-319 | when no element crashes, one printed text per element |
| LegacyTs.TPairTexts | interpreter/codegen_ts.py:323 | when no value crashes, one `key: value` text per entry |
| LegacyTs.TBodySnoc | interpreter/codegen_ts.py:67-68 | the lines of one more statement follow those of the prefix, and a crash in either is a crash of the whole |
| LegacyTs.TBodyPrefix | interpreter/codegen_ts.py:67-68 | a crash in a prefix of a statement list is a crash of the whole list |
| LegacyTs.TOpsSnoc | interpreter/codegen_ts.py:224-248 | the step of the operation loop: one more operation's lines follow those of the prefix |
| LegacyTs.TOpsPrefix | interpreter/codegen_ts.py:224-248 | a crash in a prefix of the operations is a crash of the pipeline |
| LegacyTs.ImportLines | interpreter/codegen_ts.py:60-63 | one `import` line per dependency |
| LegacyTs.TSCodeGenerator.constructor | interpreter/codegen_ts.py:21-24 | a new generator holds the tree, no code and level 0 |
| LegacyTs.TSCodeGenerator.Generate | interpreter/codegen_ts.py:51-75 | succeeds exactly when no statement crashes; then the program's lines are APPENDED to the code already there, and the text joins all of it (see Findings) |
| LegacyTs.TSCodeGenerator.GenerateTwice | interpreter/codegen_ts.py:21-75 | as written, a second `generate` on the same generator returns the first text, a newline, and the first text again (see Findings) |
| LegacyTs.TSCodeGenerator.GenerateFresh | interpreter/codegen_ts.py:51-75 | with the code cleared first, as the other generators do, the text is exactly the program's lines joined by newlines, whatever ran before |
| LegacyTs.TSCodeGenerator.Emit | interpreter/codegen_ts.py:26-31 | appends one line: two spaces per level before a non-empty line, "" for an empty one |
| LegacyTs.TSCodeGenerator.GenerateHeader | interpreter/codegen_ts.py:55-64 | the header comment and a blank line, then, when there are dependencies, one `import * as alias from 'dep';` per dependency and a blank line |
| LegacyTs.TSCodeGenerator.GenerateExport | interpreter/codegen_ts.py:71-73 | a blank line and `export { name };` when there is an export |
| LegacyTs.TSCodeGenerator.GenerateStatement | interpreter/codegen_ts.py:77-104 | succeeds exactly when the statement's lines exist: each class goes to its handler, any other statement is one `// TODO: Class` line; the level is restored |
| LegacyTs.TSCodeGenerator.GenerateBody | interpreter/codegen_ts.py:121-122 | appends each statement's lines in order, and fails exactly when one of them crashes |
| LegacyTs.TSCodeGenerator.GenerateBlock | interpreter/codegen_ts.py:118-125 | the body one level deeper, then `}` at the current level |
| LegacyTs.TSCodeGenerator.FunctionHeader | interpreter/codegen_ts.py:109-117 | the parameter loop builds `function name(i0: T0, …): R {` |
| LegacyTs.TSCodeGenerator.GenerateFunction | interpreter/codegen_ts.py:106-126 | the typed header, the body one level deeper, `}` and a blank line; crashes exactly when the body does |
| LegacyTs.TSCodeGenerator.GenerateVariableDef | interpreter/codegen_ts.py:128-137 | `let name: T = v;` with an annotation, `let name = v;` without; crashes exactly when the value does |
| LegacyTs.TSCodeGenerator.GenerateLine | interpreter/codegen_ts.py:155-192 | return, direct call and compound assignment are one line around the printed value, crashing exactly when it does |
| LegacyTs.TSCodeGenerator.GenerateIfStmt | interpreter/codegen_ts.py:139-153 | the five-line if/else with both branches as statements one level deeper, crashing when any part does |
| LegacyTs.TSCodeGenerator.GenerateForLoop | interpreter/codegen_ts.py:165-175 | `for (const v of it) {`, the body one level deeper, `}` |
| LegacyTs.TSCodeGenerator.GenerateWhileLoop | interpreter/codegen_ts.py:177-187 | `while (c) {`, the body one level deeper, `}` |
| LegacyTs.TSCodeGenerator.GenerateApiCall | interpreter/codegen_ts.py:194-206 | `fetch` with the upper-cased method spread before the options; without options a GET is a bare `fetch(endpoint)` |
| LegacyTs.TSCodeGenerator.GenerateDataPipeline | interpreter/codegen_ts.py:208-248 | the innermost source in a comment and in `let data = …;`, then each operation of the flattened chain, innermost first |
| LegacyTs.TSCodeGenerator.GenerateOperation | interpreter/codegen_ts.py:225-248 | a filter or map rewrites `item` to `x`, a map over fields copies them, a sort compares `a` and `b` (reversed for `desc`), and every other operation emits nothing |
| LegacyTs.TSCodeGenerator.GenerateGroupBy | interpreter/codegen_ts.py:238-244 | the six lines of the typed `reduce` grouping |
| LegacyTs.TSCodeGenerator.GenerateFileOperation | interpreter/codegen_ts.py:250-262 | a read, or a write that has content, through `fs`; any other operation emits nothing, after the path is printed |
| LegacyTs.TSCodeGenerator.GenerateUiComponent | interpreter/codegen_ts.py:264-278 | a component without state is the five-line stub; a component with state crashes, because the parser stores state entries as tuples |
| LegacyTs.TExpr | interpreter/codegen_ts.py:280-349 | the expression printer: `None` for every node past `MemberAccess`, where evaluating the undefined name `IndexAccess` raises, and `null` for an operation without operands (specification function, no contract) |
| LegacyTs.TStmtLines | interpreter/codegen_ts.py:77-104 | the lines of one statement or `None` for a crash, which `GenerateStatement` is proved to append (specification function, no contract) |
| LegacyTs.TProgramLines | interpreter/codegen_ts.py:51-75 | header and imports, statements, export; metadata is not printed (specification function, no contract) |
| LegacyTsProofs.PrintsIffPrintable | interpreter/codegen_ts.py:280-330 | the printer returns text exactly for expressions built from literals, names, operations, calls, arrays, objects and member access, and raises on every other one |
| LegacyTsProofs.ListPrintsIffPrintable | interpreter/codegen_ts.py:310-319 | the same for a list |
| LegacyTsProofs.PairsPrintIffPrintable | interpreter/codegen_ts.py:323 | the same for object entries |
| LegacyTsProofs.PrintsLikeLegacyJs | interpreter/codegen_ts.py:280-328 | on those expressions, when every operation has an operand, the TypeScript printer prints exactly the legacy JavaScript text |
| LegacyTsProofs.ListPrintsLikeLegacyJs | interpreter/codegen_ts.py:310-319 | the same for a list |
| LegacyTsProofs.PairsPrintLikeLegacyJs | interpreter/codegen_ts.py:323 | the same for object entries |
| LegacyTsProofs.EmptyOperationDiffers | interpreter/codegen_ts.py:306-349 | the one place the two printers part: an operation without operands prints `null` here and the unknown-expression comment in JavaScript |
| LegacyTsProofs.ImportAliasChars | interpreter/codegen_ts.py:63 | an import name has the dependency's length, turns each `/` into `_`, keeps every other character, and so never contains `/` |
| LegacyTsProofs.WithCase | interpreter/codegen_ts.py:225-248 | keeps only filters, maps, groupings and sorts |
| LegacyTsProofs.DroppedOperations | interpreter/codegen_ts.py:224-248 | aggregates, limits, skips, joins and parses leave no trace: a pipeline emits the same lines as with only its filters, maps, groupings and sorts |
| LegacyTsProofs.LineDeeper | interpreter/codegen_ts.py:26-31 | a line one level deeper is the line with two more spaces, or "" when empty |
| LegacyTsProofs.NestEach | interpreter/codegen_ts.py:26-31 | lines that are each nested once are the nested list |
| LegacyTsProofs.TStmtLinesDeeper | interpreter/codegen_ts.py:77-104 | every statement emitted one level deeper gives the same lines nested once, or crashes just the same: each handler raises and lowers the level exactly once |
| LegacyTsProofs.LeafStmtDeeper | interpreter/codegen_ts.py:128-163 | the same for the statements without a body |
| LegacyTsProofs.DomainStmtDeeper | interpreter/codegen_ts.py:194-278 | the same for requests, pipelines, file operations, components and the TODO line |
| LegacyTsProofs.OneLineDeeper | interpreter/codegen_ts.py:155-163 | the same for one-line statements |
| LegacyTsProofs.TVariableDeeper | interpreter/codegen_ts.py:128-137 | the same for a variable definition |
| LegacyTsProofs.IfElseDeeper | interpreter/codegen_ts.py:139-153 | the same for an `if` |
| LegacyTsProofs.ApiDeeper | interpreter/codegen_ts.py:194-206 | the same for a request |
| LegacyTsProofs.FileDeeper | interpreter/codegen_ts.py:250-262 | the same for a file operation |
| LegacyTsProofs.ComponentDeeper | interpreter/codegen_ts.py:264-278 | the same for a component |
| LegacyTsProofs.PipelineFromDeeper | interpreter/codegen_ts.py:219-248 | the same for a pipeline |
| LegacyTsProofs.TOpsDeeper | interpreter/codegen_ts.py:224-248 | the same for the operation steps |
| LegacyTsProofs.TOpDeeper | interpreter/codegen_ts.py:225-248 | the same for one step |
| LegacyTsProofs.GroupByDeeper | interpreter/codegen_ts.py:238-244 | the same for the grouping lines |
| LegacyTsProofs.BlockDeeper | interpreter/codegen_ts.py:118-125 | a block whose header and closing nest, around a body that nests or crashes alike, nests as a whole |
| LegacyTsProofs.TFunctionLinesDeeper | interpreter/codegen_ts.py:106-126 | the same for a function |
| LegacyTsProofs.TForLinesDeeper | interpreter/codegen_ts.py:165-175 | the same for a `for` loop |
| LegacyTsProofs.TWhileLinesDeeper | interpreter/codegen_ts.py:177-187 | the same for a `while` loop |
| LegacyTsProofs.TBodyDeeper | interpreter/codegen_ts.py:121-122 | the same for a block's statements |
| LegacyPython.PyOperator | interpreter/codegen_python.py:356-366 | the three symbolic logical operators become `and`, `or` and `not`; those keywords come only from these operators or from themselves, and every other operator is kept as written |
| LegacyPython.PyExprs | interpreter/codegen_python.py:307-318 | one printed text per argument or element, in order |
| LegacyPython.PyPairTexts | interpreter/codegen_python.py:321-329 | one `'key': value` text per object entry, in order |
| LegacyPython.ParamNames | interpreter/codegen_python.py:118 | one lambda parameter name per input type |
| LegacyPython.Params | interpreter/codegen_python.py:97-100 | one `iK: type` parameter per input type |
| LegacyPython.ImportLines | interpreter/codegen_python.py:52-53 | one `import` line per dependency |
| LegacyPython.Steps3 | interpreter/codegen_python.py:41-63 | emitting three groups of lines one after the other appends their concatenation |
| LegacyPython.BodySnoc | interpreter/codegen_python.py:108-109 | the step of a block loop: one more statement's lines follow the prefix's |
| LegacyPython.TopLevelSnoc | interpreter/codegen_python.py:57-59 | the step of the top-level loop: one more statement's lines and a blank line follow the prefix's |
| LegacyPython.OpsSnoc | interpreter/codegen_python.py:218-223 | the step of the operation loop |
| LegacyPython.StateSnoc | interpreter/codegen_python.py:269-272 | the step of the state loop: one more `# State:` comment at the end |
| LegacyPython.ReturnTextsSnoc | interpreter/codegen_python.py:131-133 | the step of the `body_parts` loop: a `return` adds its printed value, any other statement adds nothing |
| LegacyPython.ParamsSnoc | interpreter/codegen_python.py:98-99 | the step of the parameter loop: one more `iK: type` at the end |
| LegacyPython.ChainOpsSnoc | interpreter/codegen_python.py:235-242 | the step of the comprehension loop: one more operation wraps the text so far |
| LegacyPython.PythonCodeGenerator.constructor | interpreter/codegen_python.py:19-22 | a new generator holds the tree and the template processor, an empty output and level 0 |
| LegacyPython.PythonCodeGenerator.Generate | interpreter/codegen_python.py:24-28 | the output is cleared first, so it is exactly the program's lines, and the text joins them with newlines; the level is unchanged |
| LegacyPython.PythonCodeGenerator.Emit | interpreter/codegen_python.py:34-39 | appends one line: four spaces per level before a non-empty code, "" for an empty one |
| LegacyPython.PythonCodeGenerator.GenerateProgram | interpreter/codegen_python.py:41-63 | metadata comments and imports, then each statement followed by a blank line, then the export comment |
| LegacyPython.PythonCodeGenerator.GenerateExport | interpreter/codegen_python.py:62-63 | `# Exported: name` when there is an export |
| LegacyPython.PythonCodeGenerator.GenerateHeader | interpreter/codegen_python.py:44-54 | the metadata block, then the import block, each only when present |
| LegacyPython.PythonCodeGenerator.GenerateMetadata | interpreter/codegen_python.py:44-48 | the name, type and target comments and a blank line |
| LegacyPython.PythonCodeGenerator.GenerateDependencies | interpreter/codegen_python.py:51-54 | one `import d` per dependency, as written, and a blank line |
| LegacyPython.PythonCodeGenerator.GenerateTopLevel | interpreter/codegen_python.py:57-59 | each top-level statement's lines, each followed by a blank line |
| LegacyPython.PythonCodeGenerator.GenerateStatement | interpreter/codegen_python.py:65-92 | each statement class goes to its handler, any other statement is one `# TODO: Unsupported statement type: X` line; the level is restored |
| LegacyPython.PythonCodeGenerator.GenerateLeaf | interpreter/codegen_python.py:139-158 | variable (with `: type` when annotated), compound assignment, return and direct call are one line each |
| LegacyPython.PythonCodeGenerator.GenerateBody | interpreter/codegen_python.py:108-109 | each statement's lines, in order, at the current level |
| LegacyPython.PythonCodeGenerator.GenerateBlock | interpreter/codegen_python.py:179-197 | a loop body one level deeper, with the level restored |
| LegacyPython.PythonCodeGenerator.FunctionHeader | interpreter/codegen_python.py:96-102 | the parameter loop builds `def name(i0: t0, …) -> out:` with the raw VL type names |
| LegacyPython.PythonCodeGenerator.GenerateFunction | interpreter/codegen_python.py:94-113 | the header, then the body one level deeper, or `pass` when the body is empty |
| LegacyPython.PythonCodeGenerator.GenerateSuite | interpreter/codegen_python.py:104-113 | the body one level deeper, or `pass` when it has no statements |
| LegacyPython.PythonCodeGenerator.GenerateIfStmt | interpreter/codegen_python.py:160-177 | `if c:`, the true branch one level deeper, `else:`, the false branch one level deeper |
| LegacyPython.PythonCodeGenerator.GenerateBranch | interpreter/codegen_python.py:164-176 | a `return` branch prints `return v`, any other branch prints its expression |
| LegacyPython.PythonCodeGenerator.GenerateDataPipeline | interpreter/codegen_python.py:212-223 | the source comment and `data = source`, then one rebinding of `data` per filter and per map with an expression; nothing is flattened |
| LegacyPython.PythonCodeGenerator.GenerateFileOperation | interpreter/codegen_python.py:246-258 | a two-line `with open` block for a read and for a write with content, nothing otherwise |
| LegacyPython.PythonCodeGenerator.GenerateUiComponent | interpreter/codegen_python.py:260-276 | the component comment, `def name(props):`, one comment per state entry and the placeholder `return`, both one level deeper |
| LegacyPython.PythonCodeGenerator.GenerateStateComments | interpreter/codegen_python.py:269-272 | one `# State: name = value` comment per state entry, in order |
| LegacyPython.PythonCodeGenerator.PipelineExpr | interpreter/codegen_python.py:225-244 | the comprehension loop prints exactly what the expression printer prints for the pipeline |
| LegacyPython.PythonCodeGenerator.FunctionExpr | interpreter/codegen_python.py:115-137 | the `body_parts` loop yields exactly the printer's lambda text |
| LegacyPython.PyExpr | interpreter/codegen_python.py:278-354 | the expression printer, total: ranges, templates through the template processor, literals, calls, operations, lambdas, conditional expressions, pipelines and requests, else `None # TODO: X` (specification function, no contract) |
| LegacyPython.PyStmtLines | interpreter/codegen_python.py:65-92 | the lines of one statement, which `GenerateStatement` is proved to append (specification function, no contract) |
| LegacyPython.ProgramLines | interpreter/codegen_python.py:41-63 | the lines of a whole program, which `Generate` is proved to produce (specification function, no contract) |
| LegacyPythonProofs.NestCons | interpreter/codegen_python.py:34-39 | a line put in front of nested lines nests with them |
| LegacyPythonProofs.LineDeeper | interpreter/codegen_python.py:30-39 | a line one level deeper is the line with four more spaces, or "" when empty |
| LegacyPythonProofs.NestEach | interpreter/codegen_python.py:30-39 | lines that are each nested once are the nested list |
| LegacyPythonProofs.NestTwo | interpreter/codegen_python.py:30-39 | two lines at one level nest together |
| LegacyPythonProofs.StmtLinesDeeper | interpreter/codegen_python.py:65-92 | every line a statement emits one level deeper is the same line nested once: each block handler raises and lowers the level exactly once |
| LegacyPythonProofs.LoopDeeper | interpreter/codegen_python.py:179-197 | the same for a loop |
| LegacyPythonProofs.FunctionLinesDeeper | interpreter/codegen_python.py:94-113 | the same for a function |
| LegacyPythonProofs.LeafDeeper | interpreter/codegen_python.py:139-158 | the same for the one-line statements |
| LegacyPythonProofs.IfLinesDeeper | interpreter/codegen_python.py:160-177 | the same for an `if` |
| LegacyPythonProofs.DomainDeeper | interpreter/codegen_python.py:199-276 | the same for requests, pipelines, file operations, components and the TODO line |
| LegacyPythonProofs.PipelineDeeper | interpreter/codegen_python.py:212-223 | the same for a pipeline |
| LegacyPythonProofs.FileDeeper | interpreter/codegen_python.py:246-258 | the same for a file operation |
| LegacyPythonProofs.ComponentDeeper | interpreter/codegen_python.py:260-276 | the same for a component |
| LegacyPythonProofs.StateDeeper | interpreter/codegen_python.py:269-272 | the same for the state comments |
| LegacyPythonProofs.OpsDeeper | interpreter/codegen_python.py:218-223 | the same for the operation lines |
| LegacyPythonProofs.OpDeeper | interpreter/codegen_python.py:219-223 | the same for one operation |
| LegacyPythonProofs.BodyDeeper | interpreter/codegen_python.py:108-109 | the same for a block |
| LegacyPythonProofs.ChainOpsConcat | interpreter/codegen_python.py:235-242 | chaining two lists of operations one after the other is chaining their concatenation |
| LegacyPythonProofs.PipelinePrintsFlattened | interpreter/codegen_python.py:225-244 | the printer never flattens a nested pipeline, yet prints exactly what flattening first would: the innermost source with every operation wrapped around it, innermost pipeline first |
| LegacyPythonProofs.WithCase | interpreter/codegen_python.py:236-242 | keeps only filters and maps with an expression |
| LegacyPythonProofs.DroppedFromExpression | interpreter/codegen_python.py:235-242 | groupings, aggregates, sorts, limits, skips, joins, parses and maps without an expression leave no trace in the printed expression |
| LegacyPythonProofs.DroppedFromStatement | interpreter/codegen_python.py:218-223 | the same operations leave no trace in the statement, and each remaining one emits exactly one line |
| LegacyPythonProofs.ReturnTextsEmpty | interpreter/codegen_python.py:129-134 | no `return` value is collected exactly when the body has no `return` |
| LegacyPythonProofs.ReturnTextsLast | interpreter/codegen_python.py:129-134 | the collected values are empty exactly when the body has no `return`, and otherwise end with the value of the last `return` |
| LegacyPythonProofs.LambdaReturnsLast | interpreter/codegen_python.py:120-134 | a lambda returns the value of its body's last `return`, so the single-`return` special case agrees with the general one |
| LegacyPythonProofs.LambdaWithoutReturn | interpreter/codegen_python.py:129-137 | a lambda whose body has no `return` prints the placeholder body |
| LegacyPythonProofs.LambdaNamesMatchDef | interpreter/codegen_python.py:97-118 | a lambda's parameters have the names of a function's parameters at the same positions, without their types |
| LegacyPythonProofs.TernaryOrPlaceholder | interpreter/codegen_python.py:334-343 | an `if` prints as a conditional expression exactly when neither branch is a `return`, and otherwise as the placeholder, which no conditional expression equals |

## Left out

- The Python-to-VL translator, the compiler driver, the command line and logging are not part of this model.
- Floating-point values: a float literal is kept as its lexeme. Type inference decides "integral" from the lexeme's fraction digits. Python's `float()` rounding and `repr` are not modelled.
- Character classes (`isdigit`, `isalpha`, `isalnum`, `lower`) are ASCII only. Python's Unicode classes are not modelled.
- Recursion depth: every parse method takes `fuel`, and running out gives `DepthExceeded`. This stands in for Python's `RecursionError`, but its depth is not the interpreter's.
- A statement loop whose round leaves the cursor unmoved never ends in the source. The model returns `Diverges` there instead.
- Parser.Parser.Expect: the failure contract says only that a ParseError is raised. The exact message and hints are built by `ParserSupport.ExpectFailure` and proved separately by `ParserSupport.ExpectHintCounts`.
- Parser.Parser.ParseDependencyList, Parser.Parser.ParseBaseClasses, Parser.Parser.ParseArrayElements, Parser.Parser.ParseObjectLiteral, Parser.Parser.ParseInOp, Parser.Parser.ParseFileOperation, Parser.Parser.ParseUiClauses: the contracts state progress and node kind only. The list contents are not related to a specification function.
- Parser.Parser.ParseElse: the contract states only the cursor invariant. The else body is described through `ParseIfBlock`.
- Parser.Parser.Parse: the statement list is not related to a specification of the statement sequence. The contract states the node shapes and the 1000-round cap.
- Parser.ParseSource: src/vl/lexer.py, the lexer the `src/vl` parser imports, is not part of this model. The interpreter lexer (`Lexer.TokenizeSource`) stands in for it, and it never produces ELSE, CLASS, SELF, PY, IN or FLOOR_DIVIDE. Through `ParseSource`, the parser's `else` blocks, `class`, `self.x =`, `py:`, `in:` and `//` paths are therefore unreachable; the `Parser` methods state them for any token list.
- Parser.Parser.ParseLogical, Parser.Parser.ParseComparison, Parser.Parser.ParseTerm, Parser.Parser.ParseFactor, LegacyParser.Parser.ParseLogical, LegacyParser.Parser.ParseComparison, LegacyParser.Parser.ParseTerm, LegacyParser.Parser.ParseFactor: each contract says the result is a left fold (`FoldLeft(first, steps)`) whose operators are tokens of that level. The operands `first` and `steps[i].right` are not tied to the next level's result, nor the operators to the tokens consumed, so the precedence ladder logical < comparison < term < factor rests on the method bodies and is not stated.
- Parser.Parser.ParseUiComponent: the contract states the component's name and empty body, not the `props` and `state_vars` that `ParseUiClauses` collects.
- String templates (`_process_string_template`): the template text is kept as a string. Its interpolation is not modelled.
- CodegenJs.JSCodeGenerator.GenerateStatement: a `UIComponent` appends no lines. The source prints a five-line React stub for a component without state and raises for one with state, because the parser stores state entries as tuples. React component emission is not part of this model; `LegacyTs.TSCodeGenerator.GenerateUiComponent` models the same stub and crash for the TypeScript generator.
- CodegenJs.StmtLines: for the same reason a `UIComponent` contributes no lines, so the lemmas built on it (such as `CodegenJsProofs.SimpleStmtLinesDeeper`) say nothing about component output.
- ParserSupport.ExprToString: for a target that is neither an identifier, an index nor a member access, Python returns `str(expr)`, the full dataclass repr. The model returns the class name and `(...)` (`ReprPlaceholder`), so two index targets whose index is, say, a different number literal share a name in the model but not in the source. The repr depends on Python's float `repr`, which is not modelled.
- Printed numbers: every generator prints a float literal as its lexeme. Python's `str(float)` can differ (`1.50` prints as `1.5`); it is not modelled.
- Crashing generators: where Python raises in the middle of `generate` (C, Rust, the legacy TypeScript generator), the model returns `None` and does not state the lines appended before the exception.
- LegacyTs.TExpr: every node that reaches the `IndexAccess` test raises `NameError`, since the interpreter's AST module defines no such class. The model returns `None` for those nodes and does not distinguish the error kind.
- LegacyPython.PyExpr: `_process_string_template` is taken as the parameter `tmpl`. Its rewrite of `${...}` into f-string parts and its error handling are not modelled.
- LegacyParser.Parser.ParseLoopBody: with no token left the source loops forever; the model returns `Diverges`.
- LegacyParser.Parser.Expect: the failure contract says only that a ParseError is raised at the unmoved cursor, not its message.
- LegacyParser.Parser.ParseDependencyList, LegacyParser.Parser.ParseUiClauses, LegacyParser.Parser.ParseFileOperation, LegacyParser.Parser.ParseElements, LegacyParser.Parser.ParseArguments: the contracts state progress and the closing token only. The list contents are not related to a specification function.
- LegacyParser.Parser.ParseFunctionBody: the contract states where the body stops, not the statements it holds.
- LegacyParser.Parser.Parse: the statement list is not related to a specification of the statement sequence. The contract states the node shapes and the 1000-round cap.
- LegacyParser.Parser.ParseUiComponent: the `on:` handlers and the `render:` element are read and dropped, as the source does; the contract states the name and the empty body, not the kept states and props.

## Findings

| source | as written | input that shows it | evidently intended | confidence | as-written member | corrected member |
|---|---|---|---|---|---|---|
| src/vl/errors.py:47-49 | the caret offset is `len(str(line)) + 3 + column - 1`, but the prefix `"  L \| "` is `len(str(line)) + 5` characters wide | an error at line 1, column 1 in `abc`: the caret lands under the `\|`, two columns left of `a` | offset `len(str(line)) + 5 + column - 1`, so the caret sits under the reported character | high (not executed) | Errors.CaretTwoColumnsLeft | Errors.AlignedCaretUnderColumn |
| src/vl/codegen/c.py:56-74 | the includes are emitted before the statements are generated, so the `math.h` that printing a power adds arrives after the `#include` lines are already out | the program `return a ** b;` compiles to the standard includes and `return pow(a, b);` with no `#include <math.h>` | generate the statements first, then emit the collected includes, so a program calling `pow` includes math.h | high (not executed) | CodegenCProofs.PowWithoutMathHeader | CodegenCProofs.CorrectedIncludesMath |
| src/vl/codegen/c.py:205-208 | a string literal escapes only `"`, leaving a backslash of the VL text as it is | the VL text `a\` prints as `"a\"`, where C reads `\"` as an escaped quote and the literal never ends | escape `\` as `\\` as well as `"` as `\"`, so the literal reads back as the text | high (not executed) | CodegenCProofs.TrailingBackslashUnterminated | CodegenCProofs.EscapeCReadsBack |
| interpreter/codegen_ts.py:51-75 | `generate` never clears `self.code`, so each call appends the program's lines to those of earlier calls and returns all of them | calling `generate()` twice on one generator: the second result is the first text, a newline and the first text again | clear the code at the start of `generate`, as `src/vl/codegen/javascript.py:24-28` does, so each call returns just the program's text | medium (not executed) | LegacyTs.TSCodeGenerator.GenerateTwice | LegacyTs.TSCodeGenerator.GenerateFresh |

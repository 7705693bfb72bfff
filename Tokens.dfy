/** Token kinds and the lexer's lookup tables (interpreter/lexer.py), extended with the
    kinds the current parser (src/vl/parser.py) consumes: ELSE, CLASS, SELF, PY, IN, FLOOR_DIVIDE. */
module Tokens {
  import opened Wrappers

  /** `TokenType`; constructor names are the enum member names. */
  datatype TokenType =
    // Keywords
    META | DEPS | EXPORT | FN | INPUT | OUTPUT | RET | VAR
    | OP | IF | FOR | WHILE | API | ASYNC | FILTER | MAP
    | PARSE | UI | STATE | PROPS | ON | RENDER | DATA | GROUPBY
    | AGG | SORT | FILE | FFI
    // Types
    | TYPE_INT | TYPE_FLOAT | TYPE_STR | TYPE_BOOL | TYPE_ARR | TYPE_OBJ | TYPE_MAP | TYPE_SET
    | TYPE_ANY | TYPE_VOID | TYPE_PROMISE | TYPE_FUNC
    // Operators
    | PLUS | MINUS | MULTIPLY | DIVIDE | MODULO | POWER | EQUAL | NOT_EQUAL
    | LESS_THAN | GREATER_THAN | LESS_EQUAL | GREATER_EQUAL | AND | OR | NOT
    // Delimiters
    | COLON | PIPE | COMMA | EQUALS | PLUS_EQUALS | MINUS_EQUALS | TIMES_EQUALS | DIV_EQUALS
    | DOTDOT | QUESTION | DOLLAR | AT | LPAREN | RPAREN | LBRACE | RBRACE
    | LBRACKET | RBRACKET | DOT
    // Literals
    | NUMBER | STRING | IDENTIFIER
    // Special
    | NEWLINE | EOF | COMMENT
    // Kinds used only by the current parser
    | ELSE | CLASS | SELF | PY | IN | FLOOR_DIVIDE

  /** A token: kind, lexeme, and the line and column where it starts. */
  datatype Token = Token(kind: TokenType, value: string, line: int, column: int)

  /** `TokenType.name`, used verbatim in parse error messages. */
  function KindName(k: TokenType): string {
    match k
    case META => "META"
    case DEPS => "DEPS"
    case EXPORT => "EXPORT"
    case FN => "FN"
    case INPUT => "INPUT"
    case OUTPUT => "OUTPUT"
    case RET => "RET"
    case VAR => "VAR"
    case OP => "OP"
    case IF => "IF"
    case FOR => "FOR"
    case WHILE => "WHILE"
    case API => "API"
    case ASYNC => "ASYNC"
    case FILTER => "FILTER"
    case MAP => "MAP"
    case PARSE => "PARSE"
    case UI => "UI"
    case STATE => "STATE"
    case PROPS => "PROPS"
    case ON => "ON"
    case RENDER => "RENDER"
    case DATA => "DATA"
    case GROUPBY => "GROUPBY"
    case AGG => "AGG"
    case SORT => "SORT"
    case FILE => "FILE"
    case FFI => "FFI"
    case TYPE_INT => "TYPE_INT"
    case TYPE_FLOAT => "TYPE_FLOAT"
    case TYPE_STR => "TYPE_STR"
    case TYPE_BOOL => "TYPE_BOOL"
    case TYPE_ARR => "TYPE_ARR"
    case TYPE_OBJ => "TYPE_OBJ"
    case TYPE_MAP => "TYPE_MAP"
    case TYPE_SET => "TYPE_SET"
    case TYPE_ANY => "TYPE_ANY"
    case TYPE_VOID => "TYPE_VOID"
    case TYPE_PROMISE => "TYPE_PROMISE"
    case TYPE_FUNC => "TYPE_FUNC"
    case PLUS => "PLUS"
    case MINUS => "MINUS"
    case MULTIPLY => "MULTIPLY"
    case DIVIDE => "DIVIDE"
    case MODULO => "MODULO"
    case POWER => "POWER"
    case EQUAL => "EQUAL"
    case NOT_EQUAL => "NOT_EQUAL"
    case LESS_THAN => "LESS_THAN"
    case GREATER_THAN => "GREATER_THAN"
    case LESS_EQUAL => "LESS_EQUAL"
    case GREATER_EQUAL => "GREATER_EQUAL"
    case AND => "AND"
    case OR => "OR"
    case NOT => "NOT"
    case COLON => "COLON"
    case PIPE => "PIPE"
    case COMMA => "COMMA"
    case EQUALS => "EQUALS"
    case PLUS_EQUALS => "PLUS_EQUALS"
    case MINUS_EQUALS => "MINUS_EQUALS"
    case TIMES_EQUALS => "TIMES_EQUALS"
    case DIV_EQUALS => "DIV_EQUALS"
    case DOTDOT => "DOTDOT"
    case QUESTION => "QUESTION"
    case DOLLAR => "DOLLAR"
    case AT => "AT"
    case LPAREN => "LPAREN"
    case RPAREN => "RPAREN"
    case LBRACE => "LBRACE"
    case RBRACE => "RBRACE"
    case LBRACKET => "LBRACKET"
    case RBRACKET => "RBRACKET"
    case DOT => "DOT"
    case NUMBER => "NUMBER"
    case STRING => "STRING"
    case IDENTIFIER => "IDENTIFIER"
    case NEWLINE => "NEWLINE"
    case EOF => "EOF"
    case COMMENT => "COMMENT"
    case ELSE => "ELSE"
    case CLASS => "CLASS"
    case SELF => "SELF"
    case PY => "PY"
    case IN => "IN"
    case FLOOR_DIVIDE => "FLOOR_DIVIDE"
  }

  /** The `KEYWORDS` table; `map` is a keyword here, and `groupBy` is case-sensitive. */
  function KeywordKind(w: string): Option<TokenType> {
    if w == "meta" then Some(META) else if w == "deps" then Some(DEPS)
    else if w == "export" then Some(EXPORT) else if w == "fn" then Some(FN)
    else if w == "i" then Some(INPUT) else if w == "o" then Some(OUTPUT)
    else if w == "ret" then Some(RET) else if w == "v" then Some(VAR)
    else if w == "op" then Some(OP) else if w == "if" then Some(IF)
    else if w == "for" then Some(FOR) else if w == "while" then Some(WHILE)
    else if w == "api" then Some(API) else if w == "async" then Some(ASYNC)
    else if w == "filter" then Some(FILTER) else if w == "map" then Some(MAP)
    else if w == "parse" then Some(PARSE) else if w == "ui" then Some(UI)
    else if w == "state" then Some(STATE) else if w == "props" then Some(PROPS)
    else if w == "on" then Some(ON) else if w == "render" then Some(RENDER)
    else if w == "data" then Some(DATA) else if w == "groupBy" then Some(GROUPBY)
    else if w == "agg" then Some(AGG) else if w == "sort" then Some(SORT)
    else if w == "file" then Some(FILE) else if w == "ffi" then Some(FFI)
    else None
  }

  /** The `TYPES` table. */
  function TypeKind(w: string): Option<TokenType> {
    if w == "int" then Some(TYPE_INT) else if w == "float" then Some(TYPE_FLOAT)
    else if w == "str" then Some(TYPE_STR) else if w == "bool" then Some(TYPE_BOOL)
    else if w == "arr" then Some(TYPE_ARR) else if w == "obj" then Some(TYPE_OBJ)
    else if w == "map" then Some(TYPE_MAP) else if w == "set" then Some(TYPE_SET)
    else if w == "any" then Some(TYPE_ANY) else if w == "void" then Some(TYPE_VOID)
    else if w == "promise" then Some(TYPE_PROMISE) else if w == "func" then Some(TYPE_FUNC)
    else None
  }

  /** The kind `read_identifier` gives a word: keywords first, then types, else IDENTIFIER. */
  function WordKind(w: string): (k: TokenType)
    ensures KeywordKind(w).Some? ==> k == KeywordKind(w).value
    ensures KeywordKind(w).None? && TypeKind(w).Some? ==> k == TypeKind(w).value
    ensures k == IDENTIFIER <==> KeywordKind(w).None? && TypeKind(w).None?
  {
    if KeywordKind(w).Some? then KeywordKind(w).value
    else if TypeKind(w).Some? then TypeKind(w).value
    else IDENTIFIER
  }

  /** `map` is in both tables and always lexes as the keyword MAP, never TYPE_MAP. */
  lemma MapIsKeyword()
    ensures TypeKind("map") == Some(TYPE_MAP)
    ensures WordKind("map") == MAP
  {
  }

  /** No word lexes as TYPE_MAP: the type table's `map` entry is shadowed by the keyword. */
  lemma TypeMapUnreachable(w: string)
    ensures WordKind(w) != TYPE_MAP
  {
  }

  /** The `OPERATORS` table: single-character and two-character operators. */
  function OperatorKind(op: string): Option<TokenType> {
    if |op| == 1 then SingleOperatorKind(op[0])
    else if |op| == 2 then PairOperatorKind(op[0], op[1])
    else None
  }

  function SingleOperatorKind(c: char): Option<TokenType> {
    match c
    case '+' => Some(PLUS)
    case '-' => Some(MINUS)
    case '*' => Some(MULTIPLY)
    case '/' => Some(DIVIDE)
    case '%' => Some(MODULO)
    case '<' => Some(LESS_THAN)
    case '>' => Some(GREATER_THAN)
    case '!' => Some(NOT)
    case _ => None
  }

  function PairOperatorKind(a: char, b: char): Option<TokenType> {
    if a == '*' && b == '*' then Some(POWER)
    else if a == '=' && b == '=' then Some(EQUAL)
    else if a == '!' && b == '=' then Some(NOT_EQUAL)
    else if a == '<' && b == '=' then Some(LESS_EQUAL)
    else if a == '>' && b == '=' then Some(GREATER_EQUAL)
    else if a == '&' && b == '&' then Some(AND)
    else if a == '|' && b == '|' then Some(OR)
    else None
  }

  /** The compound-assignment table of `tokenize` (its `..` entry is shadowed by the DOT branch). */
  function CompoundKind(op: string): Option<TokenType> {
    if |op| != 2 then None
    else if op[1] == '=' then
      if op[0] == '+' then Some(PLUS_EQUALS) else if op[0] == '-' then Some(MINUS_EQUALS)
      else if op[0] == '*' then Some(TIMES_EQUALS) else if op[0] == '/' then Some(DIV_EQUALS)
      else None
    else if op[0] == '.' && op[1] == '.' then Some(DOTDOT)
    else None
  }

  /** The single-character delimiter table of `tokenize`. */
  function DelimiterKind(c: char): Option<TokenType> {
    match c
    case ':' => Some(COLON)
    case '|' => Some(PIPE)
    case ',' => Some(COMMA)
    case '=' => Some(EQUALS)
    case '?' => Some(QUESTION)
    case '$' => Some(DOLLAR)
    case '@' => Some(AT)
    case '(' => Some(LPAREN)
    case ')' => Some(RPAREN)
    case '{' => Some(LBRACE)
    case '}' => Some(RBRACE)
    case '[' => Some(LBRACKET)
    case ']' => Some(RBRACKET)
    case _ => None
  }

  predicate IsSpecial(k: TokenType) { k == EOF || k == NEWLINE || k == COMMENT }

  /** No table yields EOF, NEWLINE or COMMENT: those kinds come only from `tokenize` itself. */
  lemma WordNeverSpecial(w: string)
    ensures !IsSpecial(WordKind(w))
  {
  }

  lemma OperatorNeverSpecial(w: string)
    ensures OperatorKind(w).Some? ==> !IsSpecial(OperatorKind(w).value)
  {
  }

  lemma CompoundNeverSpecial(w: string)
    ensures CompoundKind(w).Some? ==> !IsSpecial(CompoundKind(w).value)
  {
  }

  lemma DelimiterNeverSpecial(c: char)
    ensures DelimiterKind(c).Some? ==> !IsSpecial(DelimiterKind(c).value)
  {
  }
}

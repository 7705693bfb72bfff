/** The VL lexer (interpreter/lexer.py): a character cursor that tracks line and column
    and turns source text into a token list ending in EOF.

    The pure functions below say what each reader consumes and produces; the class
    `Lexer` performs the same work step by step and is proved to agree with them. */
module Lexer {
  import opened Wrappers
  import opened Strings
  import opened Errors
  import opened Tokens

  // ---------------------------------------------------------------------------
  // Positions

  /** The line of offset `p`: one more than the newlines before it. */
  function LineAt(s: string, p: nat): int
    requires p <= |s|
  {
    if p == 0 then 1 else LineAt(s, p - 1) + (if s[p - 1] == '\n' then 1 else 0)
  }

  /** The column of offset `p`: 1 after a newline (or at the start), else one more than before. */
  function ColumnAt(s: string, p: nat): int
    requires p <= |s|
  {
    if p == 0 || s[p - 1] == '\n' then 1 else ColumnAt(s, p - 1) + 1
  }

  /** Lines and columns are 1-based. */
  lemma {:induction false} PositionsPositive(s: string, p: nat)
    requires p <= |s|
    ensures LineAt(s, p) >= 1 && ColumnAt(s, p) >= 1
  {
    if p > 0 { PositionsPositive(s, p - 1); }
  }

  // ---------------------------------------------------------------------------
  // What each reader consumes

  predicate IsBlank(c: char) { c == ' ' || c == '\t' || c == '\r' }

  predicate IsWordChar(c: char) { IsAlnum(c) || c == '_' || c == '-' }

  /** `skip_whitespace`: the first offset at or after `p` that is not a space, tab or CR. */
  function SkipBlanks(s: string, p: nat): (q: nat)
    requires p <= |s|
    ensures p <= q <= |s| && (q == |s| || !IsBlank(s[q]))
    ensures forall i :: p <= i < q ==> IsBlank(s[i])
    decreases |s| - p
  {
    if p < |s| && IsBlank(s[p]) then SkipBlanks(s, p + 1) else p
  }

  /** `skip_comment`: the offset of the next newline, or the end of input. */
  function CommentEnd(s: string, p: nat): (q: nat)
    requires p <= |s|
    ensures p <= q <= |s| && (q == |s| || s[q] == '\n')
    ensures forall i :: p <= i < q ==> s[i] != '\n'
    decreases |s| - p
  {
    if p < |s| && s[p] != '\n' then CommentEnd(s, p + 1) else p
  }

  /** `read_number`: digits and at most one '.', stopping before a '.' that starts `..`. */
  function NumberEnd(s: string, p: nat, seenDot: bool): (q: nat)
    requires p <= |s|
    ensures p <= q <= |s|
    decreases |s| - p
  {
    if p == |s| then p
    else if IsDigit(s[p]) then NumberEnd(s, p + 1, seenDot)
    else if s[p] == '.' then
      if p + 1 < |s| && s[p + 1] == '.' then p
      else if seenDot then p
      else NumberEnd(s, p + 1, true)
    else p
  }

  /** The characters `read_number` accepts, counted by their dots. */
  function CountDots(t: string): nat {
    if t == [] then 0 else CountDots(t[..|t| - 1]) + (if t[|t| - 1] == '.' then 1 else 0)
  }

  /** A number lexeme holds only digits and dots, at most one dot (none if one was seen
      already), and none of its dots is followed by another dot in the source. */
  lemma {:induction false} NumberLexemeShape(s: string, p: nat, seenDot: bool)
    requires p <= |s|
    ensures var q := NumberEnd(s, p, seenDot);
      (forall i :: p <= i < q ==> IsDigit(s[i]) || s[i] == '.') &&
      CountDots(s[p..q]) <= (if seenDot then 0 else 1) &&
      (forall i :: p <= i < q && s[i] == '.' ==> i + 1 == |s| || s[i + 1] != '.')
    decreases |s| - p
  {
    var q := NumberEnd(s, p, seenDot);
    if p < |s| && q > p {
      var seen' := seenDot || s[p] == '.';
      NumberLexemeShape(s, p + 1, seen');
      assert q == NumberEnd(s, p + 1, seen');
      DotsCons(s[p], s[p + 1..q]);
      assert s[p..q] == [s[p]] + s[p + 1..q];
    }
  }

  lemma {:induction false} DotsCons(c: char, t: string)
    ensures CountDots([c] + t) == CountDots(t) + (if c == '.' then 1 else 0)
    decreases |t|
  {
    if t != [] {
      assert ([c] + t)[..|t|] == [c] + t[..|t| - 1];
      DotsCons(c, t[..|t| - 1]);
    }
  }

  /** `read_identifier`: letters, digits, '_' and '-'. */
  function WordEnd(s: string, p: nat): (q: nat)
    requires p <= |s|
    ensures p <= q <= |s| && (q == |s| || !IsWordChar(s[q]))
    ensures forall i :: p <= i < q ==> IsWordChar(s[i])
    decreases |s| - p
  {
    if p < |s| && IsWordChar(s[p]) then WordEnd(s, p + 1) else p
  }

  /** The character an escape `\c` stands for in a string quoted with `quote`. */
  function Unescape(c: char, quote: char): char {
    if c == 'n' then '\n'
    else if c == 't' then '\t'
    else if c == '\\' then '\\'
    else if c == quote then quote
    else c
  }

  /** How the body of a string literal ends. */
  datatype Scanned =
    | Closed(value: string, end: nat)   // value and the offset after the closing quote
    | Unterminated                      // input ended first
    | EscapeAtEnd                       // a backslash was the last character of the input

  /** The loop of `read_string` from offset `p` with interpolation depth `depth` and the
      value read so far `acc`. `${` raises the depth; while it is positive braces adjust it,
      every character is kept verbatim and the quote does not end the string. */
  function ScanString(s: string, p: nat, quote: char, depth: nat, acc: string): (o: Scanned)
    requires p <= |s|
    ensures o.Closed? ==> p < o.end <= |s| && s[o.end - 1] == quote
    decreases |s| - p
  {
    if p == |s| then Unterminated
    else if s[p] == '$' && p + 1 < |s| && s[p + 1] == '{' then
      ScanString(s, p + 2, quote, depth + 1, acc + "${")
    else if depth > 0 then
      var d := if s[p] == '{' then depth + 1 else if s[p] == '}' then depth - 1 else depth;
      ScanString(s, p + 1, quote, d, acc + [s[p]])
    else if s[p] == quote then Closed(acc, p + 1)
    else if s[p] == '\\' then
      if p + 1 == |s| then EscapeAtEnd
      else ScanString(s, p + 2, quote, depth, acc + [Unescape(s[p + 1], quote)])
    else ScanString(s, p + 1, quote, depth, acc + [s[p]])
  }

  /** A string value written back as string-literal text: each character that `read_string`
      treats specially (newline, tab, backslash, the quote, and '$') is escaped. */
  function EscapeText(v: string, quote: char): string
  {
    if v == [] then []
    else
      EscapeChar(v[0], quote) + EscapeText(v[1..], quote)
  }

  /** The escaped form of one character. */
  function EscapeChar(c: char, quote: char): (e: string)
    ensures 1 <= |e| <= 2
  {
    if c == '\n' then "\\n" else if c == '\t' then "\\t"
    else if c == '\\' || c == quote || c == '$' then ['\\', c]
    else [c]
  }

  /** Escaping and then reading a string gives the value back, ending just after the quote. */
  lemma {:induction false} EscapeRoundTrip(v: string, quote: char, rest: string, acc: string)
    requires quote == '"' || quote == '\''
    ensures var s := EscapeText(v, quote) + [quote] + rest;
      ScanString(s, 0, quote, 0, acc) == Closed(acc + v, |EscapeText(v, quote)| + 1)
    decreases |v|
  {
    var s := EscapeText(v, quote) + [quote] + rest;
    if v == [] {
      assert s[0] == quote;
    } else {
      var e := EscapeChar(v[0], quote);
      var s' := EscapeText(v[1..], quote) + [quote] + rest;
      EscapeTextSplits(v, quote, rest);
      EscapeRoundTrip(v[1..], quote, rest, acc + [v[0]]);
      ScanShift(s, e, s', quote, acc + [v[0]]);
      EscapeCharScans(v[0], quote, s', acc);
      HeadMoved(acc, v);
    }
  }

  lemma EscapeTextSplits(v: string, quote: char, rest: string)
    requires v != []
    ensures EscapeText(v, quote) + [quote] + rest ==
      EscapeChar(v[0], quote) + (EscapeText(v[1..], quote) + [quote] + rest)
  {
  }

  lemma HeadMoved(acc: string, v: string)
    requires v != []
    ensures acc + [v[0]] + v[1..] == acc + v
  {
    assert [v[0]] + v[1..] == v;
  }

  /** Reading the escaped form of `c` at the start consumes it and yields `c`. */
  lemma EscapeCharScans(c: char, quote: char, t: string, acc: string)
    requires quote == '"' || quote == '\''
    ensures var e := EscapeChar(c, quote);
      ScanString(e + t, 0, quote, 0, acc) == ScanString(e + t, |e|, quote, 0, acc + [c])
  {
    var e := EscapeChar(c, quote);
    var s := e + t;
    assert s[0] == e[0];
    if |e| == 2 {
      assert s[1] == e[1];
      assert Unescape(e[1], quote) == c;
    }
  }

  /** Scanning from offset `|e|` of `e + t` is scanning `t`, with offsets shifted. */
  lemma {:induction false} ScanShift(s: string, e: string, t: string, quote: char, acc: string)
    requires s == e + t
    ensures ScanString(s, |e|, quote, 0, acc) == Shifted(ScanString(t, 0, quote, 0, acc), |e|)
  {
    ScanShiftAt(s, e, t, 0, quote, 0, acc);
  }

  function Shifted(o: Scanned, k: nat): Scanned {
    if o.Closed? then Closed(o.value, o.end + k) else o
  }

  lemma {:induction false} ScanShiftAt(s: string, e: string, t: string, p: nat, quote: char, depth: nat, acc: string)
    requires s == e + t && p <= |t|
    ensures ScanString(s, |e| + p, quote, depth, acc) == Shifted(ScanString(t, p, quote, depth, acc), |e|)
    decreases |t| - p
  {
    if p < |t| {
      assert s[|e| + p] == t[p];
      if p + 1 < |t| { assert s[|e| + p + 1] == t[p + 1]; }
      if t[p] == '$' && p + 1 < |t| && t[p + 1] == '{' {
        ScanShiftAt(s, e, t, p + 2, quote, depth + 1, acc + "${");
      } else if depth > 0 {
        var d := if t[p] == '{' then depth + 1 else if t[p] == '}' then depth - 1 else depth;
        ScanShiftAt(s, e, t, p + 1, quote, d, acc + [t[p]]);
      } else if t[p] == quote {
      } else if t[p] == '\\' {
        if p + 1 < |t| {
          ScanShiftAt(s, e, t, p + 2, quote, depth, acc + [Unescape(t[p + 1], quote)]);
        }
      } else {
        ScanShiftAt(s, e, t, p + 1, quote, depth, acc + [t[p]]);
      }
    }
  }

  // ---------------------------------------------------------------------------
  // One step of `tokenize`

  /** The Python error raised when `read_string` appends the missing character after a final backslash. */
  const NoneAppended := "TypeError: can only concatenate str (not \"NoneType\") to str"

  function LexError(message: string, line: int, column: int, hints: seq<string>): Failure {
    Raised(NewError(LexerError, message, Some(At(line, column)), "", Some(hints)))
  }

  /** What one iteration of the `tokenize` loop does at a non-blank offset `q`. */
  datatype Step =
    | Skip(next: nat)              // a comment was skipped
    | Emit(token: Token, next: nat)
    | Stop(failure: Failure)

  /** What a step that emits a token promises: progress, a token kind that no table
      produces specially, and the position of the first character. */
  ghost predicate Emits(s: string, q: nat, st: Step, line: int, col: int) {
    st.Emit? ==> q < st.next <= |s| && !IsSpecial(st.token.kind) &&
                 st.token.line == line && st.token.column == col
  }

  /** The token (or error) `tokenize` produces at offset `q`, which is not blank; every token
      is located at its first character and the cursor always moves forward. */
  function StepAt(s: string, q: nat): (st: Step)
    requires q < |s| && !IsBlank(s[q])
    ensures st.Skip? ==> q < st.next <= |s|
    ensures st.Emit? ==> q < st.next <= |s| && st.token.kind != EOF && st.token.kind != COMMENT &&
                         st.token.line == LineAt(s, q) && st.token.column == ColumnAt(s, q)
  {
    var c := s[q];
    var line, col := LineAt(s, q), ColumnAt(s, q);
    if c == '#' then Skip(CommentEnd(s, q))
    else if c == '\n' then Emit(Token(NEWLINE, "\\n", line, col), q + 1)
    else if IsDigit(c) then NumberStep(s, q, line, col)
    else if c == '.' then DotStep(s, q, line, col)
    else if c == '"' || c == '\'' then StringStep(s, q, line, col)
    else if IsAlpha(c) || c == '_' then WordStep(s, q, line, col)
    else SymbolStep(s, q, line, col)
  }

  /** A number: `read_number` from `q`. */
  function NumberStep(s: string, q: nat, line: int, col: int): (st: Step)
    requires q < |s| && IsDigit(s[q])
    ensures st.Emit? && Emits(s, q, st, line, col)
  {
    var e := NumberEnd(s, q, false);
    assert e > q by { assert NumberEnd(s, q, false) == NumberEnd(s, q + 1, false); }
    Emit(Token(NUMBER, s[q..e], line, col), e)
  }

  /** A '.': `..`, a number such as `.5`, or DOT. */
  function DotStep(s: string, q: nat, line: int, col: int): (st: Step)
    requires q < |s| && s[q] == '.'
    ensures st.Emit? && Emits(s, q, st, line, col)
  {
    if q + 1 < |s| && s[q + 1] == '.' then Emit(Token(DOTDOT, "..", line, col), q + 2)
    else if q + 1 < |s| && IsDigit(s[q + 1]) then
      var e := NumberEnd(s, q, false);
      assert e > q by { assert NumberEnd(s, q, false) == NumberEnd(s, q + 1, true); }
      Emit(Token(NUMBER, s[q..e], line, col), e)
    else Emit(Token(DOT, ".", line, col), q + 1)
  }

  /** A string literal opened by the quote at `q`. */
  function StringStep(s: string, q: nat, line: int, col: int): (st: Step)
    requires q < |s| && (s[q] == '"' || s[q] == '\'')
    ensures !st.Skip? && Emits(s, q, st, line, col)
  {
    match ScanString(s, q + 1, s[q], 0, "")
    case Closed(v, e) => Emit(Token(STRING, v, line, col), e)
    case Unterminated =>
      Stop(LexError("Unterminated string literal", line, col,
                    ["String must be closed with matching quote", "String started with " + [s[q]]]))
    case EscapeAtEnd => Stop(Crash(NoneAppended))
  }

  /** A keyword, type name or identifier. */
  function WordStep(s: string, q: nat, line: int, col: int): (st: Step)
    requires q < |s| && (IsAlpha(s[q]) || s[q] == '_')
    ensures st.Emit? && Emits(s, q, st, line, col)
  {
    var e := WordEnd(s, q);
    WordNeverSpecial(s[q..e]);
    Emit(Token(WordKind(s[q..e]), s[q..e], line, col), e)
  }

  /** An operator, compound assignment or delimiter: the two-character form is tried first;
      any other character is a LexerError. */
  function SymbolStep(s: string, q: nat, line: int, col: int): (st: Step)
    requires q < |s|
    ensures !st.Skip? && Emits(s, q, st, line, col)
  {
    var c := s[q];
    var two := if q + 1 < |s| then [c, s[q + 1]] else [c];
    var after := if q + 2 <= |s| then q + 2 else |s|;
    if OperatorKind(two).Some? then
      OperatorNeverSpecial(two);
      Emit(Token(OperatorKind(two).value, two, line, col), after)
    else if CompoundKind(two).Some? then
      CompoundNeverSpecial(two);
      Emit(Token(CompoundKind(two).value, two, line, col), after)
    else if OperatorKind([c]).Some? then
      OperatorNeverSpecial([c]);
      Emit(Token(OperatorKind([c]).value, [c], line, col), q + 1)
    else if DelimiterKind(c).Some? then
      DelimiterNeverSpecial(c);
      Emit(Token(DelimiterKind(c).value, [c], line, col), q + 1)
    else
      Stop(LexError("Unexpected character '" + [c] + "'", line, col,
                    ["Check for typos or unsupported characters"]))
  }

  /** The `tokenize` loop from offset `p`, after the tokens `acc`: EOF is appended, at the
      position where input ends, only once the loop has consumed everything. */
  function TokenizeFrom(s: string, p: nat, acc: seq<Token>): Result<seq<Token>, Failure>
    requires p <= |s|
    decreases |s| - p
  {
    var q := SkipBlanks(s, p);
    if q == |s| then Success(acc + [Token(EOF, "", LineAt(s, q), ColumnAt(s, q))])
    else
      match StepAt(s, q)
      case Skip(n) => TokenizeFrom(s, n, acc)
      case Emit(t, n) => TokenizeFrom(s, n, acc + [t])
      case Stop(f) => Failure(f)
  }

  /** `tokenize(source)` as a function of the source text. */
  function Tokenize(s: string): Result<seq<Token>, Failure> {
    TokenizeFrom(s, 0, [])
  }

  /** No token of `ts` is EOF. */
  ghost predicate NoEof(ts: seq<Token>) {
    forall i :: 0 <= i < |ts| ==> ts[i].kind != EOF
  }

  /** A token emitted at a non-blank offset is appended and the loop goes on after it. */
  lemma TokenizeEmits(s: string, p: nat, acc: seq<Token>, t: Token, n: nat)
    requires p < |s| && !IsBlank(s[p]) && StepAt(s, p) == Emit(t, n)
    ensures TokenizeFrom(s, p, acc) == TokenizeFrom(s, n, acc + [t])
  {
  }

  /** At the end of the input the loop appends EOF there. */
  lemma TokenizeEnds(s: string, acc: seq<Token>)
    ensures TokenizeFrom(s, |s|, acc) == Success(acc + [Token(EOF, "", LineAt(s, |s|), ColumnAt(s, |s|))])
  {
  }

  lemma Appended(a: Token, b: Token, c: Token, d: Token)
    ensures [] + [a] == [a] && [a] + [b] == [a, b] && [a, b] + [c] == [a, b, c] && [a, b, c] + [d] == [a, b, c, d]
  {
  }

  lemma PrefixSnoc(ts: seq<Token>, t: Token, n: nat)
    requires n <= |ts|
    ensures (ts + [t])[..n] == ts[..n] && (ts + [t])[..|ts|] == ts
  {
  }

  lemma NoEofSnoc(ts: seq<Token>, t: Token)
    requires NoEof(ts) && t.kind != EOF
    ensures NoEof(ts + [t])
  {
  }

  /** The steps of `tokenize` on `0..10`: the number stops before `..`. */
  lemma RangeFirstStep()
    ensures !IsBlank("0..10"[0])
    ensures StepAt("0..10", 0) == Emit(Token(NUMBER, "0", 1, 1), 1)
  {
    assert NumberEnd("0..10", 0, false) == 1;
  }

  lemma RangeDotsStep()
    ensures !IsBlank("0..10"[1])
    ensures StepAt("0..10", 1) == Emit(Token(DOTDOT, "..", 1, 2), 3)
  {
  }

  lemma RangeLastStep()
    ensures !IsBlank("0..10"[3])
    ensures StepAt("0..10", 3) == Emit(Token(NUMBER, "10", 1, 4), 5)
  {
    assert NumberEnd("0..10", 3, false) == 5;
  }

  /** `0..10` lexes as NUMBER "0", DOTDOT, NUMBER "10", EOF. */
  lemma RangeLexes()
    ensures Tokenize("0..10") == Success([
      Token(NUMBER, "0", 1, 1), Token(DOTDOT, "..", 1, 2), Token(NUMBER, "10", 1, 4), Token(EOF, "", 1, 6)])
  {
    var s := "0..10";
    var t0, t1, t2, e := Token(NUMBER, "0", 1, 1), Token(DOTDOT, "..", 1, 2), Token(NUMBER, "10", 1, 4), Token(EOF, "", 1, 6);
    RangeFirstStep();
    TokenizeEmits(s, 0, [], t0, 1);
    RangeDotsStep();
    TokenizeEmits(s, 1, [] + [t0], t1, 3);
    RangeLastStep();
    TokenizeEmits(s, 3, [] + [t0] + [t1], t2, 5);
    TokenizeEnds(s, [] + [t0] + [t1] + [t2]);
    assert LineAt(s, 5) == 1 && ColumnAt(s, 5) == 6;
    Appended(t0, t1, t2, e);
  }

  /** The step on ".5": one number token. */
  lemma LeadingDotNumberStep()
    ensures !IsBlank(".5"[0])
    ensures StepAt(".5", 0) == Emit(Token(NUMBER, ".5", 1, 1), 2)
  {
    assert NumberEnd(".5", 0, false) == 2;
  }

  /** The steps on ".a": DOT, then an identifier. */
  lemma LoneDotStep()
    ensures !IsBlank(".a"[0])
    ensures StepAt(".a", 0) == Emit(Token(DOT, ".", 1, 1), 1)
  {
  }

  lemma AfterDotStep()
    ensures !IsBlank(".a"[1])
    ensures StepAt(".a", 1) == Emit(Token(IDENTIFIER, "a", 1, 2), 2)
  {
    assert WordEnd(".a", 1) == 2;
    assert ".a"[1..2] == "a";
  }

  /** A leading '.' before a digit starts a number. */
  lemma LeadingDotNumberLexes()
    ensures Tokenize(".5") == Success([Token(NUMBER, ".5", 1, 1), Token(EOF, "", 1, 3)])
  {
    var t, e := Token(NUMBER, ".5", 1, 1), Token(EOF, "", 1, 3);
    LeadingDotNumberStep();
    TokenizeEmits(".5", 0, [], t, 2);
    TokenizeEnds(".5", [] + [t]);
    assert LineAt(".5", 2) == 1 && ColumnAt(".5", 2) == 3;
    Appended(t, e, e, e);
  }

  /** A '.' before anything but a digit or a second '.' is DOT. */
  lemma LoneDotLexes()
    ensures Tokenize(".a") == Success([Token(DOT, ".", 1, 1), Token(IDENTIFIER, "a", 1, 2), Token(EOF, "", 1, 3)])
  {
    var d, a, e := Token(DOT, ".", 1, 1), Token(IDENTIFIER, "a", 1, 2), Token(EOF, "", 1, 3);
    LoneDotStep();
    TokenizeEmits(".a", 0, [], d, 1);
    AfterDotStep();
    TokenizeEmits(".a", 1, [] + [d], a, 2);
    TokenizeEnds(".a", [] + [d] + [a]);
    assert LineAt(".a", 2) == 1 && ColumnAt(".a", 2) == 3;
    Appended(d, a, e, e);
  }

  /** The step on `a-b`: one word, hyphen included. */
  lemma HyphenatedWordStep()
    ensures !IsBlank("a-b"[0])
    ensures StepAt("a-b", 0) == Emit(Token(IDENTIFIER, "a-b", 1, 1), 3)
  {
    HyphenatedWordEnd();
    assert "a-b"[0..3] == "a-b";
    assert WordKind("a-b") == IDENTIFIER;
  }

  lemma HyphenatedWordEnd()
    ensures WordEnd("a-b", 0) == 3
  {
    assert WordEnd("a-b", 3) == 3;
    assert WordEnd("a-b", 2) == 3;
    assert WordEnd("a-b", 1) == 3;
  }

  /** Words may contain '-': `a-b` is one identifier. */
  lemma HyphenatedWordLexes()
    ensures Tokenize("a-b") == Success([Token(IDENTIFIER, "a-b", 1, 1), Token(EOF, "", 1, 4)])
  {
    var t, e := Token(IDENTIFIER, "a-b", 1, 1), Token(EOF, "", 1, 4);
    HyphenatedWordStep();
    TokenizeEmits("a-b", 0, [], t, 3);
    TokenizeEnds("a-b", [] + [t]);
    assert LineAt("a-b", 3) == 1 && ColumnAt("a-b", 3) == 4;
    Appended(t, e, e, e);
  }

  /** `map` is the keyword MAP, although it is also in the type table. */
  lemma MapLexesAsKeyword()
    ensures Tokenize("map") == Success([Token(MAP, "map", 1, 1), Token(EOF, "", 1, 4)])
  {
    var m, e := Token(MAP, "map", 1, 1), Token(EOF, "", 1, 4);
    MapStep();
    TokenizeEmits("map", 0, [], m, 3);
    TokenizeEnds("map", [] + [m]);
    assert LineAt("map", 3) == 1 && ColumnAt("map", 3) == 4;
    Appended(m, e, e, e);
  }

  /** The step on `map`: one word, classified as the keyword. */
  lemma MapStep()
    ensures !IsBlank("map"[0])
    ensures StepAt("map", 0) == Emit(Token(MAP, "map", 1, 1), 3)
  {
    MapWordEnd();
    assert "map"[0..3] == "map";
    MapIsKeyword();
  }

  lemma MapWordEnd()
    ensures WordEnd("map", 0) == 3
  {
    assert WordEnd("map", 3) == 3;
    assert WordEnd("map", 2) == 3;
    assert WordEnd("map", 1) == 3;
  }

  /** Two-character operators win over one-character ones: `<=`, `**` and `||`. */
  lemma LessEqualLexes()
    ensures StepAt("<=", 0) == Emit(Token(LESS_EQUAL, "<=", 1, 1), 2)
  {
  }

  lemma PowerLexes()
    ensures StepAt("**", 0) == Emit(Token(POWER, "**", 1, 1), 2)
  {
  }

  lemma OrLexes()
    ensures StepAt("||", 0) == Emit(Token(OR, "||", 1, 1), 2)
  {
  }

  /** Compound assignments come next, then single-character operators and delimiters. */
  lemma PlusEqualsLexes()
    ensures StepAt("+=", 0) == Emit(Token(PLUS_EQUALS, "+=", 1, 1), 2)
  {
  }

  lemma PipeLexes()
    ensures StepAt("|x", 0) == Emit(Token(PIPE, "|", 1, 1), 1)
  {
  }

  lemma PlusLexes()
    ensures StepAt("+", 0) == Emit(Token(PLUS, "+", 1, 1), 1)
  {
  }

  /** An unknown character is a LexerError at its own line and column. */
  lemma UnknownCharacterFails(s: string, q: nat)
    requires q < |s| && s[q] == '&' && (q + 1 == |s| || s[q + 1] != '&')
    ensures StepAt(s, q) == Stop(LexError("Unexpected character '&'", LineAt(s, q), ColumnAt(s, q),
                                          ["Check for typos or unsupported characters"]))
  {
    AmpersandSymbol(s, q, LineAt(s, q), ColumnAt(s, q));
  }

  lemma AmpersandSymbol(s: string, q: nat, line: int, col: int)
    requires q < |s| && s[q] == '&' && (q + 1 == |s| || s[q + 1] != '&')
    ensures SymbolStep(s, q, line, col) ==
      Stop(LexError("Unexpected character '&'", line, col, ["Check for typos or unsupported characters"]))
  {
    AmpersandMessage();
    if q + 1 < |s| {
      AmpersandPairUnknown(s[q], s[q + 1]);
    }
  }

  lemma AmpersandPairUnknown(a: char, b: char)
    requires a == '&' && b != '&'
    ensures OperatorKind([a, b]).None? && CompoundKind([a, b]).None?
  {
    assert [a, b][0] == a && [a, b][1] == b;
  }

  lemma AmpersandMessage()
    ensures "Unexpected character '" + ['&'] + "'" == "Unexpected character '&'"
  {
  }

  /** A string that is never closed fails at the line and column of its opening quote. */
  lemma UnterminatedAtOpeningQuote(s: string, q: nat)
    requires q < |s| && (s[q] == '"' || s[q] == '\'')
    requires ScanString(s, q + 1, s[q], 0, "") == Unterminated
    ensures StepAt(s, q).Stop? && StepAt(s, q).failure.Raised?
    ensures StepAt(s, q).failure.error.location == Some(At(LineAt(s, q), ColumnAt(s, q)))
    ensures StepAt(s, q).failure.error.message == "Unterminated string literal"
  {
  }

  /** Inside `${...}` a quote is kept and does not end the string. */
  lemma QuoteInsideInterpolation()
    ensures ScanString("${a'b}'", 0, '\'', 0, "") == Closed("${a'b}", 7)
  {
  }

  // ---------------------------------------------------------------------------
  // The lexer object

  class Lexer {
    const source: string
    var pos: nat
    var line: int
    var column: int
    var tokens: seq<Token>

    /** The cursor is within the input and `line`/`column` describe its offset. */
    ghost predicate Valid()
      reads this
    {
      pos <= |source| && line == LineAt(source, pos) && column == ColumnAt(source, pos)
    }

    constructor(source: string)
      ensures Valid()
      ensures this.source == source && pos == 0 && line == 1 && column == 1 && tokens == []
    {
      this.source := source;
      pos := 0;
      line := 1;
      column := 1;
      tokens := [];
    }

    /** `current_char`. */
    function CurrentChar(): (c: Option<char>)
      reads this
      ensures c.Some? <==> pos < |source|
      ensures c.Some? ==> c.value == source[pos]
    {
      if pos >= |source| then None else Some(source[pos])
    }

    /** `peek_char(offset)`. */
    function PeekChar(offset: nat): (c: Option<char>)
      reads this
      ensures c.Some? <==> pos + offset < |source|
      ensures c.Some? ==> c.value == source[pos + offset]
    {
      if pos + offset >= |source| then None else Some(source[pos + offset])
    }

    /** `advance`: consumes one character; a newline moves to column 1 of the next line.
        At the end of input nothing changes. */
    method Advance() returns (c: Option<char>)
      requires Valid()
      modifies this`pos, this`line, this`column
      ensures Valid()
      ensures old(pos) == |source| ==> c.None? && pos == old(pos) && line == old(line) && column == old(column)
      ensures old(pos) < |source| ==> c == Some(source[old(pos)]) && pos == old(pos) + 1
      ensures old(pos) < |source| && source[old(pos)] == '\n' ==> line == old(line) + 1 && column == 1
      ensures old(pos) < |source| && source[old(pos)] != '\n' ==> line == old(line) && column == old(column) + 1
    {
      if pos >= |source| {
        return None;
      }
      var ch := source[pos];
      pos := pos + 1;
      if ch == '\n' {
        line := line + 1;
        column := 1;
      } else {
        column := column + 1;
      }
      return Some(ch);
    }

    /** `skip_whitespace`. */
    method SkipWhitespace()
      requires Valid()
      modifies this`pos, this`line, this`column
      ensures Valid() && pos == SkipBlanks(source, old(pos))
    {
      while pos < |source| && IsBlank(source[pos])
        invariant Valid()
        invariant SkipBlanks(source, pos) == SkipBlanks(source, old(pos))
        decreases |source| - pos
      {
        var _ := Advance();
      }
    }

    /** `skip_comment`: from a '#', up to (not including) the next newline. */
    method SkipComment()
      requires Valid()
      modifies this`pos, this`line, this`column
      ensures Valid()
      ensures pos == if old(pos) < |source| && source[old(pos)] == '#' then CommentEnd(source, old(pos)) else old(pos)
    {
      if pos < |source| && source[pos] == '#' {
        while pos < |source| && source[pos] != '\n'
          invariant Valid()
          invariant CommentEnd(source, pos) == CommentEnd(source, old(pos))
          decreases |source| - pos
        {
          var _ := Advance();
        }
      }
    }

    /** `read_number`. */
    method ReadNumber() returns (t: Token)
      requires Valid()
      modifies this`pos, this`line, this`column
      ensures Valid() && pos == NumberEnd(source, old(pos), false)
      ensures t == Token(NUMBER, source[old(pos)..pos], old(line), old(column))
    {
      var startLine, startCol := line, column;
      var numStr := "";
      var hasDecimal := false;
      while pos < |source| && (IsDigit(source[pos]) || source[pos] == '.')
        invariant Valid() && old(pos) <= pos
        invariant numStr == source[old(pos)..pos]
        invariant NumberEnd(source, pos, hasDecimal) == NumberEnd(source, old(pos), false)
        decreases |source| - pos
      {
        var c := source[pos];
        if c == '.' && PeekChar(1) == Some('.') {
          break;
        }
        if c == '.' {
          if hasDecimal {
            break;
          }
          hasDecimal := true;
        }
        numStr := numStr + [c];
        var _ := Advance();
      }
      return Token(NUMBER, numStr, startLine, startCol);
    }

    /** `read_string`, from the opening quote at the cursor. */
    method ReadString() returns (r: Result<Token, Failure>)
      requires Valid() && pos < |source|
      modifies this`pos, this`line, this`column
      ensures Valid()
      ensures var q := old(pos);
        match ScanString(source, q + 1, source[q], 0, "")
        case Closed(v, e) => r == Success(Token(STRING, v, old(line), old(column))) && pos == e
        case Unterminated =>
          r == Failure(LexError("Unterminated string literal", old(line), old(column),
                                ["String must be closed with matching quote", "String started with " + [source[q]]]))
        case EscapeAtEnd => r == Failure(Crash(NoneAppended))
    {
      var startLine, startCol := line, column;
      var quote := source[pos];
      var _ := Advance();
      var value := "";
      var depth: nat := 0;
      while pos < |source|
        invariant Valid() && old(pos) < pos
        invariant ScanString(source, pos, quote, depth, value) == ScanString(source, old(pos) + 1, quote, 0, "")
        decreases |source| - pos
      {
        var c := source[pos];
        if c == '$' && PeekChar(1) == Some('{') {
          value := ReadInterpolationStart(quote, depth, value);
          depth := depth + 1;
          continue;
        }
        if depth > 0 {
          if c == '{' {
            depth := depth + 1;
          } else if c == '}' {
            depth := depth - 1;
          }
          value := value + [c];
          var _ := Advance();
          continue;
        }
        if c == quote {
          break;
        }
        if c == '\\' {
          var decoded := ReadEscape(quote, value);
          if decoded.None? {
            return Failure(Crash(NoneAppended));
          }
          value := decoded.value;
        } else {
          value := value + [c];
          var _ := Advance();
        }
      }
      if CurrentChar() == Some(quote) {
        var _ := Advance();
      } else {
        return Failure(LexError("Unterminated string literal", startLine, startCol,
                                ["String must be closed with matching quote", "String started with " + [quote]]));
      }
      return Success(Token(STRING, value, startLine, startCol));
    }

    /** The `${` branch of `read_string`: both characters are kept and the cursor moves past them. */
    method ReadInterpolationStart(quote: char, ghost depth: nat, value: string) returns (r: string)
      requires Valid() && pos + 1 < |source| && source[pos] == '$' && source[pos + 1] == '{'
      modifies this`pos, this`line, this`column
      ensures Valid() && pos == old(pos) + 2 && r == value + "${"
      ensures ScanString(source, pos, quote, depth + 1, r) == ScanString(source, old(pos), quote, depth, value)
    {
      r := value + [source[pos]];
      var _ := Advance();
      r := r + [source[pos]];
      var _ := Advance();
      assert r == value + "${";
    }

    /** The escape branch of `read_string`: the backslash at the cursor and the character
        after it are consumed and the decoded character is appended to `value`; a backslash
        at the end of input leaves nothing to append. */
    method ReadEscape(quote: char, value: string) returns (r: Option<string>)
      requires Valid() && pos < |source| && source[pos] == '\\' && quote != '\\'
      modifies this`pos, this`line, this`column
      ensures Valid()
      ensures old(pos) + 1 == |source| ==> r.None? && ScanString(source, old(pos), quote, 0, value) == EscapeAtEnd
      ensures old(pos) + 1 < |source| ==>
        r.Some? && pos == old(pos) + 2 &&
        ScanString(source, pos, quote, 0, r.value) == ScanString(source, old(pos), quote, 0, value)
    {
      var _ := Advance();
      var e := CurrentChar();
      if e.None? {
        return None;
      }
      var ch := e.value;
      var decoded := value;
      if ch == 'n' {
        decoded := value + "\n";
      } else if ch == 't' {
        decoded := value + "\t";
      } else if ch == '\\' {
        decoded := value + "\\";
      } else if ch == quote {
        decoded := value + [quote];
      } else {
        decoded := value + [ch];
      }
      assert decoded == value + [Unescape(ch, quote)];
      var _ := Advance();
      return Some(decoded);
    }

    /** `read_identifier`: a keyword, else a type name, else an identifier. */
    method ReadIdentifier() returns (t: Token)
      requires Valid()
      modifies this`pos, this`line, this`column
      ensures Valid() && pos == WordEnd(source, old(pos))
      ensures t == Token(WordKind(source[old(pos)..pos]), source[old(pos)..pos], old(line), old(column))
    {
      var startLine, startCol := line, column;
      var word := "";
      while pos < |source| && IsWordChar(source[pos])
        invariant Valid() && old(pos) <= pos
        invariant word == source[old(pos)..pos]
        invariant WordEnd(source, pos) == WordEnd(source, old(pos))
        decreases |source| - pos
      {
        word := word + [source[pos]];
        var _ := Advance();
      }
      return Token(WordKind(word), word, startLine, startCol);
    }

    /** One token at the cursor, which is not blank: the body of the `tokenize` loop. */
    method Step() returns (st: Step)
      requires Valid() && pos < |source| && !IsBlank(source[pos])
      modifies this`pos, this`line, this`column
      ensures Valid()
      ensures st == StepAt(source, old(pos))
      ensures st.Skip? || st.Emit? ==> pos == st.next
      ensures st.Emit? ==> st.token.kind != EOF
    {
      var q := pos;
      var c := source[pos];
      if c == '#' {
        SkipComment();
        return Skip(pos);
      }
      if c == '\n' {
        var t := Token(NEWLINE, "\\n", line, column);
        var _ := Advance();
        return Emit(t, pos);
      }
      if IsDigit(c) {
        var t := ReadNumber();
        return Emit(t, pos);
      }
      if c == '.' {
        st := ReadDot();
        return;
      }
      if c == '"' || c == '\'' {
        var r := ReadString();
        if r.Failure? {
          return Stop(r.error);
        }
        return Emit(r.value, pos);
      }
      if IsAlpha(c) || c == '_' {
        var t := ReadIdentifier();
        return Emit(t, pos);
      }
      st := ReadSymbol();
    }

    /** The '.' branch of `tokenize`: `..`, a number such as `.5`, or a lone DOT. */
    method ReadDot() returns (st: Step)
      requires Valid() && pos < |source| && source[pos] == '.'
      modifies this`pos, this`line, this`column
      ensures Valid()
      ensures st == DotStep(source, old(pos), old(line), old(column))
      ensures pos == st.next
    {
      var next := PeekChar(1);
      if next == Some('.') {
        st := Emit(Token(DOTDOT, "..", line, column), pos + 2);
        var _ := Advance();
        var _ := Advance();
      } else if next.Some? && IsDigit(next.value) {
        var t := ReadNumber();
        st := Emit(t, pos);
      } else {
        st := Emit(Token(DOT, ".", line, column), pos + 1);
        var _ := Advance();
      }
    }

    /** The operator, compound-assignment and delimiter branches of `tokenize`. */
    method ReadSymbol() returns (st: Step)
      requires Valid() && pos < |source|
      modifies this`pos, this`line, this`column
      ensures Valid()
      ensures st == SymbolStep(source, old(pos), old(line), old(column))
      ensures st.Emit? ==> pos == st.next
    {
      var c := source[pos];
      var next := PeekChar(1);
      var two := if next.Some? then [c, next.value] else [c];
      if OperatorKind(two).Some? {
        var t := Token(OperatorKind(two).value, two, line, column);
        var _ := Advance();
        var _ := Advance();
        return Emit(t, pos);
      }
      if CompoundKind(two).Some? {
        var t := Token(CompoundKind(two).value, two, line, column);
        var _ := Advance();
        var _ := Advance();
        return Emit(t, pos);
      }
      if OperatorKind([c]).Some? {
        var t := Token(OperatorKind([c]).value, [c], line, column);
        var _ := Advance();
        return Emit(t, pos);
      }
      if DelimiterKind(c).Some? {
        var t := Token(DelimiterKind(c).value, [c], line, column);
        var _ := Advance();
        return Emit(t, pos);
      }
      return Stop(LexError("Unexpected character '" + [c] + "'", line, column,
                           ["Check for typos or unsupported characters"]));
    }

    /** `tokenize`: reads tokens until the input is exhausted, then appends EOF. */
    method Tokenize() returns (r: Result<seq<Token>, Failure>)
      requires Valid()
      modifies this
      ensures r == TokenizeFrom(source, old(pos), old(tokens))
      ensures r.Success? ==> tokens == r.value && |tokens| > |old(tokens)| && tokens[..|old(tokens)|] == old(tokens)
      ensures r.Success? ==> tokens[|tokens| - 1] == Token(EOF, "", LineAt(source, |source|), ColumnAt(source, |source|))
      ensures r.Success? && NoEof(old(tokens)) ==> NoEof(tokens[..|tokens| - 1])
    {
      while pos < |source|
        invariant Valid()
        invariant TokenizeFrom(source, pos, tokens) == TokenizeFrom(source, old(pos), old(tokens))
        invariant |tokens| >= |old(tokens)| && tokens[..|old(tokens)|] == old(tokens)
        invariant NoEof(old(tokens)) ==> NoEof(tokens)
        decreases |source| - pos
      {
        SkipWhitespace();
        if CurrentChar().None? {
          break;
        }
        var st := Step();
        match st
        case Skip(_) =>
        case Emit(t, _) =>
          PrefixSnoc(tokens, t, |old(tokens)|);
          if NoEof(old(tokens)) {
            NoEofSnoc(tokens, t);
          }
          tokens := tokens + [t];
        case Stop(f) => return Failure(f);
      }
      PrefixSnoc(tokens, Token(EOF, "", line, column), |old(tokens)|);
      tokens := tokens + [Token(EOF, "", line, column)];
      return Success(tokens);
    }
  }

  /** The module-level `tokenize(source)`: a fresh lexer over the whole source. */
  /** A successful result ends with exactly one EOF, located at the end of the input. */
  method TokenizeSource(source: string) returns (r: Result<seq<Token>, Failure>)
    ensures r == Tokenize(source)
    ensures r.Success? ==> r.value != [] && NoEof(r.value[..|r.value| - 1]) &&
                           r.value[|r.value| - 1] == Token(EOF, "", LineAt(source, |source|), ColumnAt(source, |source|))
  {
    var lexer := new Lexer(source);
    r := lexer.Tokenize();
  }
}

/** Diagnostics of the VL compiler: source locations, the four error classes and the
    multi-line error block with a caret pointer (src/vl/errors.py). */
module Errors {
  import opened Wrappers
  import opened Strings

  /** A position in the source; `length` is the number of carets, 1 unless given. */
  datatype SourceLocation = SourceLocation(line: int, column: int, length: int)

  function At(line: int, column: int): SourceLocation {
    SourceLocation(line, column, 1)
  }

  /** `str(location)`: "line:column". */
  function LocationString(loc: SourceLocation): (r: string)
    ensures |r| == |IntToString(loc.line)| + 1 + |IntToString(loc.column)|
  {
    IntToString(loc.line) + ":" + IntToString(loc.column)
  }

  /** For non-negative coordinates the rendering splits back into the line and the column. */
  lemma LocationStringRoundTrip(loc: SourceLocation)
    requires loc.line >= 0 && loc.column >= 0
    ensures var parts := Split(LocationString(loc), ':');
      |parts| == 2 && AllDigits(parts[0]) && AllDigits(parts[1]) &&
      DecimalValue(parts[0]) == loc.line && DecimalValue(parts[1]) == loc.column
  {
    var a, b := IntToString(loc.line), IntToString(loc.column);
    assert ':' !in a && ':' !in b;
    assert LocationString(loc) == Join([a, b], [':']);
    JoinSplit([a, b], ':');
    DecimalRoundTrip(loc.line);
    DecimalRoundTrip(loc.column);
  }

  datatype ErrorClass = LexerError | ParseError | TypeError | CodeGenError

  /** `self.__class__.__name__`. */
  function ClassName(c: ErrorClass): string {
    match c
    case LexerError => "LexerError"
    case ParseError => "ParseError"
    case TypeError => "TypeError"
    case CodeGenError => "CodeGenError"
  }

  /** A raised `VLError`: its class, message, optional location, source line and hints. */
  datatype VLError = VLError(
    cls: ErrorClass,
    message: string,
    location: Option<SourceLocation>,
    sourceLine: string,
    hints: seq<string>)

  /** The constructor: `hints=None` (or an empty list) is stored as the empty list. */
  function NewError(cls: ErrorClass, message: string, location: Option<SourceLocation>,
                    sourceLine: string, hints: Option<seq<string>>): (e: VLError)
    ensures e.cls == cls && e.message == message && e.location == location && e.sourceLine == sourceLine
    ensures hints.None? ==> e.hints == []
    ensures hints.Some? ==> e.hints == hints.value
  {
    VLError(cls, message, location, sourceLine, if hints.Some? then hints.value else [])
  }

  function Header(e: VLError): string {
    if e.location.Some? then
      ClassName(e.cls) + " at line " + IntToString(e.location.value.line) +
      ", column " + IntToString(e.location.value.column) + ":"
    else ClassName(e.cls) + ":"
  }

  /** "  L | source": the quoted source line. */
  function ContextLine(line: int, sourceLine: string): string {
    "  " + IntToString(line) + " | " + sourceLine
  }

  /** The pointer line as written: `len(str(line)) + 3 + column - 1` spaces, then `length` carets. */
  function CaretLine(loc: SourceLocation): (r: string)
    ensures |r| == (if |IntToString(loc.line)| + 2 + loc.column <= 0 then 0
                    else |IntToString(loc.line)| + 2 + loc.column) +
                   (if loc.length <= 0 then 0 else loc.length)
  {
    RepeatChar(' ', |IntToString(loc.line)| + 3 + loc.column - 1) + RepeatChar('^', loc.length)
  }

  /** The pointer line with the offset of the quoted text: `len(str(line)) + 5 + column - 1` spaces. */
  function AlignedCaretLine(loc: SourceLocation): string {
    RepeatChar(' ', |IntToString(loc.line)| + 5 + loc.column - 1) + RepeatChar('^', loc.length)
  }

  predicate HasContext(e: VLError) {
    e.sourceLine != "" && e.location.Some?
  }

  function ContextBlock(e: VLError, pointer: SourceLocation -> string): seq<string>
    requires HasContext(e)
  {
    ["", ContextLine(e.location.value.line, e.sourceLine), pointer(e.location.value)]
  }

  function HintLines(hints: seq<string>): (r: seq<string>)
    ensures |r| == |hints|
    ensures forall i :: 0 <= i < |hints| ==> r[i] == "  Hint: " + hints[i]
  {
    if hints == [] then [] else ["  Hint: " + hints[0]] + HintLines(hints[1..])
  }

  /** The lines of `_format_error`, with a choice of pointer line. */
  function Lines(e: VLError, pointer: SourceLocation -> string): seq<string> {
    [Header(e), "  " + e.message] +
    (if HasContext(e) then ContextBlock(e, pointer) else []) +
    (if e.hints != [] then [""] + HintLines(e.hints) else [])
  }

  /** The lines `_format_error` joins, as written. */
  function FormatLines(e: VLError): seq<string> {
    Lines(e, CaretLine)
  }

  /** `_format_error`: the lines joined by newlines. */
  function FormatError(e: VLError): string {
    Join(FormatLines(e), "\n")
  }

  /** The error block: header, indented message, the context block only when there is a
      source line and a location, then a blank line and one "  Hint: " line per hint. */
  lemma FormatLinesShape(e: VLError)
    ensures var ls := FormatLines(e);
      var ctx := if HasContext(e) then 3 else 0;
      |ls| == 2 + ctx + (if e.hints == [] then 0 else 1 + |e.hints|) &&
      ls[0] == (if e.location.Some? then ClassName(e.cls) + " at line " + IntToString(e.location.value.line) +
                  ", column " + IntToString(e.location.value.column) + ":"
                else ClassName(e.cls) + ":") &&
      ls[1] == "  " + e.message &&
      (HasContext(e) ==> ls[2] == "" && ls[3] == ContextLine(e.location.value.line, e.sourceLine) &&
                         ls[4] == CaretLine(e.location.value)) &&
      (e.hints != [] ==> ls[2 + ctx] == "" &&
                         forall i :: 0 <= i < |e.hints| ==> ls[3 + ctx + i] == "  Hint: " + e.hints[i])
  {
  }

  /** The caret line as written stands two columns left of the character it should mark:
      the character above the first caret is the one two places before `sourceLine[column - 1]`. */
  lemma CaretTwoColumnsLeft(loc: SourceLocation, sourceLine: string)
    requires 1 <= loc.column <= |sourceLine| && loc.length >= 1
    ensures var k := |IntToString(loc.line)| + 2 + loc.column;
      CaretLine(loc)[k] == '^' &&
      (forall i :: 0 <= i < k ==> CaretLine(loc)[i] == ' ') &&
      ContextLine(loc.line, sourceLine)[k + 2] == sourceLine[loc.column - 1]
  {
  }

  /** A concrete instance: at line 1, column 1 of "abc" the caret sits under the '|' separator. */
  lemma CaretUnderSeparator()
    ensures ContextLine(1, "abc") == "  1 | abc"
    ensures CaretLine(At(1, 1)) == "    ^"
    ensures ContextLine(1, "abc")[4] == '|'
  {
  }

  /** With the corrected offset the first caret sits exactly under `sourceLine[column - 1]`. */
  lemma AlignedCaretUnderColumn(loc: SourceLocation, sourceLine: string)
    requires 1 <= loc.column <= |sourceLine| && loc.length >= 1
    ensures var k := |IntToString(loc.line)| + 4 + loc.column;
      AlignedCaretLine(loc)[k] == '^' &&
      (forall i :: 0 <= i < k ==> AlignedCaretLine(loc)[i] == ' ') &&
      ContextLine(loc.line, sourceLine)[k] == sourceLine[loc.column - 1]
  {
  }

  /** How a compiler phase can end other than with a result: a raised `VLError`, a Python
      run-time error the code does not catch (`reason` names it), a loop that never ends,
      or running out of recursion depth. */
  datatype Failure =
    | Raised(error: VLError)
    | Crash(reason: string)
    | Diverges
    | DepthExceeded

  /** `format_error_context`: the 1-based `line` of `source`, or "" when out of range. */
  function FormatErrorContext(source: string, line: int, column: int): (r: string)
    ensures '\n' !in r
    ensures !(0 < line <= |Split(source, '\n')|) ==> r == ""
  {
    var lines := Split(source, '\n');
    if 0 < line <= |lines| then lines[line - 1] else ""
  }

  /** For a text made of newline-free lines, the context of line `k` is exactly that line. */
  lemma ContextOfJoinedLines(lines: seq<string>, k: int, column: int)
    requires |lines| >= 1 && forall i :: 0 <= i < |lines| ==> '\n' !in lines[i]
    requires 1 <= k <= |lines|
    ensures FormatErrorContext(Join(lines, "\n"), k, column) == lines[k - 1]
  {
    JoinSplit(lines, '\n');
  }
}
